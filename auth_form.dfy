/** The login/register form of the frontend: its four fields, the per-field error messages
    `validateForm` records, and the state changes of typing, submitting and switching mode. */
module AuthForm {
  import opened Common

  datatype Field = Name | Email | Password | ConfirmPassword

  datatype FormData = FormData(name: string, email: string, password: string, confirmPassword: string)
  {
    function Get(f: Field): string {
      match f
      case Name => name
      case Email => email
      case Password => password
      case ConfirmPassword => confirmPassword
    }

    /** `{ ...prev, [f]: value }` */
    function With(f: Field, value: string): FormData {
      match f
      case Name => this.(name := value)
      case Email => this.(email := value)
      case Password => this.(password := value)
      case ConfirmPassword => this.(confirmPassword := value)
    }
  }

  const EmptyForm := FormData("", "", "", "")

  /** Setting a field changes that field and no other. */
  lemma WithChangesOneField(d: FormData, f: Field, value: string, g: Field)
    ensures d.With(f, value).Get(g) == if g == f then value else d.Get(g)
  {
  }

  // ---------------------------------------------------------------------------------------
  // The email pattern

  /** No whitespace in `s[a..b]`. */
  predicate NoSpaceIn(s: string, a: int, b: int) {
    0 <= a <= b <= |s| && forall k :: a <= k < b ==> !JsIsSpace(s[k])
  }

  /** `s[i..j]` is a match of `\S+@\S+\.\S+` whose `@` is at `p` and whose `.` is at `q`. */
  ghost predicate MatchAt(s: string, i: int, p: int, q: int, j: int) {
    0 <= i < p && p + 1 < q && q + 1 < j <= |s| &&
    s[p] == '@' && s[q] == '.' &&
    NoSpaceIn(s, i, p) && NoSpaceIn(s, p + 1, q) && NoSpaceIn(s, q + 1, j)
  }

  /** What `/\S+@\S+\.\S+/.test(s)` means: the pattern is not anchored, so it may match
      anywhere in `s`. */
  ghost predicate EmailMatches(s: string) {
    exists i, p, q, j :: MatchAt(s, i, p, q, j)
  }

  /** A `.` at some `q >= k` followed by a non-space, with no whitespace in `s[k..q]`. */
  predicate DotFrom(s: string, k: nat)
    decreases |s| - k
  {
    if k + 1 >= |s| then false
    else (s[k] == '.' && !JsIsSpace(s[k + 1])) || (!JsIsSpace(s[k]) && DotFrom(s, k + 1))
  }

  /** An `@` at some `p >= from` with non-spaces on both sides and a `DotFrom` after them. */
  predicate AtFrom(s: string, from: nat)
    decreases |s| - from
  {
    if from + 1 >= |s| then false
    else (from >= 1 && s[from] == '@' && !JsIsSpace(s[from - 1]) && !JsIsSpace(s[from + 1]) && DotFrom(s, from + 2)) ||
         AtFrom(s, from + 1)
  }

  /** The pattern test, as a left-to-right scan for the shortest possible match. */
  predicate EmailTest(s: string) {
    AtFrom(s, 0)
  }

  /** The `.` at `q` ends a `DotFrom(s, k)` search. */
  predicate DotAt(s: string, k: int, q: int) {
    0 <= k <= q && q + 1 < |s| && s[q] == '.' && !JsIsSpace(s[q + 1]) && NoSpaceIn(s, k, q)
  }

  /** The `@` at `p` starts a shortest match. */
  predicate AtAt(s: string, p: int) {
    1 <= p && p + 1 < |s| && s[p] == '@' && !JsIsSpace(s[p - 1]) && !JsIsSpace(s[p + 1]) && DotFrom(s, p + 2)
  }

  lemma {:induction false} DotFromSound(s: string, k: nat)
    requires DotFrom(s, k)
    ensures exists q :: DotAt(s, k, q)
    decreases |s| - k
  {
    if !(s[k] == '.' && !JsIsSpace(s[k + 1])) {
      DotFromSound(s, k + 1);
      var q :| DotAt(s, k + 1, q);
      assert NoSpaceIn(s, k, q);
      assert DotAt(s, k, q);
    } else {
      assert NoSpaceIn(s, k, k);
      assert DotAt(s, k, k);
    }
  }

  lemma {:induction false} DotFromComplete(s: string, k: nat, q: nat)
    requires DotAt(s, k, q)
    ensures DotFrom(s, k)
    decreases q - k
  {
    if k < q {
      assert !JsIsSpace(s[k]);
      assert NoSpaceIn(s, k + 1, q);
      DotFromComplete(s, k + 1, q);
    }
  }

  lemma {:induction false} AtFromSound(s: string, from: nat)
    requires AtFrom(s, from)
    ensures exists p :: from <= p && AtAt(s, p)
    decreases |s| - from
  {
    if AtAt(s, from) {
    } else {
      AtFromSound(s, from + 1);
    }
  }

  lemma {:induction false} AtFromComplete(s: string, from: nat, p: nat)
    requires from <= p && AtAt(s, p)
    ensures AtFrom(s, from)
    decreases p - from
  {
    if from < p {
      AtFromComplete(s, from + 1, p);
    }
  }

  lemma ScanFindsMatch(s: string)
    requires EmailTest(s)
    ensures EmailMatches(s)
  {
    AtFromSound(s, 0);
    var p :| 0 <= p && AtAt(s, p);
    DotFromSound(s, p + 2);
    var q :| DotAt(s, p + 2, q);
    assert NoSpaceIn(s, p + 1, q);
    assert NoSpaceIn(s, p - 1, p);
    assert NoSpaceIn(s, q + 1, q + 2);
    assert MatchAt(s, p - 1, p, q, q + 2);
  }

  lemma MatchFoundByScan(s: string)
    requires EmailMatches(s)
    ensures EmailTest(s)
  {
    var i, p, q, j :| MatchAt(s, i, p, q, j);
    assert !JsIsSpace(s[p - 1]) && !JsIsSpace(s[p + 1]);
    assert NoSpaceIn(s, p + 2, q);
    assert DotAt(s, p + 2, q);
    DotFromComplete(s, p + 2, q);
    assert AtAt(s, p);
    AtFromComplete(s, 0, p);
  }

  /** The scan succeeds exactly when the pattern matches somewhere in the string. */
  lemma EmailTestIff(s: string)
    ensures EmailTest(s) <==> EmailMatches(s)
  {
    if EmailTest(s) {
      ScanFindsMatch(s);
    }
    if EmailMatches(s) {
      MatchFoundByScan(s);
    }
  }

  /** Text around a matching string does not stop the pattern from matching. */
  lemma EmailMatchesUnanchored(pre: string, s: string, post: string)
    requires EmailMatches(s)
    ensures EmailMatches(pre + s + post)
  {
    var i, p, q, j :| MatchAt(s, i, p, q, j);
    var t := pre + s + post;
    var d := |pre|;
    forall k | 0 <= k < |s| ensures t[k + d] == s[k] { }
    NoSpaceShifted(s, t, d, i, p);
    NoSpaceShifted(s, t, d, p + 1, q);
    NoSpaceShifted(s, t, d, q + 1, j);
    assert MatchAt(t, i + d, p + d, q + d, j + d);
  }

  lemma NoSpaceShifted(s: string, t: string, d: nat, a: int, b: int)
    requires d + |s| <= |t| && forall k :: 0 <= k < |s| ==> t[k + d] == s[k]
    requires NoSpaceIn(s, a, b)
    ensures NoSpaceIn(t, a + d, b + d)
  {
    forall k | a + d <= k < b + d ensures !JsIsSpace(t[k]) {
      assert t[(k - d) + d] == s[k - d];
    }
  }

  /** A matching string holds an `@`, a `.` and at least five characters, and is not blank. */
  lemma EmailMatchesNeeds(s: string)
    requires EmailMatches(s)
    ensures |s| >= 5 && '@' in s && '.' in s && !AllSpace(s, JsIsSpace)
  {
    var i, p, q, j :| MatchAt(s, i, p, q, j);
    assert s[p] == '@' && s[q] == '.' && !JsIsSpace(s[i]);
  }

  /** A blank string never passes the test. */
  lemma BlankFailsEmailTest(s: string)
    requires AllSpace(s, JsIsSpace)
    ensures !EmailTest(s)
  {
    EmailTestIff(s);
    if EmailMatches(s) {
      EmailMatchesNeeds(s);
    }
  }

  // ---------------------------------------------------------------------------------------
  // What validateForm records

  const NameRequired := "Name is required"
  const EmailRequired := "Email is required"
  const EmailInvalid := "Email is invalid"
  const PasswordRequired := "Password is required"
  const PasswordTooShort := "Password must be at least 6 characters"
  const PasswordsDiffer := "Passwords do not match"

  /** The name check: only when registering, and only a blank name fails. */
  function NameError(isLogin: bool, name: string): (r: Option<string>)
    ensures r.Some? <==> !isLogin && AllSpace(name, JsIsSpace)
    ensures r.Some? ==> r.value == NameRequired
  {
    TrimEmptyIff(name, JsIsSpace);
    if !isLogin && JsTrim(name) == "" then Some(NameRequired) else None
  }

  /** The email check: a blank email is missing, any other that the pattern rejects invalid. */
  function EmailError(email: string): (r: Option<string>)
    ensures r.None? <==> EmailTest(email)
    ensures r.Some? ==> r.value == if AllSpace(email, JsIsSpace) then EmailRequired else EmailInvalid
  {
    TrimEmptyIff(email, JsIsSpace);
    if JsTrim(email) == "" then
      BlankFailsEmailTest(email);
      Some(EmailRequired)
    else if !EmailTest(email) then Some(EmailInvalid)
    else None
  }

  /** The password check: the two messages exclude each other; six characters pass. */
  function PasswordError(password: string): (r: Option<string>)
    ensures r.None? <==> |password| >= 6
    ensures r.Some? ==> r.value == if password == "" then PasswordRequired else PasswordTooShort
  {
    if password == "" then Some(PasswordRequired)
    else if |password| < 6 then Some(PasswordTooShort)
    else None
  }

  /** The confirmation check: only when registering. */
  function ConfirmError(isLogin: bool, password: string, confirm: string): (r: Option<string>)
    ensures r.Some? <==> !isLogin && password != confirm
    ensures r.Some? ==> r.value == PasswordsDiffer
  {
    if !isLogin && password != confirm then Some(PasswordsDiffer) else None
  }

  /** The errors object: one optional message per field. A field without a key is `None`;
      `handleInputChange` blanks a message to `Some("")` rather than removing the key. */
  datatype Errors = Errors(name: Option<string>, email: Option<string>, password: Option<string>,
                           confirmPassword: Option<string>)
  {
    function Get(f: Field): Option<string> {
      match f
      case Name => name
      case Email => email
      case Password => password
      case ConfirmPassword => confirmPassword
    }

    /** `{ ...prev, [f]: message }` */
    function Set(f: Field, message: string): Errors {
      match f
      case Name => this.(name := Some(message))
      case Email => this.(email := Some(message))
      case Password => this.(password := Some(message))
      case ConfirmPassword => this.(confirmPassword := Some(message))
    }

    /** `Object.keys(errors).length === 0` */
    predicate IsEmpty() {
      name.None? && email.None? && password.None? && confirmPassword.None?
    }
  }

  const NoErrors := Errors(None, None, None, None)

  /** The `newErrors` object `validateForm` builds: each field's key holds the message of its
      failed check. */
  function FormErrors(isLogin: bool, f: FormData): Errors {
    Errors(NameError(isLogin, f.name), EmailError(f.email), PasswordError(f.password),
           ConfirmError(isLogin, f.password, f.confirmPassword))
  }

  /** The form passes exactly when the email matches, the password has at least 6 characters
      and, when registering, the name is not blank and the confirmation equals the password.
      In login mode only the email and password can be at fault. */
  lemma ValidIff(isLogin: bool, f: FormData)
    ensures FormErrors(isLogin, f).IsEmpty() <==>
      EmailTest(f.email) && |f.password| >= 6 &&
      (!isLogin ==> !AllSpace(f.name, JsIsSpace) && f.password == f.confirmPassword)
    ensures isLogin ==> FormErrors(isLogin, f).name.None? && FormErrors(isLogin, f).confirmPassword.None?
  {
  }

  // ---------------------------------------------------------------------------------------
  // The component

  /** What `handleSubmit` sends: the endpoint and the JSON body's three fields. */
  datatype AuthRequest = AuthRequest(endpoint: string, name: string, email: string, password: string)

  function Endpoint(isLogin: bool): string {
    if isLogin then "/api/auth/login" else "/api/auth/register"
  }

  /** `AuthPage`'s mode, form and errors state. */
  class AuthPage {
    var isLogin: bool
    var form: FormData
    var errors: Errors

    constructor()
      ensures isLogin && form == EmptyForm && errors == NoErrors
    {
      isLogin := true;
      form := EmptyForm;
      errors := NoErrors;
    }

    /** `validateForm`: records the errors of the current form and reports whether there are none. */
    method ValidateForm() returns (ok: bool)
      modifies this`errors
      ensures errors == FormErrors(isLogin, form)
      ensures ok <==> errors.IsEmpty()
    {
      var newErrors := NoErrors;
      if !isLogin && JsTrim(form.name) == "" {
        newErrors := newErrors.Set(Name, NameRequired);
      }
      if JsTrim(form.email) == "" {
        newErrors := newErrors.Set(Email, EmailRequired);
      } else if !EmailTest(form.email) {
        newErrors := newErrors.Set(Email, EmailInvalid);
      }
      if form.password == "" {
        newErrors := newErrors.Set(Password, PasswordRequired);
      } else if |form.password| < 6 {
        newErrors := newErrors.Set(Password, PasswordTooShort);
      }
      if !isLogin && form.password != form.confirmPassword {
        newErrors := newErrors.Set(ConfirmPassword, PasswordsDiffer);
      }
      errors := newErrors;
      ok := newErrors.IsEmpty();
    }

    /** `handleSubmit` up to the request: no request unless the form validates, and then one to
        the mode's endpoint carrying the form's name, email and password. */
    method HandleSubmit() returns (req: Option<AuthRequest>)
      modifies this`errors
      ensures errors == FormErrors(isLogin, form)
      ensures req.None? <==> !errors.IsEmpty()
      ensures req.Some? ==> req.value == AuthRequest(Endpoint(isLogin), form.name, form.email, form.password)
    {
      var ok := ValidateForm();
      if !ok {
        return None;
      }
      var endpoint := if isLogin then "/api/auth/login" else "/api/auth/register";
      req := Some(AuthRequest(endpoint, form.name, form.email, form.password));
    }

    /** `handleInputChange`: sets the field and, when that field shows a message, blanks it. */
    method HandleInputChange(f: Field, value: string)
      modifies this`form, this`errors
      ensures form == old(form).With(f, value)
      ensures errors == if old(errors).Get(f).Some? && old(errors).Get(f).value != "" then old(errors).Set(f, "") else old(errors)
    {
      form := form.With(f, value);
      if errors.Get(f).Some? && errors.Get(f).value != "" {
        errors := errors.Set(f, "");
      }
    }

    /** `toggleMode`: flips the mode, forgets the errors and empties all four fields. */
    method ToggleMode()
      modifies this
      ensures isLogin == !old(isLogin) && errors == NoErrors && form == EmptyForm
    {
      isLogin := !isLogin;
      errors := NoErrors;
      form := EmptyForm;
    }
  }

  /** Blanking a message keeps the other fields' messages. */
  lemma SetChangesOneField(e: Errors, f: Field, message: string, g: Field)
    ensures e.Set(f, message).Get(g) == if g == f then Some(message) else e.Get(g)
  {
  }
}
