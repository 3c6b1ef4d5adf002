/** Small values and string operations shared by the backend and the frontend models:
    an optional value, the whitespace classes of JavaScript and Python, trimming,
    ASCII lower-casing and first-occurrence search/replace on strings. */
module Common {

  datatype Option<+T> = None | Some(value: T)

  /** A value, or the error message an HTTP handler answers with instead. */
  datatype Result<+T> = Ok(value: T) | Err(message: string)

  /** JavaScript's `\s` class and the characters `String.prototype.trim` removes
      (code points listed in hexadecimal). */
  predicate JsIsSpace(c: char) {
    var n := c as int;
    (0x09 <= n <= 0x0D) || n == 0x20 || n == 0xA0 || n == 0x1680 ||
    (0x2000 <= n <= 0x200A) || n == 0x2028 || n == 0x2029 || n == 0x202F ||
    n == 0x205F || n == 0x3000 || n == 0xFEFF
  }

  /** Python's `str.isspace`, the characters `str.strip()` removes. It differs from
      JavaScript's class in U+001C..U+001F and U+0085 (Python only) and U+FEFF (JavaScript only). */
  predicate PyIsSpace(c: char) {
    var n := c as int;
    (0x09 <= n <= 0x0D) || (0x1C <= n <= 0x20) || n == 0x85 || n == 0xA0 || n == 0x1680 ||
    (0x2000 <= n <= 0x200A) || n == 0x2028 || n == 0x2029 || n == 0x202F ||
    n == 0x205F || n == 0x3000
  }

  predicate AllSpace(s: string, ws: char -> bool) {
    forall i :: 0 <= i < |s| ==> ws(s[i])
  }

  /** Drops the leading characters of `s` that `ws` classifies as whitespace. */
  function TrimStart(s: string, ws: char -> bool): string {
    if s == [] || !ws(s[0]) then s else TrimStart(s[1..], ws)
  }

  /** What `TrimStart` leaves is a suffix, what it drops is whitespace, and it stops at the
      first non-whitespace character. */
  lemma {:induction false} TrimStartSpec(s: string, ws: char -> bool)
    ensures var r := TrimStart(s, ws);
      |r| <= |s| && r == s[|s| - |r|..] && AllSpace(s[..|s| - |r|], ws) && (r == [] || !ws(r[0]))
  {
    if s != [] && ws(s[0]) {
      var r := TrimStart(s[1..], ws);
      TrimStartSpec(s[1..], ws);
      SpacePrefixCons(s, |s| - |r|, ws);
    }
  }

  lemma SpacePrefixCons(s: string, k: nat, ws: char -> bool)
    requires 1 <= k <= |s| && ws(s[0]) && AllSpace(s[1..][..k - 1], ws)
    ensures AllSpace(s[..k], ws) && s[1..][k - 1..] == s[k..]
  {
    forall i | 0 <= i < k ensures ws(s[..k][i]) {
      if i > 0 {
        assert s[..k][i] == s[1..][..k - 1][i - 1];
      }
    }
  }

  /** Drops the trailing characters of `s` that `ws` classifies as whitespace. */
  function TrimEnd(s: string, ws: char -> bool): (r: string)
    ensures |r| <= |s| && r == s[..|r|]
    ensures AllSpace(s[|r|..], ws)
    ensures r == [] || !ws(r[|r| - 1])
  {
    if s == [] || !ws(s[|s| - 1]) then s
    else
      var r := TrimEnd(s[..|s| - 1], ws);
      assert s[..|s| - 1][|r|..] == s[|r|..|s| - 1];
      r
  }

  /** Both ends: JavaScript `trim()` with `JsIsSpace`, Python `strip()` with `PyIsSpace`. */
  function Trim(s: string, ws: char -> bool): string {
    TrimEnd(TrimStart(s, ws), ws)
  }

  function JsTrim(s: string): string { Trim(s, JsIsSpace) }

  function PyStrip(s: string): string { Trim(s, PyIsSpace) }

  /** A string trims to nothing exactly when every one of its characters is whitespace. */
  lemma TrimEmptyIff(s: string, ws: char -> bool)
    ensures Trim(s, ws) == [] <==> AllSpace(s, ws)
  {
    var t := TrimStart(s, ws);
    TrimStartSpec(s, ws);
    if Trim(s, ws) == [] {
      assert AllSpace(t[0..], ws);
      assert t == [];
      assert s[..|s|] == s;
    } else {
      var r := Trim(s, ws);
      assert !ws(r[0]) by {
        if t != [] { assert r[0] == t[0]; }
      }
      assert r[0] == s[|s| - |t|];
    }
  }

  /** Python's `str.lower` restricted to ASCII letters. */
  function AsciiLower(c: char): char {
    if 'A' <= c <= 'Z' then (c as int + 32) as char else c
  }

  function Lower(s: string): (r: string)
    ensures |r| == |s|
    ensures forall i :: 0 <= i < |s| ==> r[i] == AsciiLower(s[i])
  {
    if s == [] then [] else [AsciiLower(s[0])] + Lower(s[1..])
  }

  predicate OccursAt(s: string, pat: string, i: nat) {
    i + |pat| <= |s| && s[i..i + |pat|] == pat
  }

  /** The first index at which `pat` occurs in `s`, searching from `from` on. */
  function IndexOfFrom(s: string, pat: string, from: nat): (r: Option<nat>)
    requires from <= |s|
    ensures r.Some? ==> from <= r.value && OccursAt(s, pat, r.value)
    ensures r.Some? ==> forall j :: from <= j < r.value ==> !OccursAt(s, pat, j)
    ensures r.None? ==> forall j :: from <= j <= |s| ==> !OccursAt(s, pat, j)
    decreases |s| - from
  {
    if OccursAt(s, pat, from) then Some(from)
    else if from == |s| then None
    else IndexOfFrom(s, pat, from + 1)
  }

  /** JavaScript `s.indexOf(pat)`, with `None` for -1. */
  function IndexOf(s: string, pat: string): Option<nat> {
    IndexOfFrom(s, pat, 0)
  }

  /** JavaScript `s.includes(pat)`. */
  predicate Contains(s: string, pat: string) {
    IndexOf(s, pat).Some?
  }

  lemma ContainsIff(s: string, pat: string)
    ensures Contains(s, pat) <==> exists i :: 0 <= i <= |s| && OccursAt(s, pat, i)
  {
  }

  /** JavaScript `s.replace(pat, rep)` with a string pattern: only the first occurrence is replaced. */
  function ReplaceFirst(s: string, pat: string, rep: string): (r: string)
    ensures IndexOf(s, pat).None? ==> r == s
    ensures IndexOf(s, pat).Some? ==>
      var i := IndexOf(s, pat).value;
      r == s[..i] + rep + s[i + |pat|..] && |r| == |s| - |pat| + |rep|
  {
    match IndexOf(s, pat)
    case None => s
    case Some(i) => s[..i] + rep + s[i + |pat|..]
  }
}
