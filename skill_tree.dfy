/** The skill constellation of the frontend: a build's covered and missing skills merged into
    one list, each given a category (its own, or one guessed from its id), and grouped into
    branches in order of first appearance. */
module SkillTree {
  import opened Common
  import opened SkillMatch

  /** A skill as the tree shows it. `category == ""` stands for a missing or empty `category`
      key: both are falsy and are treated alike. */
  datatype TreeSkill = TreeSkill(jobSkillId: string, name: string, category: string, status: string)

  function FromCovered(c: CoveredSkill): TreeSkill {
    TreeSkill(c.jobSkillId, ReplaceFirst(c.jobSkillId, "skill_", ""), c.category, "covered")
  }

  /** Missing skills carry no category. */
  function FromMissing(m: MissingSkill): TreeSkill {
    TreeSkill(m.jobSkillId, m.name, "", "missing")
  }

  /** `allSkills`: the covered skills, renamed after their id without its first "skill_", then
      the missing skills. */
  function AllSkills(b: Build): (r: seq<TreeSkill>)
    ensures |r| == |b.coveredSkills| + |b.missingSkills|
    ensures forall i :: 0 <= i < |b.coveredSkills| ==>
      r[i].status == "covered" && r[i].jobSkillId == b.coveredSkills[i].jobSkillId &&
      r[i].category == b.coveredSkills[i].category &&
      r[i].name == ReplaceFirst(b.coveredSkills[i].jobSkillId, "skill_", "")
    ensures forall i :: 0 <= i < |b.missingSkills| ==>
      r[|b.coveredSkills| + i] == TreeSkill(b.missingSkills[i].jobSkillId, b.missingSkills[i].name, "", "missing")
  {
    seq(|b.coveredSkills|, i requires 0 <= i < |b.coveredSkills| => FromCovered(b.coveredSkills[i])) +
    seq(|b.missingSkills|, i requires 0 <= i < |b.missingSkills| => FromMissing(b.missingSkills[i]))
  }

  /** A covered skill's display name: its id with the first "skill_" cut out, and the id itself
      when it has none. */
  lemma DisplayNameDropsPrefix(id: string)
    ensures IndexOf(id, "skill_").None? ==> ReplaceFirst(id, "skill_", "") == id
    ensures |id| >= 6 && id[..6] == "skill_" ==> ReplaceFirst(id, "skill_", "") == id[6..]
  {
    if |id| >= 6 && id[..6] == "skill_" {
      assert OccursAt(id, "skill_", 0);
    }
  }

  // ---------------------------------------------------------------------------------------
  // Categories

  /** The fallback chain for a skill without a category, first match wins. */
  function GuessCategory(id: string): (r: string)
    ensures r == "Data" <==> Contains(id, "sql") || Contains(id, "viz")
    ensures r == "Code" <==> !(Contains(id, "sql") || Contains(id, "viz")) &&
                             (Contains(id, "python") || Contains(id, "react"))
    ensures r == "Social" <==> !(Contains(id, "sql") || Contains(id, "viz")) &&
                               !(Contains(id, "python") || Contains(id, "react")) &&
                               (Contains(id, "comm") || Contains(id, "lead"))
    ensures r == "Business" <==> !(Contains(id, "sql") || Contains(id, "viz")) &&
                                 !(Contains(id, "python") || Contains(id, "react")) &&
                                 !(Contains(id, "comm") || Contains(id, "lead")) &&
                                 Contains(id, "finance")
    ensures r in {"Data", "Code", "Social", "Business", "Other"}
  {
    if Contains(id, "sql") || Contains(id, "viz") then "Data"
    else if Contains(id, "python") || Contains(id, "react") then "Code"
    else if Contains(id, "comm") || Contains(id, "lead") then "Social"
    else if Contains(id, "finance") then "Business"
    else "Other"
  }

  /** The branch a skill goes to: an explicit category is never overridden. */
  function FinalCategory(s: TreeSkill): (r: string)
    ensures s.category != "" ==> r == s.category
    ensures s.category == "" ==> r == GuessCategory(s.jobSkillId)
  {
    if s.category != "" then s.category else GuessCategory(s.jobSkillId)
  }

  // ---------------------------------------------------------------------------------------
  // Grouping, as functions of the skill list

  /** The branch names in order of first appearance. */
  function CategoriesInOrder(skills: seq<TreeSkill>): seq<string> {
    if skills == [] then []
    else
      var before := CategoriesInOrder(skills[..|skills| - 1]);
      var c := FinalCategory(skills[|skills| - 1]);
      if c in before then before else before + [c]
  }

  /** The skills of branch `c`, in list order. */
  function GroupOf(skills: seq<TreeSkill>, c: string): seq<TreeSkill> {
    if skills == [] then []
    else
      var last := skills[|skills| - 1];
      GroupOf(skills[..|skills| - 1], c) + if FinalCategory(last) == c then [last] else []
  }

  predicate Distinct(keys: seq<string>) {
    forall i, j :: 0 <= i < j < |keys| ==> keys[i] != keys[j]
  }

  /** The branch names are distinct and are exactly the skills' final categories. */
  lemma {:induction false} CategoriesAreFinalCategories(skills: seq<TreeSkill>)
    ensures Distinct(CategoriesInOrder(skills))
    ensures forall c :: c in CategoriesInOrder(skills) <==> exists s :: s in skills && FinalCategory(s) == c
  {
    if skills != [] {
      var init := skills[..|skills| - 1];
      var last := skills[|skills| - 1];
      CategoriesAreFinalCategories(init);
      assert skills == init + [last];
      forall c ensures c in CategoriesInOrder(skills) <==> exists s :: s in skills && FinalCategory(s) == c {
        if exists s :: s in skills && FinalCategory(s) == c {
          var s :| s in skills && FinalCategory(s) == c;
          if s != last {
            assert s in init;
          }
        }
        if c in CategoriesInOrder(init) {
          var s :| s in init && FinalCategory(s) == c;
          assert s in skills;
        }
      }
    }
  }

  /** A branch holds exactly the skills of that category. */
  lemma {:induction false} GroupOfMembers(skills: seq<TreeSkill>, c: string)
    ensures forall s :: s in GroupOf(skills, c) <==> s in skills && FinalCategory(s) == c
  {
    if skills != [] {
      GroupOfMembers(skills[..|skills| - 1], c);
      assert skills == skills[..|skills| - 1] + [skills[|skills| - 1]];
    }
  }

  /** The total size of the branches named in `keys`. */
  function SizeSum(skills: seq<TreeSkill>, keys: seq<string>): nat {
    if keys == [] then 0 else SizeSum(skills, keys[..|keys| - 1]) + |GroupOf(skills, keys[|keys| - 1])|
  }

  lemma {:induction false} SizeSumGrows(skills: seq<TreeSkill>, x: TreeSkill, keys: seq<string>)
    requires Distinct(keys)
    ensures SizeSum(skills + [x], keys) == SizeSum(skills, keys) + if FinalCategory(x) in keys then 1 else 0
  {
    var sx := skills + [x];
    assert sx[..|sx| - 1] == skills;
    if keys != [] {
      var init := keys[..|keys| - 1];
      SizeSumGrows(skills, x, init);
    }
  }

  /** A category no skill has has an empty branch. */
  lemma {:induction false} GroupOfAbsent(skills: seq<TreeSkill>, c: string)
    requires c !in CategoriesInOrder(skills)
    ensures GroupOf(skills, c) == []
  {
    if skills != [] {
      GroupOfAbsent(skills[..|skills| - 1], c);
    }
  }

  /** Every skill lands in exactly one branch: the branch sizes add up to the number of skills. */
  lemma {:induction false} GroupsPartitionSkills(skills: seq<TreeSkill>)
    ensures SizeSum(skills, CategoriesInOrder(skills)) == |skills|
  {
    if skills != [] {
      var init := skills[..|skills| - 1];
      var last := skills[|skills| - 1];
      var keys := CategoriesInOrder(init);
      GroupsPartitionSkills(init);
      CategoriesAreFinalCategories(init);
      assert skills == init + [last];
      SizeSumGrows(init, last, keys);
      var c := FinalCategory(last);
      if c !in keys {
        GroupOfAbsent(init, c);
        assert GroupOf(skills, c) == [last];
        assert (keys + [c])[..|keys|] == keys;
      }
    }
  }

  // ---------------------------------------------------------------------------------------
  // Grouping, step by step

  /** One more skill: the branch names and the branches advance by that skill alone. */
  lemma GroupStep(skills: seq<TreeSkill>, i: nat)
    requires i < |skills|
    ensures var before, c := CategoriesInOrder(skills[..i]), FinalCategory(skills[i]);
      CategoriesInOrder(skills[..i + 1]) == if c in before then before else before + [c]
    ensures forall c :: (GroupOf(skills[..i + 1], c) ==
                         GroupOf(skills[..i], c) + (if FinalCategory(skills[i]) == c then [skills[i]] else []))
  {
    assert skills[..i + 1][..i] == skills[..i] && skills[..i + 1][i] == skills[i];
  }

  /** The head of the `forEach` body: `getCategory`, then the fallback chain when the skill has
      no category of its own. */
  method BranchOf(skill: TreeSkill) returns (finalCat: string)
    ensures finalCat == FinalCategory(skill)
  {
    var cat := if skill.category != "" then skill.category else "Other";
    finalCat := cat;
    if skill.category == "" {
      var id := skill.jobSkillId;
      if Contains(id, "sql") || Contains(id, "viz") {
        finalCat := "Data";
      } else if Contains(id, "python") || Contains(id, "react") {
        finalCat := "Code";
      } else if Contains(id, "comm") || Contains(id, "lead") {
        finalCat := "Social";
      } else if Contains(id, "finance") {
        finalCat := "Business";
      }
    }
  }

  /** The `forEach` that builds `grouped`: `keys` is the object's key order, `groups` its arrays. */
  method Group(skills: seq<TreeSkill>) returns (keys: seq<string>, groups: map<string, seq<TreeSkill>>)
    ensures keys == CategoriesInOrder(skills)
    ensures forall c :: c in groups <==> c in keys
    ensures forall c :: c in groups ==> groups[c] == GroupOf(skills, c)
  {
    keys := [];
    groups := map[];
    var i := 0;
    while i < |skills|
      invariant 0 <= i <= |skills|
      invariant keys == CategoriesInOrder(skills[..i])
      invariant forall c :: c in groups <==> c in keys
      invariant forall c :: c in groups ==> groups[c] == GroupOf(skills[..i], c)
    {
      var skill := skills[i];
      var finalCat := BranchOf(skill);
      if finalCat !in groups {
        GroupOfAbsent(skills[..i], finalCat);
        groups := groups[finalCat := []];
        keys := keys + [finalCat];
      }
      groups := groups[finalCat := groups[finalCat] + [skill]];
      GroupStep(skills, i);
      i := i + 1;
    }
    assert skills[..|skills|] == skills;
  }

  // ---------------------------------------------------------------------------------------
  // Branch styles

  datatype Style = Style(icon: string, color: string)

  /** The `categories` table. */
  const Styles: map<string, Style> := map[
    "Code" := Style("Zap", "#E20074"),
    "Data" := Style("Book", "#3B82F6"),
    "Social" := Style("Users", "#10B981"),
    "Business" := Style("Briefcase", "#F59E0B"),
    "Other" := Style("Zap", "#6B7280")]

  /** `categories[catName] || categories["Other"]` */
  function StyleOf(catName: string): (r: Style)
    ensures catName in Styles ==> r == Styles[catName]
    ensures catName !in Styles ==> r == Styles["Other"]
  {
    if catName in Styles then Styles[catName] else Styles["Other"]
  }

  /** A branch the table does not list, such as "Design", is drawn like "Other"; every branch a
      skill without its own category can land in is listed. */
  lemma UnlistedBranchLooksLikeOther(s: TreeSkill)
    ensures StyleOf("Design") == StyleOf("Other")
    ensures s.category == "" ==> FinalCategory(s) in Styles
  {
    assert "Design" !in Styles by {
      assert Styles.Keys == {"Code", "Data", "Social", "Business", "Other"};
    }
  }
}
