/** The backend's skill matching (`calculate_build`) and the input rules of user registration.

    A candidate profile's skills are matched against a job's required skills: by skill id first,
    then by lower-cased name. Matched requirements become covered skills, the others missing
    skills, each missing skill a learning quest. */
module SkillMatch {
  import opened Common

  /** A skill extracted from a CV. `level` and `category` are optional keys of the source's dict. */
  datatype CandidateSkill = CandidateSkill(id: string, name: string, level: Option<string>, category: Option<string>)

  /** A row of `job.skills_required`. */
  datatype JobSkill = JobSkill(skillId: string, name: string, importance: string)

  datatype Job = Job(jobId: string, title: string, skillsRequired: seq<JobSkill>)

  datatype CoveredSkill = CoveredSkill(jobSkillId: string, name: string, sourceSkillIds: seq<string>,
                                       explanation: string, category: string)

  datatype MissingSkill = MissingSkill(jobSkillId: string, name: string, importance: string)

  datatype Quest = Quest(id: string, title: string, description: string, estimatedHours: nat)

  datatype SkillCoverage = SkillCoverage(criticalCovered: nat, criticalTotal: nat,
                                         overallCovered: nat, overallTotal: nat)

  /** The build record the API returns for one job (without `skillCoverage`). */
  datatype Build = Build(jobId: string, jobTitle: string, matchScore: real, gapCostHours: nat,
                         coveredSkills: seq<CoveredSkill>, missingSkills: seq<MissingSkill>,
                         quests: seq<Quest>)

  /** Everything `calculate_build` returns: the build and its coverage statistics. */
  datatype BuildData = BuildData(build: Build, skillCoverage: SkillCoverage)

  // ---------------------------------------------------------------------------------------
  // The two lookup dictionaries

  function IdOf(s: CandidateSkill): string { s.id }

  function LowerNameOf(s: CandidateSkill): string { Lower(s.name) }

  /** The dict comprehension `{key(s): s for s in skills}`: later skills overwrite earlier ones. */
  function IndexBy(skills: seq<CandidateSkill>, key: CandidateSkill -> string): map<string, CandidateSkill> {
    if skills == [] then map[]
    else
      var last := skills[|skills| - 1];
      IndexBy(skills[..|skills| - 1], key)[key(last) := last]
  }

  /** The dict's keys are exactly the keys of the skills, and a key maps to the LAST skill
      having it. */
  lemma {:induction false} IndexByLastWins(skills: seq<CandidateSkill>, key: CandidateSkill -> string, k: string)
    ensures k in IndexBy(skills, key) <==> exists i :: 0 <= i < |skills| && key(skills[i]) == k
    ensures k in IndexBy(skills, key) ==>
      exists i :: 0 <= i < |skills| && IndexBy(skills, key)[k] == skills[i] && key(skills[i]) == k &&
                  forall j :: i < j < |skills| ==> key(skills[j]) != k
  {
    var n := |skills|;
    if n == 0 {
    } else if key(skills[n - 1]) == k {
      assert IndexBy(skills, key)[k] == skills[n - 1];
    } else {
      var init := skills[..n - 1];
      IndexByLastWins(init, key, k);
      assert IndexBy(skills, key) == IndexBy(init, key)[key(skills[n - 1]) := skills[n - 1]];
      if k in IndexBy(init, key) {
        var i :| 0 <= i < |init| && IndexBy(init, key)[k] == init[i] && key(init[i]) == k &&
                 forall j :: i < j < |init| ==> key(init[j]) != k;
        assert skills[i] == init[i];
        forall j | i < j < n ensures key(skills[j]) != k {
          if j < n - 1 { assert skills[j] == init[j]; }
        }
      } else {
        forall i | 0 <= i < n ensures key(skills[i]) != k {
          if i < n - 1 { assert skills[i] == init[i]; }
        }
      }
    }
  }

  /** The candidate skill a requirement is matched with: looked up by id first, then by
      lower-cased name. */
  function MatchFor(skills: seq<CandidateSkill>, req: JobSkill): Option<CandidateSkill> {
    var byId := IndexBy(skills, IdOf);
    var byName := IndexBy(skills, LowerNameOf);
    if req.skillId in byId then Some(byId[req.skillId])
    else if Lower(req.name) in byName then Some(byName[Lower(req.name)])
    else None
  }

  /** Matching by id wins over matching by name, the last candidate skill with the id (or
      otherwise the name) is the one taken, and only a requirement neither matches is unmatched. */
  lemma MatchPriority(skills: seq<CandidateSkill>, req: JobSkill)
    ensures var r := MatchFor(skills, req);
      (r.Some? ==> r.value in skills) &&
      ((exists i :: 0 <= i < |skills| && skills[i].id == req.skillId) ==>
         r.Some? && r.value.id == req.skillId &&
         exists i :: 0 <= i < |skills| && r.value == skills[i] &&
                     forall j :: i < j < |skills| ==> skills[j].id != req.skillId) &&
      (r.Some? && r.value.id != req.skillId ==> Lower(r.value.name) == Lower(req.name)) &&
      (r.None? <==> forall i :: 0 <= i < |skills| ==>
                      skills[i].id != req.skillId && Lower(skills[i].name) != Lower(req.name))
  {
    IndexByLastWins(skills, IdOf, req.skillId);
    IndexByLastWins(skills, LowerNameOf, Lower(req.name));
  }

  // ---------------------------------------------------------------------------------------
  // What calculate_build computes, as functions of the inputs

  predicate IsCritical(importance: string) { importance == "critical" }

  function LevelText(s: CandidateSkill): string {
    match s.level
    case Some(l) => l
    case None => "N/A"
  }

  function CoveredEntry(req: JobSkill, m: CandidateSkill): CoveredSkill {
    CoveredSkill(req.skillId, req.name, [m.id],
                 "Matched " + req.name + " (Level: " + LevelText(m) + ")",
                 match m.category case Some(c) => c case None => "Other")
  }

  function MissingEntry(req: JobSkill): MissingSkill {
    MissingSkill(req.skillId, req.name, req.importance)
  }

  /** The covered list: one entry per matched requirement, in job order. */
  function CoveredOf(skills: seq<CandidateSkill>, reqs: seq<JobSkill>): seq<CoveredSkill> {
    if reqs == [] then []
    else
      var req := reqs[|reqs| - 1];
      var m := MatchFor(skills, req);
      CoveredOf(skills, reqs[..|reqs| - 1]) + if m.Some? then [CoveredEntry(req, m.value)] else []
  }

  /** The missing list: one entry per unmatched requirement, in job order. */
  function MissingOf(skills: seq<CandidateSkill>, reqs: seq<JobSkill>): seq<MissingSkill> {
    if reqs == [] then []
    else
      var req := reqs[|reqs| - 1];
      MissingOf(skills, reqs[..|reqs| - 1]) +
        if MatchFor(skills, req).None? then [MissingEntry(req)] else []
  }

  function CriticalCount(reqs: seq<JobSkill>): nat {
    if reqs == [] then 0
    else CriticalCount(reqs[..|reqs| - 1]) + if IsCritical(reqs[|reqs| - 1].importance) then 1 else 0
  }

  function CoveredCriticalCount(skills: seq<CandidateSkill>, reqs: seq<JobSkill>): nat {
    if reqs == [] then 0
    else
      var req := reqs[|reqs| - 1];
      CoveredCriticalCount(skills, reqs[..|reqs| - 1]) +
        if IsCritical(req.importance) && MatchFor(skills, req).Some? then 1 else 0
  }

  function QuestHours(m: MissingSkill): nat {
    if IsCritical(m.importance) then 10 else 5
  }

  function QuestFor(m: MissingSkill): Quest {
    Quest("quest_" + m.jobSkillId, "Learn " + m.name,
          "Complete a course or project to demonstrate " + m.name + ".", QuestHours(m))
  }

  function QuestsOf(missing: seq<MissingSkill>): seq<Quest> {
    if missing == [] then []
    else QuestsOf(missing[..|missing| - 1]) + [QuestFor(missing[|missing| - 1])]
  }

  function GapCost(missing: seq<MissingSkill>): nat {
    if missing == [] then 0
    else GapCost(missing[..|missing| - 1]) + QuestHours(missing[|missing| - 1])
  }

  function TotalHours(quests: seq<Quest>): nat {
    if quests == [] then 0
    else TotalHours(quests[..|quests| - 1]) + quests[|quests| - 1].estimatedHours
  }

  /** `match_count / total_skills if total_skills > 0 else 0` (before `round(_, 2)`). */
  function MatchScore(matchCount: nat, totalSkills: nat): real {
    if totalSkills > 0 then matchCount as real / totalSkills as real else 0.0
  }

  /** What `calculate_build(candidate_profile, job)` returns. */
  function BuildFor(skills: seq<CandidateSkill>, job: Job): BuildData {
    var reqs := job.skillsRequired;
    var covered := CoveredOf(skills, reqs);
    var missing := MissingOf(skills, reqs);
    BuildData(
      Build(job.jobId, job.title, MatchScore(|covered|, |reqs|), GapCost(missing), covered, missing, QuestsOf(missing)),
      SkillCoverage(CoveredCriticalCount(skills, reqs), CriticalCount(reqs), |covered|, |reqs|))
  }

  // ---------------------------------------------------------------------------------------
  // Properties

  /** Every requirement lands in exactly one of the two lists, so the lengths add up. */
  lemma {:induction false} PartitionLength(skills: seq<CandidateSkill>, reqs: seq<JobSkill>)
    ensures |CoveredOf(skills, reqs)| + |MissingOf(skills, reqs)| == |reqs|
  {
    if reqs != [] {
      PartitionLength(skills, reqs[..|reqs| - 1]);
    }
  }

  /** Each matched requirement has its covered entry, each unmatched one its missing entry. */
  lemma {:induction false} Partition(skills: seq<CandidateSkill>, reqs: seq<JobSkill>)
    ensures forall i :: 0 <= i < |reqs| && MatchFor(skills, reqs[i]).Some? ==>
      CoveredEntry(reqs[i], MatchFor(skills, reqs[i]).value) in CoveredOf(skills, reqs)
    ensures forall i :: 0 <= i < |reqs| && MatchFor(skills, reqs[i]).None? ==>
      MissingEntry(reqs[i]) in MissingOf(skills, reqs)
  {
    if reqs != [] {
      var n := |reqs|;
      var init := reqs[..n - 1];
      Partition(skills, init);
      var c, m := CoveredOf(skills, init), MissingOf(skills, init);
      assert c <= CoveredOf(skills, reqs);
      assert m <= MissingOf(skills, reqs);
      forall i | 0 <= i < n
        ensures MatchFor(skills, reqs[i]).Some? ==>
          CoveredEntry(reqs[i], MatchFor(skills, reqs[i]).value) in CoveredOf(skills, reqs)
        ensures MatchFor(skills, reqs[i]).None? ==> MissingEntry(reqs[i]) in MissingOf(skills, reqs)
      {
        if i < n - 1 {
          assert reqs[i] == init[i];
        }
      }
    }
  }

  /** The critical counters: the covered ones are at most all critical ones and at most all
      covered ones; all critical ones are at most all requirements. */
  lemma {:induction false} CriticalBounds(skills: seq<CandidateSkill>, reqs: seq<JobSkill>)
    ensures CoveredCriticalCount(skills, reqs) <= CriticalCount(reqs) <= |reqs|
    ensures CoveredCriticalCount(skills, reqs) <= |CoveredOf(skills, reqs)|
  {
    if reqs != [] {
      CriticalBounds(skills, reqs[..|reqs| - 1]);
    }
  }

  lemma FractionAtMostOne(c: nat, n: nat)
    requires 0 < n && c <= n
    ensures 0.0 <= c as real / n as real <= 1.0
  {
    assert c as real / n as real * n as real == c as real;
  }

  /** The score is a fraction in [0, 1], and 0 for a job without requirements. */
  lemma MatchScoreInUnitInterval(skills: seq<CandidateSkill>, job: Job)
    ensures 0.0 <= BuildFor(skills, job).build.matchScore <= 1.0
    ensures job.skillsRequired == [] ==> BuildFor(skills, job).build.matchScore == 0.0
    ensures BuildFor(skills, job).skillCoverage.overallTotal ==
            |BuildFor(skills, job).build.coveredSkills| + |BuildFor(skills, job).build.missingSkills|
  {
    var reqs := job.skillsRequired;
    PartitionLength(skills, reqs);
    var c := |CoveredOf(skills, reqs)|;
    var n := |reqs|;
    assert BuildFor(skills, job).build.matchScore == MatchScore(c, n);
    if n > 0 {
      FractionAtMostOne(c, n);
    }
  }

  /** One quest per missing skill, in order, each named after its skill. */
  lemma {:induction false} QuestsFollowMissing(missing: seq<MissingSkill>)
    ensures |QuestsOf(missing)| == |missing|
    ensures forall i :: 0 <= i < |missing| ==>
      QuestsOf(missing)[i] == QuestFor(missing[i]) && QuestsOf(missing)[i].id == "quest_" + missing[i].jobSkillId
  {
    if missing != [] {
      QuestsFollowMissing(missing[..|missing| - 1]);
    }
  }

  /** The gap cost is the sum of the quests' hours, between 5 and 10 hours per missing skill. */
  lemma {:induction false} GapCostIsQuestHours(missing: seq<MissingSkill>)
    ensures GapCost(missing) == TotalHours(QuestsOf(missing))
    ensures 5 * |missing| <= GapCost(missing) <= 10 * |missing|
  {
    if missing != [] {
      var init := missing[..|missing| - 1];
      GapCostIsQuestHours(init);
      assert QuestsOf(missing)[..|QuestsOf(missing)| - 1] == QuestsOf(init);
    }
  }

  // ---------------------------------------------------------------------------------------
  // calculate_build, step by step

  /** One more requirement: the lists and counters advance by that requirement alone. */
  lemma RequirementStep(skills: seq<CandidateSkill>, reqs: seq<JobSkill>, i: nat)
    requires i < |reqs|
    ensures var pre, req := reqs[..i], reqs[i];
      CoveredOf(skills, reqs[..i + 1]) == CoveredOf(skills, pre) +
        (if MatchFor(skills, req).Some? then [CoveredEntry(req, MatchFor(skills, req).value)] else []) &&
      MissingOf(skills, reqs[..i + 1]) == MissingOf(skills, pre) +
        (if MatchFor(skills, req).None? then [MissingEntry(req)] else []) &&
      CriticalCount(reqs[..i + 1]) == CriticalCount(pre) + (if IsCritical(req.importance) then 1 else 0) &&
      CoveredCriticalCount(skills, reqs[..i + 1]) == CoveredCriticalCount(skills, pre) +
        (if IsCritical(req.importance) && MatchFor(skills, req).Some? then 1 else 0)
  {
    assert reqs[..i + 1][..i] == reqs[..i] && reqs[..i + 1][i] == reqs[i];
  }

  /** One more missing skill: one more quest and its hours. */
  lemma QuestStep(missing: seq<MissingSkill>, j: nat)
    requires j < |missing|
    ensures QuestsOf(missing[..j + 1]) == QuestsOf(missing[..j]) + [QuestFor(missing[j])]
    ensures GapCost(missing[..j + 1]) == GapCost(missing[..j]) + QuestHours(missing[j])
  {
    assert missing[..j + 1][..j] == missing[..j] && missing[..j + 1][j] == missing[j];
  }

  /** The first loop of `calculate_build`: per requirement, bump the critical counter, look the
      skill up, and append to the covered or the missing list, bumping the match counters. */
  method PartitionRequirements(skills: seq<CandidateSkill>, reqs: seq<JobSkill>)
    returns (covered: seq<CoveredSkill>, missing: seq<MissingSkill>, matchCount: nat, totalCritical: nat, coveredCritical: nat)
    ensures covered == CoveredOf(skills, reqs) && missing == MissingOf(skills, reqs)
    ensures matchCount == |covered|
    ensures totalCritical == CriticalCount(reqs) && coveredCritical == CoveredCriticalCount(skills, reqs)
  {
    covered, missing := [], [];
    matchCount, totalCritical, coveredCritical := 0, 0, 0;
    var i := 0;
    while i < |reqs|
      invariant 0 <= i <= |reqs|
      invariant covered == CoveredOf(skills, reqs[..i])
      invariant missing == MissingOf(skills, reqs[..i])
      invariant matchCount == |covered|
      invariant totalCritical == CriticalCount(reqs[..i])
      invariant coveredCritical == CoveredCriticalCount(skills, reqs[..i])
    {
      var req := reqs[i];
      var isCritical := IsCritical(req.importance);
      if isCritical {
        totalCritical := totalCritical + 1;
      }
      var matched := MatchFor(skills, req);
      if matched.Some? {
        matchCount := matchCount + 1;
        if isCritical {
          coveredCritical := coveredCritical + 1;
        }
        covered := covered + [CoveredEntry(req, matched.value)];
      } else {
        missing := missing + [MissingEntry(req)];
      }
      RequirementStep(skills, reqs, i);
      i := i + 1;
    }
    assert reqs[..|reqs|] == reqs;
  }

  /** The second loop of `calculate_build`: one quest per missing skill, summing the hours. */
  method PlanQuests(missing: seq<MissingSkill>) returns (quests: seq<Quest>, gapCost: nat)
    ensures quests == QuestsOf(missing) && gapCost == GapCost(missing)
  {
    quests, gapCost := [], 0;
    var j := 0;
    while j < |missing|
      invariant 0 <= j <= |missing|
      invariant quests == QuestsOf(missing[..j])
      invariant gapCost == GapCost(missing[..j])
    {
      var hours := if IsCritical(missing[j].importance) then 10 else 5;
      gapCost := gapCost + hours;
      quests := quests + [QuestFor(missing[j])];
      QuestStep(missing, j);
      j := j + 1;
    }
    assert missing[..|missing|] == missing;
  }

  /** `calculate_build`: the two loops, the score, and the record it returns. */
  method CalculateBuild(skills: seq<CandidateSkill>, job: Job) returns (result: BuildData)
    ensures result == BuildFor(skills, job)
  {
    var reqs := job.skillsRequired;
    var covered, missing, matchCount, totalCritical, coveredCritical := PartitionRequirements(skills, reqs);
    var totalSkills := |reqs|;
    var matchScore := if totalSkills > 0 then matchCount as real / totalSkills as real else 0.0;
    var quests, gapCost := PlanQuests(missing);
    result := BuildData(
      Build(job.jobId, job.title, matchScore, gapCost, covered, missing, quests),
      SkillCoverage(coveredCritical, totalCritical, matchCount, totalSkills));
  }

  // ---------------------------------------------------------------------------------------
  // register

  /** The user record `register` creates (before hashing the password). */
  datatype NewUser = NewUser(name: string, email: string, password: string)

  /** The checks of `register`: name and email are stripped, the email lower-cased; all three
      fields must be non-empty, the password at least 6 characters, the email not yet taken.
      A field absent from the request arrives as "". `existingEmails` stands for the user table. */
  function Register(rawName: string, rawEmail: string, password: string, existingEmails: set<string>): (r: Result<NewUser>)
    ensures r.Ok? ==> r.value == NewUser(PyStrip(rawName), Lower(PyStrip(rawEmail)), password)
    ensures r.Ok? <==> !AllSpace(rawName, PyIsSpace) && !AllSpace(rawEmail, PyIsSpace) &&
                       |password| >= 6 && Lower(PyStrip(rawEmail)) !in existingEmails
    ensures r == Err("All fields are required") <==>
              AllSpace(rawName, PyIsSpace) || AllSpace(rawEmail, PyIsSpace) || password == ""
    ensures r == Err("Password must be at least 6 characters") <==>
              !AllSpace(rawName, PyIsSpace) && !AllSpace(rawEmail, PyIsSpace) && 0 < |password| < 6
    ensures r == Err("User already exists with this email") <==>
              !AllSpace(rawName, PyIsSpace) && !AllSpace(rawEmail, PyIsSpace) &&
              |password| >= 6 && Lower(PyStrip(rawEmail)) in existingEmails
  {
    var name := PyStrip(rawName);
    var email := Lower(PyStrip(rawEmail));
    TrimEmptyIff(rawName, PyIsSpace);
    TrimEmptyIff(rawEmail, PyIsSpace);
    if name == "" || email == "" || password == "" then Err("All fields are required")
    else if |password| < 6 then Err("Password must be at least 6 characters")
    else if email in existingEmails then Err("User already exists with this email")
    else Ok(NewUser(name, email, password))
  }
}
