/** The recruiter-side avatar cache of the backend: the `AVATARS` dictionary from job id to the
    list of candidate avatars for that job, as `create_builds` rewrites it, as
    `get_avatar_detail` searches it, and the skill-tree nodes that endpoint answers with. */
module Avatars {
  import opened Common
  import opened SkillMatch

  /** The parts of a posted candidate profile that `create_builds` reads. */
  datatype CandidateProfile = CandidateProfile(candidateId: string, skills: seq<CandidateSkill>)

  datatype Avatar = Avatar(avatarId: string, candidateId: string, matchScore: real, gapCostHours: nat,
                           summary: string, primaryBranch: string, skillCoverage: SkillCoverage)

  /** The avatar `create_builds` stores for a candidate and a job. */
  function AvatarFor(avatarId: string, candidateId: string, job: Job, data: BuildData): Avatar {
    Avatar(avatarId, candidateId, data.build.matchScore, data.build.gapCostHours,
           "Match for " + job.title, "General", data.skillCoverage)
  }

  /** A job is processed unless a non-empty list of job ids leaves it out. */
  predicate Selected(jobIds: seq<string>, job: Job) {
    jobIds == [] || job.jobId in jobIds
  }

  // ---------------------------------------------------------------------------------------
  // One job's avatar list

  /** The avatars of candidates other than `cid`, in order (the list comprehension). */
  function Others(avs: seq<Avatar>, cid: string): seq<Avatar> {
    if avs == [] then []
    else
      var last := avs[|avs| - 1];
      Others(avs[..|avs| - 1], cid) + if last.candidateId != cid then [last] else []
  }

  /** How many avatars of `avs` belong to candidate `cid`. */
  function CountFor(avs: seq<Avatar>, cid: string): nat {
    if avs == [] then 0
    else CountFor(avs[..|avs| - 1], cid) + if avs[|avs| - 1].candidateId == cid then 1 else 0
  }

  /** Filtering keeps exactly the other candidates' avatars. */
  lemma {:induction false} OthersMembers(avs: seq<Avatar>, cid: string)
    ensures forall a :: a in Others(avs, cid) <==> a in avs && a.candidateId != cid
  {
    if avs != [] {
      var init := avs[..|avs| - 1];
      OthersMembers(init, cid);
      assert avs == init + [avs[|avs| - 1]];
    }
  }

  /** No avatar of `cid` survives the filter, and filtering twice changes nothing. */
  lemma {:induction false} OthersIdempotent(avs: seq<Avatar>, cid: string)
    ensures CountFor(Others(avs, cid), cid) == 0
    ensures Others(Others(avs, cid), cid) == Others(avs, cid)
  {
    if avs != [] {
      var init := avs[..|avs| - 1];
      var last := avs[|avs| - 1];
      OthersIdempotent(init, cid);
      var o := Others(init, cid);
      if last.candidateId != cid {
        assert Others(avs, cid) == o + [last];
        assert (o + [last])[..|o|] == o;
        assert CountFor(o + [last], cid) == CountFor(o, cid);
        assert Others(o + [last], cid) == Others(o, cid) + [last];
      } else {
        assert Others(avs, cid) == o + [];
        assert o + [] == o;
      }
    }
  }

  /** `AVATARS[job]` after one iteration: the candidate's old avatar is dropped and the new one appended. */
  function Replaced(avs: seq<Avatar>, av: Avatar): seq<Avatar> {
    Others(avs, av.candidateId) + [av]
  }

  /** The replaced list holds exactly one avatar of the candidate, the new one at the end, and the
      other candidates' avatars as before. */
  lemma ReplacedKeepsOthers(avs: seq<Avatar>, av: Avatar)
    ensures CountFor(Replaced(avs, av), av.candidateId) == 1
    ensures Replaced(avs, av)[|Replaced(avs, av)| - 1] == av
    ensures Others(Replaced(avs, av), av.candidateId) == Others(avs, av.candidateId)
  {
    var o := Others(avs, av.candidateId);
    OthersIdempotent(avs, av.candidateId);
    assert (o + [av])[..|o|] == o;
  }

  // ---------------------------------------------------------------------------------------
  // What create_builds does to the dictionary, as functions of its inputs

  function ListAt(m: map<string, seq<Avatar>>, k: string): seq<Avatar> {
    if k in m then m[k] else []
  }

  /** The dictionary after the loop of `create_builds` has run over `jobs`; `ids` are the fresh
      avatar ids, one per job. */
  function AvatarsAfter(m: map<string, seq<Avatar>>, cid: string, skills: seq<CandidateSkill>,
                        jobIds: seq<string>, jobs: seq<Job>, ids: seq<string>): map<string, seq<Avatar>>
    requires |ids| == |jobs|
  {
    if jobs == [] then m
    else
      var n := |jobs| - 1;
      var before := AvatarsAfter(m, cid, skills, jobIds, jobs[..n], ids[..n]);
      var job := jobs[n];
      if Selected(jobIds, job) then
        before[job.jobId := Replaced(ListAt(before, job.jobId), AvatarFor(ids[n], cid, job, BuildFor(skills, job)))]
      else before
  }

  /** The dictionary's key order after the loop: a job id is appended when it is first stored. */
  function KeysAfter(keys: seq<string>, jobIds: seq<string>, jobs: seq<Job>): seq<string> {
    if jobs == [] then keys
    else
      var n := |jobs| - 1;
      var before := KeysAfter(keys, jobIds, jobs[..n]);
      if Selected(jobIds, jobs[n]) && jobs[n].jobId !in before then before + [jobs[n].jobId] else before
  }

  /** The builds `create_builds` answers with, one per processed job, in job order. */
  function BuildsOf(skills: seq<CandidateSkill>, jobIds: seq<string>, jobs: seq<Job>): seq<Build> {
    if jobs == [] then []
    else
      var n := |jobs| - 1;
      BuildsOf(skills, jobIds, jobs[..n]) + if Selected(jobIds, jobs[n]) then [BuildFor(skills, jobs[n]).build] else []
  }

  /** One more job: the three functions advance by that job alone. */
  lemma AfterStep(m: map<string, seq<Avatar>>, keys: seq<string>, cid: string, skills: seq<CandidateSkill>,
                  jobIds: seq<string>, jobs: seq<Job>, ids: seq<string>, i: nat)
    requires |ids| == |jobs| && i < |jobs|
    ensures var before := AvatarsAfter(m, cid, skills, jobIds, jobs[..i], ids[..i]);
      AvatarsAfter(m, cid, skills, jobIds, jobs[..i + 1], ids[..i + 1]) ==
        if Selected(jobIds, jobs[i]) then
          before[jobs[i].jobId := Replaced(ListAt(before, jobs[i].jobId), AvatarFor(ids[i], cid, jobs[i], BuildFor(skills, jobs[i])))]
        else before
    ensures var before := KeysAfter(keys, jobIds, jobs[..i]);
      KeysAfter(keys, jobIds, jobs[..i + 1]) ==
        if Selected(jobIds, jobs[i]) && jobs[i].jobId !in before then before + [jobs[i].jobId] else before
    ensures BuildsOf(skills, jobIds, jobs[..i + 1]) ==
      BuildsOf(skills, jobIds, jobs[..i]) + if Selected(jobIds, jobs[i]) then [BuildFor(skills, jobs[i]).build] else []
  {
    assert jobs[..i + 1][..i] == jobs[..i];
    assert ids[..i + 1][..i] == ids[..i];
  }

  // ---------------------------------------------------------------------------------------
  // Properties of create_builds

  /** A build is answered for exactly the selected jobs; with no job ids, for every job. */
  lemma {:induction false} BuildsOfSelected(skills: seq<CandidateSkill>, jobIds: seq<string>, jobs: seq<Job>)
    ensures |BuildsOf(skills, jobIds, jobs)| <= |jobs|
    ensures jobIds == [] ==> |BuildsOf(skills, jobIds, jobs)| == |jobs|
    ensures forall j :: j in jobs && Selected(jobIds, j) ==> BuildFor(skills, j).build in BuildsOf(skills, jobIds, jobs)
    ensures forall b :: b in BuildsOf(skills, jobIds, jobs) ==>
      exists j :: j in jobs && Selected(jobIds, j) && b == BuildFor(skills, j).build
  {
    if jobs != [] {
      var n := |jobs| - 1;
      var init := jobs[..n];
      BuildsOfSelected(skills, jobIds, init);
      assert jobs == init + [jobs[n]];
      var bs := BuildsOf(skills, jobIds, init);
      assert bs <= BuildsOf(skills, jobIds, jobs);
      forall b | b in BuildsOf(skills, jobIds, jobs)
        ensures exists j :: j in jobs && Selected(jobIds, j) && b == BuildFor(skills, j).build
      {
        if b in bs {
          var j :| j in init && Selected(jobIds, j) && b == BuildFor(skills, j).build;
          assert j in jobs;
        } else {
          assert jobs[n] in jobs;
        }
      }
    }
  }

  /** After the loop, every selected job has an entry holding exactly one avatar of the candidate. */
  lemma {:induction false} OneAvatarPerJob(m: map<string, seq<Avatar>>, cid: string, skills: seq<CandidateSkill>,
                                           jobIds: seq<string>, jobs: seq<Job>, ids: seq<string>)
    requires |ids| == |jobs|
    ensures forall i :: 0 <= i < |jobs| && Selected(jobIds, jobs[i]) ==>
      jobs[i].jobId in AvatarsAfter(m, cid, skills, jobIds, jobs, ids) &&
      CountFor(AvatarsAfter(m, cid, skills, jobIds, jobs, ids)[jobs[i].jobId], cid) == 1
  {
    if jobs != [] {
      var n := |jobs| - 1;
      var after := AvatarsAfter(m, cid, skills, jobIds, jobs, ids);
      var before := AvatarsAfter(m, cid, skills, jobIds, jobs[..n], ids[..n]);
      OneAvatarPerJob(m, cid, skills, jobIds, jobs[..n], ids[..n]);
      var job := jobs[n];
      if Selected(jobIds, job) {
        ReplacedKeepsOthers(ListAt(before, job.jobId), AvatarFor(ids[n], cid, job, BuildFor(skills, job)));
      }
      forall i | 0 <= i < |jobs| && Selected(jobIds, jobs[i])
        ensures jobs[i].jobId in after && CountFor(after[jobs[i].jobId], cid) == 1
      {
        if i < n {
          assert jobs[i] == jobs[..n][i];
        }
      }
    }
  }

  /** The loop never removes a job's entry. */
  lemma {:induction false} KeysKept(m: map<string, seq<Avatar>>, cid: string, skills: seq<CandidateSkill>,
                                    jobIds: seq<string>, jobs: seq<Job>, ids: seq<string>)
    requires |ids| == |jobs|
    ensures forall k :: k in m ==> k in AvatarsAfter(m, cid, skills, jobIds, jobs, ids)
  {
    if jobs != [] {
      var n := |jobs| - 1;
      KeysKept(m, cid, skills, jobIds, jobs[..n], ids[..n]);
    }
  }

  /** The loop never disturbs another candidate's avatars: filtering out the candidate gives, for
      every job, the list it gave before, so the other avatars keep their order. */
  lemma {:induction false} OthersKept(m: map<string, seq<Avatar>>, cid: string, skills: seq<CandidateSkill>,
                                      jobIds: seq<string>, jobs: seq<Job>, ids: seq<string>)
    requires |ids| == |jobs|
    ensures forall k :: k in AvatarsAfter(m, cid, skills, jobIds, jobs, ids) ==>
      Others(AvatarsAfter(m, cid, skills, jobIds, jobs, ids)[k], cid) == Others(ListAt(m, k), cid)
  {
    if jobs != [] {
      var n := |jobs| - 1;
      var before := AvatarsAfter(m, cid, skills, jobIds, jobs[..n], ids[..n]);
      OthersKept(m, cid, skills, jobIds, jobs[..n], ids[..n]);
      var job := jobs[n];
      if Selected(jobIds, job) {
        var prev := ListAt(before, job.jobId);
        ReplacedKeepsOthers(prev, AvatarFor(ids[n], cid, job, BuildFor(skills, job)));
        if job.jobId in before {
          assert Others(prev, cid) == Others(ListAt(m, job.jobId), cid);
        } else {
          KeysKept(m, cid, skills, jobIds, jobs[..n], ids[..n]);
          assert job.jobId !in m;
        }
      }
    }
  }

  /** A job the loop does not process keeps its entry unchanged. */
  lemma {:induction false} UnselectedUnchanged(m: map<string, seq<Avatar>>, cid: string, skills: seq<CandidateSkill>,
                                               jobIds: seq<string>, jobs: seq<Job>, ids: seq<string>, k: string)
    requires |ids| == |jobs|
    requires k in m && forall j :: j in jobs && Selected(jobIds, j) ==> j.jobId != k
    ensures k in AvatarsAfter(m, cid, skills, jobIds, jobs, ids)
    ensures AvatarsAfter(m, cid, skills, jobIds, jobs, ids)[k] == m[k]
  {
    if jobs != [] {
      var n := |jobs| - 1;
      forall j | j in jobs[..n] && Selected(jobIds, j) ensures j.jobId != k {
        assert j in jobs;
      }
      UnselectedUnchanged(m, cid, skills, jobIds, jobs[..n], ids[..n], k);
      assert jobs[n] in jobs;
    }
  }

  // ---------------------------------------------------------------------------------------
  // The dictionary in iteration order, and the avatar search

  /** The avatars of one job, each tagged with the job id. */
  function Tagged(k: string, avs: seq<Avatar>): (r: seq<(string, Avatar)>)
    ensures |r| == |avs| && forall i :: 0 <= i < |avs| ==> r[i] == (k, avs[i])
  {
    seq(|avs|, i requires 0 <= i < |avs| => (k, avs[i]))
  }

  /** All (job id, avatar) pairs in the order `AVATARS.items()` and the inner loop visit them. */
  function Entries(keys: seq<string>, m: map<string, seq<Avatar>>): seq<(string, Avatar)>
    requires forall k :: k in keys ==> k in m
  {
    if keys == [] then [] else Tagged(keys[0], m[keys[0]]) + Entries(keys[1..], m)
  }

  /** The first pair whose avatar has the id. */
  function FirstWithId(es: seq<(string, Avatar)>, id: string): Option<(string, Avatar)> {
    if es == [] then None
    else if es[0].1.avatarId == id then Some(es[0])
    else FirstWithId(es[1..], id)
  }

  /** The search finds nothing exactly when no avatar has the id; otherwise it finds an avatar
      with the id that no earlier pair has. */
  lemma {:induction false} FirstWithIdIsFirst(es: seq<(string, Avatar)>, id: string)
    ensures FirstWithId(es, id).None? <==> forall i :: 0 <= i < |es| ==> es[i].1.avatarId != id
    ensures FirstWithId(es, id).Some? ==> (FirstWithId(es, id).value.1.avatarId == id &&
      exists i :: 0 <= i < |es| && es[i] == FirstWithId(es, id).value &&
                  forall j :: 0 <= j < i ==> es[j].1.avatarId != id)
  {
    if es != [] && es[0].1.avatarId != id {
      var tail := es[1..];
      FirstWithIdIsFirst(tail, id);
      forall i | 1 <= i < |es| ensures es[i] == tail[i - 1] { }
      var r := FirstWithId(es, id);
      if r.Some? {
        var i :| 0 <= i < |tail| && tail[i] == r.value && forall j :: 0 <= j < i ==> tail[j].1.avatarId != id;
        assert es[i + 1] == r.value;
        forall j | 0 <= j < i + 1 ensures es[j].1.avatarId != id {
          if j > 0 { assert es[j] == tail[j - 1]; }
        }
      }
    }
  }

  lemma TaggedCons(k: string, avs: seq<Avatar>, i: nat, rest: seq<(string, Avatar)>)
    requires i < |avs|
    ensures Tagged(k, avs[i..]) + rest == [(k, avs[i])] + (Tagged(k, avs[i + 1..]) + rest)
  {
    assert Tagged(k, avs[i..]) == [(k, avs[i])] + Tagged(k, avs[i + 1..]);
  }

  lemma TaggedEnd(k: string, avs: seq<Avatar>, rest: seq<(string, Avatar)>)
    ensures Tagged(k, avs[|avs|..]) + rest == rest
  {
    assert Tagged(k, avs[|avs|..]) == [];
  }

  lemma EntriesCons(keys: seq<string>, m: map<string, seq<Avatar>>, i: nat)
    requires forall k :: k in keys ==> k in m
    requires i < |keys|
    ensures Entries(keys[i..], m) == Tagged(keys[i], m[keys[i]]) + Entries(keys[i + 1..], m)
  {
    assert keys[i..][1..] == keys[i + 1..];
  }

  lemma FirstWithIdCons(e: (string, Avatar), rest: seq<(string, Avatar)>, id: string)
    ensures FirstWithId([e] + rest, id) == if e.1.avatarId == id then Some(e) else FirstWithId(rest, id)
  {
    assert ([e] + rest)[1..] == rest;
  }

  // ---------------------------------------------------------------------------------------
  // get_avatar_detail's tree

  datatype TreeNode = TreeNode(id: string, name: string, kind: string, status: string,
                               importance: string, evidence: seq<string>)

  function CoveredNode(c: CoveredSkill): TreeNode {
    TreeNode(c.jobSkillId, c.name, "technical", "covered", "high", [c.explanation])
  }

  function MissingNode(m: MissingSkill): TreeNode {
    TreeNode(m.jobSkillId, m.name, "technical", "missing", m.importance, [])
  }

  /** The node list: one node per covered skill, then one per missing skill, each in order. */
  method TreeNodes(covered: seq<CoveredSkill>, missing: seq<MissingSkill>) returns (nodes: seq<TreeNode>)
    ensures |nodes| == |covered| + |missing|
    ensures forall i :: 0 <= i < |covered| ==> nodes[i] == CoveredNode(covered[i])
    ensures forall i :: 0 <= i < |missing| ==> nodes[|covered| + i] == MissingNode(missing[i])
  {
    nodes := [];
    var i := 0;
    while i < |covered|
      invariant 0 <= i <= |covered| && |nodes| == i
      invariant forall j :: 0 <= j < i ==> nodes[j] == CoveredNode(covered[j])
    {
      nodes := nodes + [CoveredNode(covered[i])];
      i := i + 1;
    }
    var k := 0;
    while k < |missing|
      invariant 0 <= k <= |missing| && |nodes| == |covered| + k
      invariant forall j :: 0 <= j < |covered| ==> nodes[j] == CoveredNode(covered[j])
      invariant forall j :: 0 <= j < k ==> nodes[|covered| + j] == MissingNode(missing[j])
    {
      nodes := nodes + [MissingNode(missing[k])];
      k := k + 1;
    }
  }

  /** The body of a successful `get_avatar_detail` answer. */
  datatype AvatarDetail = AvatarDetail(avatarId: string, jobId: string, nodes: seq<TreeNode>, quests: seq<Quest>)

  // ---------------------------------------------------------------------------------------
  // The AVATARS dictionary

  class AvatarStore {
    /** The dictionary's keys in insertion order, the order `AVATARS.items()` visits them. */
    var jobKeys: seq<string>
    var avatars: map<string, seq<Avatar>>

    ghost predicate Valid()
      reads this
    {
      (forall k :: k in avatars <==> k in jobKeys) &&
      (forall i, j :: 0 <= i < j < |jobKeys| ==> jobKeys[i] != jobKeys[j])
    }

    /** `AVATARS = {}` */
    constructor()
      ensures Valid() && jobKeys == [] && avatars == map[]
    {
      jobKeys := [];
      avatars := map[];
    }

    /** `create_builds`: rejects a missing profile; otherwise computes a build for every selected
        job and replaces the candidate's avatar in that job's list. `allJobs` is the job table in
        query order, `freshIds[i]` the new avatar id drawn for `allJobs[i]`. */
    method CreateBuilds(profile: Option<CandidateProfile>, jobIds: seq<string>, allJobs: seq<Job>,
                        freshIds: seq<string>) returns (r: Result<seq<Build>>)
      requires Valid() && |freshIds| == |allJobs|
      modifies this
      ensures Valid()
      ensures profile.None? ==>
        r == Err("Missing candidate profile") && avatars == old(avatars) && jobKeys == old(jobKeys)
      ensures profile.Some? ==>
        r == Ok(BuildsOf(profile.value.skills, jobIds, allJobs)) &&
        avatars == AvatarsAfter(old(avatars), profile.value.candidateId, profile.value.skills, jobIds, allJobs, freshIds) &&
        jobKeys == KeysAfter(old(jobKeys), jobIds, allJobs)
    {
      if profile.None? {
        return Err("Missing candidate profile");
      }
      var cid := profile.value.candidateId;
      var skills := profile.value.skills;
      var builds: seq<Build> := [];
      var i := 0;
      while i < |allJobs|
        invariant 0 <= i <= |allJobs|
        invariant Valid()
        invariant builds == BuildsOf(skills, jobIds, allJobs[..i])
        invariant avatars == AvatarsAfter(old(avatars), cid, skills, jobIds, allJobs[..i], freshIds[..i])
        invariant jobKeys == KeysAfter(old(jobKeys), jobIds, allJobs[..i])
      {
        var job := allJobs[i];
        AfterStep(old(avatars), old(jobKeys), cid, skills, jobIds, allJobs, freshIds, i);
        if jobIds != [] && job.jobId !in jobIds {
          i := i + 1;
          continue;
        }
        var data := CalculateBuild(skills, job);
        builds := builds + [data.build];
        var avatar := AvatarFor(freshIds[i], cid, job, data);
        Put(job.jobId, avatar);
        i := i + 1;
      }
      assert allJobs[..|allJobs|] == allJobs;
      assert freshIds[..|freshIds|] == freshIds;
      r := Ok(builds);
    }

    /** The search loop of `get_avatar_detail`: jobs in dictionary order, each job's avatars in
        list order, stopping at the first avatar with the id. */
    method FindAvatar(avatarId: string) returns (r: Option<(string, Avatar)>)
      requires Valid()
      ensures r == FirstWithId(Entries(jobKeys, avatars), avatarId)
    {
      ghost var all := Entries(jobKeys, avatars);
      var ki := 0;
      while ki < |jobKeys|
        invariant 0 <= ki <= |jobKeys|
        invariant FirstWithId(all, avatarId) == FirstWithId(Entries(jobKeys[ki..], avatars), avatarId)
      {
        var jobId := jobKeys[ki];
        var avs := avatars[jobId];
        ghost var rest := Entries(jobKeys[ki + 1..], avatars);
        EntriesCons(jobKeys, avatars, ki);
        assert avs[0..] == avs;
        var ai := 0;
        while ai < |avs|
          invariant 0 <= ai <= |avs|
          invariant FirstWithId(all, avatarId) == FirstWithId(Tagged(jobId, avs[ai..]) + rest, avatarId)
        {
          TaggedCons(jobId, avs, ai, rest);
          FirstWithIdCons((jobId, avs[ai]), Tagged(jobId, avs[ai + 1..]) + rest, avatarId);
          if avs[ai].avatarId == avatarId {
            return Some((jobId, avs[ai]));
          }
          ai := ai + 1;
        }
        TaggedEnd(jobId, avs, rest);
        ki := ki + 1;
      }
      return None;
    }

    /** One iteration's update of `AVATARS[job]`: create the entry if absent, drop the
        candidate's avatar from it, append the new avatar. */
    method Put(jobId: string, av: Avatar)
      requires Valid()
      modifies this
      ensures Valid()
      ensures avatars == old(avatars)[jobId := Replaced(ListAt(old(avatars), jobId), av)]
      ensures jobKeys == if jobId in old(jobKeys) then old(jobKeys) else old(jobKeys) + [jobId]
    {
      if jobId !in avatars {
        avatars := avatars[jobId := []];
        jobKeys := jobKeys + [jobId];
      }
      avatars := avatars[jobId := Others(avatars[jobId], av.candidateId)];
      avatars := avatars[jobId := avatars[jobId] + [av]];
    }

    /** `get_avatar_detail`: the avatar found by `FindAvatar`, its candidate's profile and its job
        (the two tables are given as maps by id), and the tree and quests of the recomputed build. */
    method GetAvatarDetail(avatarId: string, profiles: map<string, seq<CandidateSkill>>, jobs: map<string, Job>)
      returns (r: Result<AvatarDetail>)
      requires Valid()
      ensures var found := FirstWithId(Entries(jobKeys, avatars), avatarId);
        (found.None? <==> r == Err("Avatar not found")) &&
        (found.Some? && found.value.1.candidateId !in profiles <==> r == Err("Candidate profile not found")) &&
        (found.Some? && found.value.1.candidateId in profiles && found.value.0 !in jobs <==> r == Err("Job not found")) &&
        (r.Ok? <==> found.Some? && found.value.1.candidateId in profiles && found.value.0 in jobs) &&
        (r.Ok? ==>
           var data := BuildFor(profiles[found.value.1.candidateId], jobs[found.value.0]);
           var covered, missing := data.build.coveredSkills, data.build.missingSkills;
           r.value.avatarId == avatarId && r.value.jobId == found.value.0 &&
           r.value.quests == data.build.quests &&
           |r.value.nodes| == |covered| + |missing| &&
           (forall i :: 0 <= i < |covered| ==> r.value.nodes[i] == CoveredNode(covered[i])) &&
           (forall i :: 0 <= i < |missing| ==> r.value.nodes[|covered| + i] == MissingNode(missing[i])))
    {
      var found := FindAvatar(avatarId);
      if found.None? {
        return Err("Avatar not found");
      }
      var (jobId, avatar) := found.value;
      if avatar.candidateId !in profiles {
        return Err("Candidate profile not found");
      }
      if jobId !in jobs {
        return Err("Job not found");
      }
      var data := CalculateBuild(profiles[avatar.candidateId], jobs[jobId]);
      var nodes := TreeNodes(data.build.coveredSkills, data.build.missingSkills);
      r := Ok(AvatarDetail(avatarId, jobId, nodes, data.build.quests));
    }
  }
}
