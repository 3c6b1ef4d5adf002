/** The candidate page of the frontend: the builds answered by the backend, sorted by match
    score, the default selection, the match filters, the placeholder cards shown before a CV was
    parsed, the "Strong Fits" counter and which card is highlighted. */
module CandidateView {
  import opened Common
  import opened SkillMatch

  // ---------------------------------------------------------------------------------------
  // Sorting: `builds.sort((a, b) => b.matchScore - a.matchScore)`

  /** Non-increasing match scores. */
  predicate SortedDesc(bs: seq<Build>) {
    forall i, j :: 0 <= i < j < |bs| ==> bs[i].matchScore >= bs[j].matchScore
  }

  /** Places `b` after every build scoring at least as much (so equal scores keep their order). */
  function Insert(sorted: seq<Build>, b: Build): seq<Build> {
    if sorted == [] then [b]
    else if sorted[0].matchScore >= b.matchScore then [sorted[0]] + Insert(sorted[1..], b)
    else [b] + sorted
  }

  /** The sorted builds: the comparator's order, ties in response order (`Array.prototype.sort`
      is stable). */
  function SortByScore(bs: seq<Build>): seq<Build> {
    if bs == [] then [] else Insert(SortByScore(bs[..|bs| - 1]), bs[|bs| - 1])
  }

  lemma {:induction false} InsertPermutes(sorted: seq<Build>, b: Build)
    ensures multiset(Insert(sorted, b)) == multiset(sorted) + multiset{b}
    ensures |Insert(sorted, b)| == |sorted| + 1
  {
    if sorted != [] && sorted[0].matchScore >= b.matchScore {
      InsertPermutes(sorted[1..], b);
      assert sorted == [sorted[0]] + sorted[1..];
    }
  }

  /** Inserting a build below a bound into a list below that bound stays below it. */
  lemma {:induction false} InsertBounded(sorted: seq<Build>, b: Build, bound: real)
    requires forall i :: 0 <= i < |sorted| ==> sorted[i].matchScore <= bound
    requires b.matchScore <= bound
    ensures forall i :: 0 <= i < |Insert(sorted, b)| ==> Insert(sorted, b)[i].matchScore <= bound
  {
    if sorted != [] && sorted[0].matchScore >= b.matchScore {
      InsertBounded(sorted[1..], b, bound);
    }
  }

  lemma {:induction false} InsertSorted(sorted: seq<Build>, b: Build)
    requires SortedDesc(sorted)
    ensures SortedDesc(Insert(sorted, b))
  {
    if sorted != [] && sorted[0].matchScore >= b.matchScore {
      var tail := sorted[1..];
      var rest := Insert(tail, b);
      InsertSorted(tail, b);
      InsertBounded(tail, b, sorted[0].matchScore);
      var r := [sorted[0]] + rest;
      forall i, j | 0 <= i < j < |r| ensures r[i].matchScore >= r[j].matchScore {
        assert r[j] == rest[j - 1];
        if i > 0 {
          assert r[i] == rest[i - 1];
        }
      }
    }
  }

  lemma {:induction false} SortByScoreSorted(bs: seq<Build>)
    ensures SortedDesc(SortByScore(bs))
  {
    if bs != [] {
      SortByScoreSorted(bs[..|bs| - 1]);
      InsertSorted(SortByScore(bs[..|bs| - 1]), bs[|bs| - 1]);
    }
  }

  lemma {:induction false} SortByScorePermutes(bs: seq<Build>)
    ensures multiset(SortByScore(bs)) == multiset(bs)
    ensures |SortByScore(bs)| == |bs|
  {
    if bs != [] {
      var init := bs[..|bs| - 1];
      SortByScorePermutes(init);
      InsertPermutes(SortByScore(init), bs[|bs| - 1]);
      assert bs == init + [bs[|bs| - 1]];
    }
  }

  /** The sorted builds are the response's builds, rearranged, with non-increasing scores. */
  lemma SortByScoreSortsAndPermutes(bs: seq<Build>)
    ensures SortedDesc(SortByScore(bs))
    ensures multiset(SortByScore(bs)) == multiset(bs)
    ensures |SortByScore(bs)| == |bs|
  {
    SortByScoreSorted(bs);
    SortByScorePermutes(bs);
  }

  /** After parsing, the first sorted build is selected when there is one; otherwise the
      selection is left as it was. */
  function SelectionAfterParse(sorted: seq<Build>, previous: Option<Build>): Option<Build> {
    if |sorted| > 0 then Some(sorted[0]) else previous
  }

  /** The default selection is a build of the response with the highest score. */
  lemma SelectionIsBest(bs: seq<Build>, previous: Option<Build>)
    requires |bs| > 0
    ensures var s := SelectionAfterParse(SortByScore(bs), previous);
      s.Some? && s.value in bs && forall b :: b in bs ==> s.value.matchScore >= b.matchScore
  {
    SortByScoreSortsAndPermutes(bs);
    var sorted := SortByScore(bs);
    assert sorted[0] in multiset(bs);
    forall b | b in bs ensures sorted[0].matchScore >= b.matchScore {
      assert b in multiset(sorted);
      var k :| 0 <= k < |sorted| && sorted[k] == b;
    }
  }

  // ---------------------------------------------------------------------------------------
  // Filters

  const StrongThreshold := 0.7
  const MediumThreshold := 0.4

  /** The filter callback for the filter value `filter`. */
  predicate Keep(filter: string, b: Build) {
    if filter == "high_match" then b.matchScore >= StrongThreshold
    else if filter == "medium_match" then b.matchScore >= MediumThreshold && b.matchScore < StrongThreshold
    else true
  }

  /** `builds.filter(...)` */
  function FilterBuilds(bs: seq<Build>, filter: string): seq<Build> {
    if bs == [] then []
    else FilterBuilds(bs[..|bs| - 1], filter) + if Keep(filter, bs[|bs| - 1]) then [bs[|bs| - 1]] else []
  }

  /** `a` is `b` with some elements left out, in `b`'s order: `idx` lists, increasing, the
      positions in `b` of `a`'s elements. */
  ghost predicate EmbeddedAt(a: seq<Build>, b: seq<Build>, idx: seq<int>) {
    |idx| == |a| &&
    (forall k :: 0 <= k < |idx| ==> 0 <= idx[k] < |b| && a[k] == b[idx[k]]) &&
    (forall k, l :: 0 <= k < l < |idx| ==> idx[k] < idx[l])
  }

  /** The filter keeps exactly the builds its callback accepts, in their order. */
  lemma {:induction false} FilterKeepsExactly(bs: seq<Build>, filter: string)
    ensures forall b :: b in FilterBuilds(bs, filter) <==> b in bs && Keep(filter, b)
    ensures exists idx :: EmbeddedAt(FilterBuilds(bs, filter), bs, idx)
  {
    if bs == [] {
      assert EmbeddedAt(FilterBuilds(bs, filter), bs, []);
    } else {
      var n := |bs| - 1;
      var init := bs[..n];
      var last := bs[n];
      FilterKeepsExactly(init, filter);
      assert bs == init + [last];
      var f := FilterBuilds(init, filter);
      var idx :| EmbeddedAt(f, init, idx);
      if Keep(filter, last) {
        var idx' := idx + [n];
        assert EmbeddedAt(f + [last], bs, idx');
      } else {
        assert EmbeddedAt(f + [], bs, idx);
      }
    }
  }

  /** Any filter value other than the two named ones keeps every build. */
  lemma {:induction false} OtherFilterKeepsAll(bs: seq<Build>, filter: string)
    requires filter != "high_match" && filter != "medium_match"
    ensures FilterBuilds(bs, filter) == bs
  {
    if bs != [] {
      OtherFilterKeepsAll(bs[..|bs| - 1], filter);
      assert bs[..|bs| - 1] + [bs[|bs| - 1]] == bs;
    }
  }

  /** No build passes both the high and the medium filter. */
  lemma HighMediumDisjoint(bs: seq<Build>)
    ensures forall b :: b in FilterBuilds(bs, "high_match") ==> b !in FilterBuilds(bs, "medium_match")
  {
    FilterKeepsExactly(bs, "high_match");
    FilterKeepsExactly(bs, "medium_match");
  }

  // ---------------------------------------------------------------------------------------
  // What the page shows

  /** The number of builds scoring at least `t`. */
  function CountAtLeast(bs: seq<Build>, t: real): nat {
    if bs == [] then 0
    else CountAtLeast(bs[..|bs| - 1], t) + if bs[|bs| - 1].matchScore >= t then 1 else 0
  }

  /** The "Strong Fits" counter: 0 before a CV was parsed. */
  function StrongFits(hasCandidate: bool, builds: seq<Build>): nat {
    if hasCandidate then CountAtLeast(builds, StrongThreshold) else 0
  }

  /** With a candidate, the counter equals the length of the high-match filter's result. */
  lemma {:induction false} StrongFitsIsHighFilterLength(builds: seq<Build>)
    ensures StrongFits(true, builds) == |FilterBuilds(builds, "high_match")|
  {
    if builds != [] {
      StrongFitsIsHighFilterLength(builds[..|builds| - 1]);
    }
  }

  /** `PLACEHOLDER_BUILDS`: five identical locked cards. */
  const PlaceholderBuild := Build("locked", "Locked Role Path", 0.0, 0, [], [], [])

  function Placeholders(): seq<Build> {
    seq(5, _ => PlaceholderBuild)
  }

  /** The cards shown: the filtered builds once a CV was parsed, the placeholders before. */
  function DisplayBuilds(hasCandidate: bool, builds: seq<Build>, filter: string): (r: seq<Build>)
    ensures !hasCandidate ==> |r| == 5 && forall i :: 0 <= i < |r| ==> r[i] == PlaceholderBuild
    ensures hasCandidate ==> forall b :: b in r <==> b in builds && Keep(filter, b)
  {
    FilterKeepsExactly(builds, filter);
    if hasCandidate then FilterBuilds(builds, filter) else Placeholders()
  }

  /** Card `idx` showing `b` is highlighted: it has the selected build's job id, or nothing is
      selected and it is the first card. */
  predicate IsSelected(selected: Option<Build>, b: Build, idx: nat) {
    (selected.Some? && selected.value.jobId == b.jobId) || (selected.None? && idx == 0)
  }

  predicate DistinctJobs(bs: seq<Build>) {
    forall i, j :: 0 <= i < j < |bs| ==> bs[i].jobId != bs[j].jobId
  }

  /** Right after parsing, with one build per job and no filter, exactly the first card is
      highlighted. */
  lemma OnlyFirstCardSelected(bs: seq<Build>, previous: Option<Build>, i: nat)
    requires |bs| > 0 && DistinctJobs(SortByScore(bs)) && i < |SortByScore(bs)|
    ensures IsSelected(SelectionAfterParse(SortByScore(bs), previous), SortByScore(bs)[i], i) <==> i == 0
  {
    SortByScoreSortsAndPermutes(bs);
  }
}
