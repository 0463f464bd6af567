/** The collector: the only state a run of the agent may change, and the small state
    machine that takes it to its end. */
module AgentCollector {
  import opened Wrappers
  import opened Ordering
  import opened PipelineText
  import opened AgentEvidence
  import opened AgentSubmissions

  function JobsByRef(jobs: seq<Job>): (r: map<string, Job>)
    ensures forall ref :: ref in r <==> exists j | j in jobs :: j.ref == ref
    ensures forall ref | ref in r :: r[ref] in jobs && r[ref].ref == ref
  {
    if jobs == [] then map[]
    else
      var last := jobs[|jobs|-1];
      assert jobs == jobs[..|jobs|-1] + [last];
      JobsByRef(jobs[..|jobs|-1])[last.ref := last]
  }

  class Collector {
    const lines: seq<Line>
    const jobs: map<string, Job>
    var tagCatalog: seq<string>
    var profile: Option<Profile>
    var matches: map<string, JobMatch>
    var done: bool
    var failed: bool

    constructor (text: string, jobs: seq<Job>)
      ensures this.lines == LinesOf(text) && this.jobs == JobsByRef(jobs)
      ensures tagCatalog == [] && profile == None && matches == map[] && !done && !failed
      ensures Valid()
    {
      var byRef: map<string, Job> := map[];
      for i := 0 to |jobs|
        invariant byRef == JobsByRef(jobs[..i])
      {
        assert jobs[..i+1][..i] == jobs[..i];
        byRef := byRef[jobs[i].ref := jobs[i]];
      }
      assert jobs[..|jobs|] == jobs;
      this.jobs := byRef;
      var numbered := NumberLines(text);
      this.lines := numbered;
      tagCatalog, profile, matches, done, failed := [], None, map[], false, false;
    }

    predicate Incomplete()
      reads this
    {
      profile.Some? && INCOMPLETE in profile.value.risks
    }

    /** Whatever has been stored was accepted: every claim, tag and match quotes the
        lines, no match is outside the jobs, and a successful end covers them all. */
    predicate Valid()
      reads this
    {
      && (profile.Some? ==> GoodProfile(lines, tagCatalog, profile.value))
      && GoodMatches(jobs, lines, Incomplete(), matches)
      && (profile.None? ==> matches == map[])
      && (failed ==> done)
      && (done && !failed ==> profile.Some? && matches.Keys == jobs.Keys)
    }

    method ClaimProblem(profile: Profile, i: nat) returns (problem: Option<Problem>)
      requires i < |profile.claims| && ClaimsOk(lines, profile.claims[..i])
      ensures problem.None? <==> ClaimOk(lines, profile.claims[i])
      ensures problem.Some? ==> ClaimBlamed(lines, profile.claims, i, problem.value)
    {
      var claim, at := profile.claims[i], [Field("claims"), Index(i)];
      if claim.kind !in KINDS { return Some(Problem("claim_kind", at + [Field("kind")])); }
      TrimsToNothing(claim.summary);
      if TrimSpace(claim.summary) == "" { return Some(Problem("summary_required", at + [Field("summary")])); }
      problem := ValidateEvidence(lines, claim.evidence, at + [Field("evidence")]);
    }

    method TagProblem(tags: seq<TagClaim>, i: nat, seen: set<string>) returns (problem: Option<Problem>)
      requires i < |tags| && forall k | 0 <= k < i :: TagOk(lines, tagCatalog, tags, k)
      requires seen == set k | 0 <= k < i :: tags[k].code
      ensures problem.None? <==> TagOk(lines, tagCatalog, tags, i)
      ensures problem.Some? ==> TagBlamed(lines, tagCatalog, tags, i, problem.value)
    {
      var tag, at := tags[i], [Field("tags"), Index(i)];
      var known := false;
      for d := 0 to |tagCatalog|
        invariant known <==> tag.code in tagCatalog[..d]
      {
        if tagCatalog[d] == tag.code { known := true; }
      }
      assert tagCatalog[..|tagCatalog|] == tagCatalog;
      if !known || tag.code in seen { return Some(Problem("tag_code", at + [Field("code")])); }
      if !Unit(tag.confidence) { return Some(Problem("confidence_range", at + [Field("confidence")])); }
      if tag.status != SUPPORTED && tag.status != UNSURE { return Some(Problem("tag_status", at + [Field("status")])); }
      problem := ValidateEvidence(lines, tag.evidence, at + [Field("evidence")]);
    }

    /** Checks every claim and tag, settling the tags on the way. */
    method CheckProfile(profile: Profile) returns (problem: Option<Problem>, tags: seq<TagClaim>)
      ensures problem.None? <==> ProfileOk(lines, tagCatalog, profile)
      ensures problem.None? ==> tags == Map(Settle, profile.tags)
      ensures problem.Some? ==> ProfileBlamed(lines, tagCatalog, profile, problem.value)
    {
      tags := [];
      if |profile.claims| == 0 || |profile.claims| > MAX_CLAIMS {
        return Some(Problem("claims_required", [Field("claims")])), tags;
      }
      for i := 0 to |profile.claims|
        invariant forall k | 0 <= k < i :: ClaimOk(lines, profile.claims[k])
      {
        problem := ClaimProblem(profile, i);
        if problem.Some? { return; }
      }
      var seen: set<string> := {};
      for i := 0 to |profile.tags|
        invariant forall k | 0 <= k < i :: TagOk(lines, tagCatalog, profile.tags, k)
        invariant seen == set k | 0 <= k < i :: profile.tags[k].code
        invariant tags == Map(Settle, profile.tags[..i])
      {
        problem := TagProblem(profile.tags, i, seen);
        if problem.Some? { return; }
        seen := seen + {profile.tags[i].code};
        var tag := profile.tags[i];
        if tag.confidence < CERTAIN { tag := tag.(status := UNSURE); }
        tags := tags + [tag];
      }
      assert profile.tags[..|profile.tags|] == profile.tags;
      return None, tags;
    }

    method SubmitProfile(submitted: Profile) returns (problem: Option<Problem>)
      requires Valid()
      modifies this`profile
      ensures Valid()
      ensures problem.None? <==> !done && old(profile).None? && ProfileOk(lines, tagCatalog, submitted)
      ensures profile == if problem.None? then Some(Settled(lines, submitted)) else old(profile)
      ensures problem.Some? ==>
                if done || old(profile).Some? then problem.value == Problem("profile_already_submitted", [Field("claims")])
                else ProfileBlamed(lines, tagCatalog, submitted, problem.value)
    {
      if done || profile.Some? { return Some(Problem("profile_already_submitted", [Field("claims")])); }
      var tags;
      problem, tags := CheckProfile(submitted);
      if problem.Some? { return; }
      var risks := submitted.risks;
      var characters := 0;
      for i := 0 to |lines|
        invariant characters == Characters(lines[..i])
      {
        assert lines[..i+1][..i] == lines[..i];
        characters := characters + |TrimSpace(lines[i].text)|;
      }
      assert lines[..|lines|] == lines;
      var experienced := false;
      for i := 0 to |submitted.claims|
        invariant experienced <==> exists k | 0 <= k < i :: submitted.claims[k].kind in EXPERIENCE
      {
        if submitted.claims[i].kind in EXPERIENCE { experienced := true; }
      }
      if characters < ENOUGH_TEXT || !experienced { risks := risks + [INCOMPLETE]; }
      profile := Some(submitted.(tags := tags, risks := risks));
      SettledIsGood(lines, tagCatalog, submitted);
    }

    method MatchProblem(batch: seq<JobMatch>, i: nat, seen: set<string>) returns (problem: Option<Problem>)
      requires i < |batch| && forall k | 0 <= k < i :: MatchOk(jobs, matches.Keys, lines, batch, k)
      requires seen == set k | 0 <= k < i :: batch[k].jobRef
      ensures problem.None? <==> MatchOk(jobs, matches.Keys, lines, batch, i)
      ensures problem.Some? ==> MatchBlamed(jobs, matches.Keys, lines, batch, i, problem.value)
    {
      var m, at := batch[i], [Field("matches"), Index(i)];
      if m.jobRef !in jobs { return Some(Problem("job_scope", at + [Field("job_ref")])); }
      if m.jobRef in matches || m.jobRef in seen {
        return Some(Problem("match_already_submitted", at + [Field("job_ref")]));
      }
      if !DimensionsOk(m.dimensions) { return Some(Problem("dimensions_range", at + [Field("dimensions")])); }
      if !Unit(m.confidence) { return Some(Problem("confidence_range", at + [Field("confidence")])); }
      TrimsToNothing(m.reason);
      if TrimSpace(m.reason) == "" { return Some(Problem("reason_required", at + [Field("reason")])); }
      problem := ValidateEvidence(lines, m.evidence, at + [Field("evidence")]);
    }

    /** All of a batch or none of it. */
    method SubmitMatches(batch: seq<JobMatch>) returns (problem: Option<Problem>)
      requires Valid()
      modifies this`matches
      ensures Valid()
      ensures problem.None? <==> !done && profile.Some? && batch != [] && BatchOk(jobs, old(matches).Keys, lines, batch)
      ensures problem.Some? ==> matches == old(matches)
      ensures problem.None? ==>
                && matches.Keys == old(matches).Keys + Elements(Refs(batch))
                && (forall ref | ref in old(matches) :: matches[ref] == old(matches)[ref])
                && (forall m | m in batch :: m.jobRef in matches && matches[m.jobRef] == Scored(m, Incomplete()))
      ensures problem.Some? ==>
                if done || profile.None? || batch == [] then problem.value == Problem("profile_required", [Field("matches")])
                else exists i | 0 <= i < |batch| :: MatchBlamed(jobs, old(matches).Keys, lines, batch, i, problem.value)
    {
      if done || profile.None? || |batch| == 0 { return Some(Problem("profile_required", [Field("matches")])); }
      var seen: set<string> := {};
      for i := 0 to |batch|
        invariant matches == old(matches) && forall k | 0 <= k < i :: MatchOk(jobs, matches.Keys, lines, batch, k)
        invariant seen == set k | 0 <= k < i :: batch[k].jobRef
      {
        problem := MatchProblem(batch, i, seen);
        if problem.Some? { return; }
        seen := seen + {batch[i].jobRef};
      }
      AddedIsGood(jobs, lines, Incomplete(), matches, batch);
      BatchIsNew(jobs, matches.Keys, lines, batch);
      AddedKeeps(Incomplete(), matches, batch);
      forall i | 0 <= i < |batch|
        ensures batch[i].jobRef in Added(matches, batch, Incomplete())
        ensures Added(matches, batch, Incomplete())[batch[i].jobRef] == Scored(batch[i], Incomplete())
      {
        AddedHolds(Incomplete(), matches, batch, i);
      }
      Store(batch);
      return None;
    }

    method Store(batch: seq<JobMatch>)
      requires profile.Some?
      modifies this`matches
      ensures matches == Added(old(matches), batch, Incomplete())
    {
      var incomplete := INCOMPLETE in profile.value.risks;
      for i := 0 to |batch|
        invariant matches == Added(old(matches), batch[..i], Incomplete())
      {
        assert batch[..i+1][..i] == batch[..i];
        var m := batch[i];
        if incomplete && m.dimensions.quality > QUALITY_CAP {
          m := m.(dimensions := m.dimensions.(quality := QUALITY_CAP));
        }
        m := m.(score := Score(m.dimensions), rank := 0);
        matches := matches[m.jobRef := m];
      }
      assert batch[..|batch|] == batch;
    }

    method Finish(status: string) returns (problem: Option<Problem>)
      requires Valid()
      modifies this`done, this`failed
      ensures Valid()
      ensures problem.None? <==>
                !old(done) && (status == "FAILED" || (status == "DONE" && profile.Some? && matches.Keys == jobs.Keys))
      ensures done == (old(done) || problem.None?) && failed == (old(failed) || (problem.None? && status == "FAILED"))
      ensures problem.Some? ==>
                problem.value == if old(done) then Problem("tool_failed", [Field("arguments")])
                                 else Problem("completion_incomplete", [Field("status")])
    {
      if done { return Some(Problem("tool_failed", [Field("arguments")])); }
      if status == "FAILED" {
        done, failed := true, true;
        return None;
      }
      if matches.Keys != jobs.Keys { SubsetIsSmaller(matches.Keys, jobs.Keys); }
      if status != "DONE" || profile.None? || |matches| != |jobs| {
        return Some(Problem("completion_incomplete", [Field("status")]));
      }
      done := true;
      return None;
    }

    /** The stored matches, in whatever order the map yields them. */
    method Gather() returns (list: seq<JobMatch>)
      requires Keyed(matches)
      ensures Elements(Refs(list)) == matches.Keys && Distinct(Refs(list))
      ensures forall m | m in list :: m.jobRef in matches && m == matches[m.jobRef]
    {
      list := [];
      var todo := matches.Keys;
      while todo != {}
        invariant todo <= matches.Keys
        invariant Elements(Refs(list)) == matches.Keys - todo && Distinct(Refs(list))
        invariant forall m | m in list :: m.jobRef in matches && m == matches[m.jobRef]
        decreases |todo|
      {
        var ref :| ref in todo;
        assert ref !in Elements(Refs(list)) && matches[ref].jobRef == ref;
        RefsAppend(list, matches[ref]);
        list := list + [matches[ref]];
        todo := todo - {ref};
      }
    }

    /** The stored matches from best to worst. */
    method Ranked() returns (r: seq<JobMatch>)
      requires Keyed(matches)
      ensures Ranking(matches, r)
    {
      var list := Gather();
      BetterIsStrict();
      r := SortSlice(list, Better);
      ghost var sorted := r;
      SortedIsRanking(matches, list, sorted);
      for i := 0 to |r|
        invariant |r| == |sorted|
        invariant forall k | 0 <= k < i :: r[k] == sorted[k].(rank := k + 1)
        invariant forall k | i <= k < |r| :: r[k] == sorted[k]
      {
        r := r[i := r[i].(rank := i + 1)];
      }
      NumberedIsRanking(matches, sorted, r);
    }
  }

  lemma NumberedIsRanking(ms: map<string, JobMatch>, sorted: seq<JobMatch>, r: seq<JobMatch>)
    requires Keyed(ms) && Elements(Refs(sorted)) == ms.Keys && Distinct(Refs(sorted))
    requires forall i | 0 <= i < |sorted| :: sorted[i].jobRef in ms && sorted[i] == ms[sorted[i].jobRef]
    requires forall i, j | 0 <= i < j < |sorted| :: Better(sorted[i], sorted[j])
    requires |r| == |sorted| && forall k | 0 <= k < |r| :: r[k] == sorted[k].(rank := k + 1)
    ensures Ranking(ms, r)
  {
    assert Refs(r) == Refs(sorted);
  }

  lemma SubsetIsSmaller<T>(a: set<T>, b: set<T>)
    requires a < b
    ensures |a| < |b|
  {
    var x :| x in b && x !in a;
    SubsetSize(a, b - {x});
  }

  lemma SortedIsRanking(ms: map<string, JobMatch>, list: seq<JobMatch>, sorted: seq<JobMatch>)
    requires multiset(list) == multiset(sorted) && Ascending(sorted, Better)
    requires Elements(Refs(list)) == ms.Keys && Distinct(Refs(list))
    requires forall m | m in list :: m.jobRef in ms && m == ms[m.jobRef]
    ensures Elements(Refs(sorted)) == ms.Keys && Distinct(Refs(sorted))
    ensures forall i | 0 <= i < |sorted| :: sorted[i].jobRef in ms && sorted[i] == ms[sorted[i].jobRef]
    ensures forall i, j | 0 <= i < j < |sorted| :: Better(sorted[i], sorted[j])
  {
    var f := (m: JobMatch) => m.jobRef;
    MapPermutes(f, list, sorted);
    DistinctPermutes(Refs(list), Refs(sorted));
    SameElements(Refs(list), Refs(sorted));
    SameElements(list, sorted);
    forall i | 0 <= i < |sorted| ensures sorted[i].jobRef in ms && sorted[i] == ms[sorted[i].jobRef] {
      assert sorted[i] in list;
    }
    StringLessTotal();
    forall i, j | 0 <= i < j < |sorted| ensures Better(sorted[i], sorted[j]) {
      assert Refs(sorted)[i] != Refs(sorted)[j];
    }
  }
}
