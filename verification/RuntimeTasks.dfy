/** The chunked driver of one task: many jobs are analysed a chunk at a time against
    one profile, within one budget, and merged into one ranking. */
module RuntimeTasks {
  import opened Wrappers
  import opened Ordering
  import opened PipelineText
  import opened AgentEvidence
  import opened AgentSubmissions
  import opened AgentCollector
  import opened LoopBudget
  import opened LoopCandidate

  const CHUNK := 24

  datatype TaskResult =
    | Done(profile: Profile, matches: seq<JobMatch>, coveredJobs: seq<string>, resumeChecksum: string)
    | Failed

  function JobRefs(jobs: seq<Job>): seq<string> { Map((j: Job) => j.ref, jobs) }

  lemma KeysAreRefs(jobs: seq<Job>)
    ensures JobsByRef(jobs).Keys == Elements(JobRefs(jobs))
  {
    forall ref ensures ref in JobsByRef(jobs) <==> ref in Elements(JobRefs(jobs)) {
      if ref in JobsByRef(jobs) {
        var j :| j in jobs && j.ref == ref;
        var i :| 0 <= i < |jobs| && jobs[i] == j;
        assert JobRefs(jobs)[i] == ref;
      }
      if ref in Elements(JobRefs(jobs)) {
        var i :| 0 <= i < |jobs| && JobRefs(jobs)[i] == ref;
        assert jobs[i] in jobs && jobs[i].ref == ref;
      }
    }
  }

  lemma RefsSplit(jobs: seq<Job>, i: nat, k: nat)
    requires i <= k <= |jobs|
    ensures Elements(JobRefs(jobs[..k])) == Elements(JobRefs(jobs[..i])) + Elements(JobRefs(jobs[i..k]))
    ensures Elements(JobRefs(jobs[i..k])) <= Elements(JobRefs(jobs))
  {
    assert JobRefs(jobs[..k]) == JobRefs(jobs[..i]) + JobRefs(jobs[i..k]);
    assert JobRefs(jobs[i..k]) == JobRefs(jobs)[i..k];
  }

  /** Everything a finished task reports stands on the text: the profile, and one match
      for each of the jobs given. */
  ghost predicate Assessed(lines: seq<Line>, catalog: seq<string>, jobs: seq<Job>, profile: Option<Profile>,
                           ms: map<string, JobMatch>)
  {
    && (jobs != [] ==> profile.Some?)
    && (profile.Some? ==> GoodProfile(lines, catalog, profile.value))
    && ms.Keys == Elements(JobRefs(jobs))
    && (forall ref | ref in ms ::
          GoodMatch(JobsByRef(jobs), lines, profile.Some? && INCOMPLETE in profile.value.risks, ref, ms[ref]))
  }

  lemma MergeAssessed(lines: seq<Line>, catalog: seq<string>, jobs: seq<Job>, i: nat, k: nat, was: Option<Profile>,
                      profile: Option<Profile>, ms: map<string, JobMatch>, part: map<string, JobMatch>)
    requires i < k <= |jobs| && (was.Some? ==> profile == was)
    requires Assessed(lines, catalog, jobs[..i], was, ms) && Assessed(lines, catalog, jobs[i..k], profile, part)
    ensures Assessed(lines, catalog, jobs[..k], profile, ms + part)
  {
    RefsSplit(jobs, i, k);
    KeysAreRefs(jobs[..i]);
    KeysAreRefs(jobs[i..k]);
    KeysAreRefs(jobs[..k]);
    var incomplete := profile.Some? && INCOMPLETE in profile.value.risks;
    forall ref | ref in ms + part
      ensures GoodMatch(JobsByRef(jobs[..k]), lines, incomplete, ref, (ms + part)[ref])
    {
      if ref in part {
        assert GoodMatch(JobsByRef(jobs[i..k]), lines, incomplete, ref, part[ref]);
      } else {
        assert was == profile && GoodMatch(JobsByRef(jobs[..i]), lines, incomplete, ref, ms[ref]);
      }
    }
  }

  /** One chunk, sharing the profile of the chunks before it. */
  method RunChunk(text: string, chunk: seq<Job>, catalog: seq<string>, profile: Option<Profile>, retries: Option<int>,
                  budget: Budget, t: Trace, w: World)
      returns (ending: Ending, part: Collector)
    requires chunk != [] && (profile.Some? ==> GoodProfile(LinesOf(text), catalog, profile.value))
    modifies t
    ensures fresh(part) && Keyed(part.matches)
    ensures ending == Completed ==>
              && Assessed(LinesOf(text), catalog, chunk, part.profile, part.matches)
              && (profile.Some? ==> part.profile == profile)
              && t.Spent() <= budget.maxTokens
    ensures t.turns <= budget.maxTurns || t.turns == old(t.turns)
    ensures Climbs(old(t.toolCallCount), t.toolCallCount, budget.maxToolCalls)
  {
    part := new Collector(text, chunk);
    part.tagCatalog := catalog;
    part.profile := profile;
    assert part.Valid();
    var rounds;
    ghost var all, sent;
    ending, rounds, all, sent := RunCandidate(retries, part, budget, t, w);
    ValidIsKeyed(part);
    KeysAreRefs(chunk);
  }

  /** Adds a chunk's matches to the collector's. */
  method Merge(into: Collector, part: map<string, JobMatch>)
    modifies into`matches
    ensures into.matches == old(into.matches) + part
  {
    var todo := part.Keys;
    while todo != {}
      invariant todo <= part.Keys
      invariant into.matches == old(into.matches) + map ref | ref in part && ref !in todo :: part[ref]
      decreases |todo|
    {
      var ref :| ref in todo;
      into.matches := into.matches[ref := part[ref]];
      todo := todo - {ref};
    }
    assert (map ref | ref in part && ref !in todo :: part[ref]) == part;
  }

  /** DONE means: the text was accepted, every requested job is covered once, the
      ranking runs from best to worst with ranks from one, every claim, tag and match
      is evidenced, the profile carries the whole text, and the budget was kept. */
  ghost predicate Delivered(r: TaskResult, input: ResumeText, sha: string -> string, catalog: seq<string>,
                            jobs: seq<Job>)
  {
    var text := Join(input.pages, FORM_FEED);
    && Acceptable(input, sha) && r.Done? && r.resumeChecksum == input.fileSha && r.profile.sourceText == text
    && r.coveredJobs == Refs(r.matches) && Distinct(r.coveredJobs) && Elements(r.coveredJobs) == Elements(JobRefs(jobs))
    && exists ms, p :: Backing(r, LinesOf(text), catalog, jobs, p, ms)
  }

  /** The stored profile and matches a result was ranked from. */
  ghost predicate Backing(r: TaskResult, lines: seq<Line>, catalog: seq<string>, jobs: seq<Job>, p: Profile,
                          ms: map<string, JobMatch>)
  {
    && r.Done? && Assessed(lines, catalog, jobs, Some(p), ms) && Ranking(ms, r.matches)
    && r.profile == p.(sourceText := r.profile.sourceText)
  }

  /** The loop over the chunks; every chunk before the last one run was completed. */
  method RunChunks(text: string, collector: Collector, jobs: seq<Job>, catalog: seq<string>, retries: Option<int>,
                   budget: Budget, t: Trace, worlds: nat -> World)
      returns (done: bool, ghost endings: seq<Ending>)
    requires jobs != [] && collector.profile.None? && collector.matches == map[]
    modifies collector`profile, collector`matches, t
    ensures done <==> |endings| * CHUNK >= |jobs| && forall e | e in endings :: e == Completed
    ensures endings != [] && (|endings| - 1) * CHUNK < |jobs|
    ensures done ==>
              && Assessed(LinesOf(text), catalog, jobs, collector.profile, collector.matches)
              && Keyed(collector.matches)
              && t.Spent() <= budget.maxTokens
    ensures t.turns <= budget.maxTurns || t.turns == old(t.turns)
    ensures Climbs(old(t.toolCallCount), t.toolCallCount, budget.maxToolCalls)
  {
    hide Assessed, GoodProfile;
    endings := [];
    NothingAssessed(LinesOf(text), catalog, jobs);
    var offset := 0;
    while offset < |jobs|
      invariant offset == |endings| * CHUNK && forall e | e in endings :: e == Completed
      invariant endings != [] ==> (|endings| - 1) * CHUNK < |jobs| && t.Spent() <= budget.maxTokens
      invariant Keyed(collector.matches)
      invariant Assessed(LinesOf(text), catalog, jobs[..Min(offset, |jobs|)], collector.profile, collector.matches)
      invariant t.turns <= budget.maxTurns || t.turns == old(t.turns)
      invariant Climbs(old(t.toolCallCount), t.toolCallCount, budget.maxToolCalls)
      decreases |jobs| - offset
    {
      var end := Min(offset + CHUNK, |jobs|);
      var chunk := jobs[offset..end];
      ProfileIsGood(LinesOf(text), catalog, jobs[..offset], collector.profile, collector.matches);
      var ending, part := RunChunk(text, chunk, catalog, collector.profile, retries, budget, t, worlds(offset / CHUNK));
      endings := endings + [ending];
      if ending != Completed {
        assert endings[|endings|-1] in endings;
        return false, endings;
      }
      MergeAssessed(LinesOf(text), catalog, jobs, offset, end, collector.profile, part.profile, collector.matches, part.matches);
      collector.profile := part.profile;
      Merge(collector, part.matches);
      offset := offset + CHUNK;
    }
    assert jobs[..|jobs|] == jobs;
    done := true;
  }

  /** `volunteers` is how many the request names; `worlds` what each chunk meets.
      DONE is reached exactly when every chunk is completed. */
  method RunTask(input: ResumeText, sha: string -> string, cancelled: bool, volunteers: nat, jobs: seq<Job>,
                 catalog: seq<string>,
                 retries: Option<int>, budget: Budget, t: Trace, worlds: nat -> World)
      returns (r: TaskResult, ghost endings: seq<Ending>)
    modifies t
    ensures r.Done? <==> volunteers == 1 && jobs != [] && !cancelled && Acceptable(input, sha)
                         && |endings| * CHUNK >= |jobs| && forall e | e in endings :: e == Completed
    ensures endings == [] || (|endings| - 1) * CHUNK < |jobs|
    ensures r.Done? ==> Delivered(r, input, sha, catalog, jobs) && t.Spent() <= budget.maxTokens
    ensures r.Done? ==> (multiset(r.coveredJobs) == multiset(JobRefs(jobs)) <==> Distinct(JobRefs(jobs)))
    ensures t.turns <= budget.maxTurns || t.turns == old(t.turns)
    ensures Climbs(old(t.toolCallCount), t.toolCallCount, budget.maxToolCalls)
  {
    hide Acceptable, Assessed;
    endings := [];
    if volunteers != 1 || |jobs| == 0 { return Failed, endings; }
    var reading := ReadText(input, sha, cancelled);
    if !reading.Read? { return Failed, endings; }
    var text := reading.document.text;
    var collector := new Collector(text, jobs);
    collector.tagCatalog := catalog;
    var done;
    done, endings := RunChunks(text, collector, jobs, catalog, retries, budget, t, worlds);
    if !done { return Failed, endings; }
    ghost var ms := collector.matches;
    var matches := collector.Ranked();
    ProfileIsGood(LinesOf(text), catalog, jobs, collector.profile, ms);
    var profile := collector.profile.value;
    r := Done(profile.(sourceText := text), matches, Refs(matches), reading.document.checksum);
    assert Backing(r, LinesOf(text), catalog, jobs, profile, ms);
    CoversEachOnce(matches, ms, jobs);
  }

  /** Evidence a result may rest on: of its matches, its claims or its tags. */
  predicate RestsOn(r: TaskResult, e: Evidence) {
    && r.Done?
    && ((exists m | m in r.matches :: e in m.evidence) || (exists c | c in r.profile.claims :: e in c.evidence)
        || (exists t | t in r.profile.tags :: e in t.evidence))
  }

  /** From DONE to the input: every quote a result rests on is, without whitespace, a
      substring of the page it names, as that page was sent. */
  lemma DoneIsAnchored(r: TaskResult, input: ResumeText, sha: string -> string, catalog: seq<string>,
                       jobs: seq<Job>, e: Evidence)
    requires Delivered(r, input, sha, catalog, jobs) && RestsOn(r, e)
    ensures 1 <= e.page <= |input.pages| && Contains(Norm(input.pages[e.page-1]), Norm(e.quote))
  {
    var lines := LinesOf(Join(input.pages, FORM_FEED));
    var ms, p :| Backing(r, lines, catalog, jobs, p, ms);
    BackingVerifies(r, lines, catalog, jobs, p, ms, e);
    EvidenceIsAnchored(input.pages, e);
  }

  lemma BackingVerifies(r: TaskResult, lines: seq<Line>, catalog: seq<string>, jobs: seq<Job>, p: Profile,
                        ms: map<string, JobMatch>, e: Evidence)
    requires Backing(r, lines, catalog, jobs, p, ms) && RestsOn(r, e)
    ensures Verified(lines, e)
  {
    if m :| m in r.matches && e in m.evidence {
      MatchVerifies(r.matches, lines, jobs, INCOMPLETE in p.risks, ms, m, e);
    } else {
      ProfileVerifies(lines, catalog, p, e);
    }
  }

  lemma MatchVerifies(r: seq<JobMatch>, lines: seq<Line>, jobs: seq<Job>, incomplete: bool, ms: map<string, JobMatch>,
                      m: JobMatch, e: Evidence)
    requires Ranking(ms, r) && m in r && e in m.evidence
    requires forall ref | ref in ms :: GoodMatch(JobsByRef(jobs), lines, incomplete, ref, ms[ref])
    ensures Verified(lines, e)
  {
    var i :| 0 <= i < |r| && r[i] == m;
    assert Unranked(r[i]) == ms[m.jobRef];
    assert GoodMatch(JobsByRef(jobs), lines, incomplete, m.jobRef, ms[m.jobRef]);
  }

  lemma ProfileVerifies(lines: seq<Line>, catalog: seq<string>, p: Profile, e: Evidence)
    requires GoodProfile(lines, catalog, p)
    requires (exists c | c in p.claims :: e in c.evidence) || (exists t | t in p.tags :: e in t.evidence)
    ensures Verified(lines, e)
  {
    if c :| c in p.claims && e in c.evidence {
      var i :| 0 <= i < |p.claims| && p.claims[i] == c;
      assert ClaimOk(lines, p.claims[i]);
    } else {
      var t :| t in p.tags && e in t.evidence;
      var i :| 0 <= i < |p.tags| && p.tags[i] == t;
      assert TagOk(lines, catalog, p.tags, i);
    }
  }

  lemma NothingAssessed(lines: seq<Line>, catalog: seq<string>, jobs: seq<Job>)
    ensures Assessed(lines, catalog, jobs[..0], None, map[])
  {
    assert Elements(JobRefs(jobs[..0])) == {};
  }

  lemma ProfileIsGood(lines: seq<Line>, catalog: seq<string>, jobs: seq<Job>, profile: Option<Profile>,
                      ms: map<string, JobMatch>)
    requires Assessed(lines, catalog, jobs, profile, ms)
    ensures profile.Some? ==> GoodProfile(lines, catalog, profile.value)
    ensures jobs != [] ==> profile.Some?
    ensures ms.Keys == Elements(JobRefs(jobs))
  {
  }

  /** The covered jobs are a permutation of the requested ones exactly when no
      reference was requested twice. */
  lemma CoversEachOnce(matches: seq<JobMatch>, ms: map<string, JobMatch>, jobs: seq<Job>)
    requires Ranking(ms, matches) && ms.Keys == Elements(JobRefs(jobs))
    ensures multiset(Refs(matches)) == multiset(JobRefs(jobs)) <==> Distinct(JobRefs(jobs))
  {
    if Distinct(JobRefs(jobs)) {
      ListingsPermute(Refs(matches), JobRefs(jobs));
    } else if multiset(Refs(matches)) == multiset(JobRefs(jobs)) {
      DistinctPermutes(Refs(matches), JobRefs(jobs));
    }
  }
}
