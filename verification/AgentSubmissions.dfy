/** What an agent may submit about a candidate, when it is accepted, what is then
    stored, and how the stored job matches rank. */
module AgentSubmissions {
  import opened Ordering
  import opened PipelineText
  import opened AgentEvidence

  datatype Claim = Claim(kind: string, summary: string, evidence: seq<Evidence>)

  datatype TagClaim = TagClaim(code: string, confidence: real, status: string, evidence: seq<Evidence>)

  datatype Profile = Profile(sourceText: string, claims: seq<Claim>, risks: seq<string>, tags: seq<TagClaim>)

  datatype Dimensions = Dimensions(major: real, skills: real, experience: real, requirement: real, quality: real)

  datatype JobMatch = JobMatch(jobRef: string, dimensions: Dimensions, confidence: real, evidence: seq<Evidence>,
                               risks: seq<string>, reason: string, score: real, rank: int)

  datatype Job = Job(ref: string, contentHash: string)

  const MAX_CLAIMS := 100
  const KINDS := {"education", "project", "internship", "skill", "certificate", "major_direction", "agent_experience", "risk"}
  const EXPERIENCE := {"project", "internship", "skill"}
  const SUPPORTED := "supported"
  const UNSURE := "needs_verification"
  const INCOMPLETE := "profile_incomplete"
  const CERTAIN := 0.8
  const ENOUGH_TEXT := 200

  predicate Unit(x: real) { 0.0 <= x <= 1.0 }

  // ---------------------------------------------------------------- profiles

  predicate ClaimOk(lines: seq<Line>, c: Claim) {
    c.kind in KINDS && !Blank(c.summary) && AllVerified(lines, c.evidence)
  }

  predicate TagOk(lines: seq<Line>, catalog: seq<string>, tags: seq<TagClaim>, i: nat)
    requires i < |tags|
  {
    && tags[i].code in catalog && (forall k | 0 <= k < i :: tags[k].code != tags[i].code)
    && Unit(tags[i].confidence) && tags[i].status in {SUPPORTED, UNSURE} && AllVerified(lines, tags[i].evidence)
  }

  predicate ClaimsOk(lines: seq<Line>, cs: seq<Claim>) { forall i | 0 <= i < |cs| :: ClaimOk(lines, cs[i]) }

  predicate TagsOk(lines: seq<Line>, catalog: seq<string>, ts: seq<TagClaim>) {
    forall i | 0 <= i < |ts| :: TagOk(lines, catalog, ts, i)
  }

  predicate ProfileOk(lines: seq<Line>, catalog: seq<string>, p: Profile) {
    1 <= |p.claims| <= MAX_CLAIMS && ClaimsOk(lines, p.claims) && TagsOk(lines, catalog, p.tags)
  }

  /** p is the first thing wrong with claim i, all before it being sound. */
  ghost predicate ClaimBlamed(lines: seq<Line>, cs: seq<Claim>, i: int, p: Problem)
    requires 0 <= i < |cs|
  {
    var at := [Field("claims"), Index(i)];
    && ClaimsOk(lines, cs[..i])
    && if cs[i].kind !in KINDS then p == Problem("claim_kind", at + [Field("kind")])
       else if Blank(cs[i].summary) then p == Problem("summary_required", at + [Field("summary")])
       else EvidenceBlamed(lines, cs[i].evidence, at + [Field("evidence")], p)
  }

  ghost predicate TagBlamed(lines: seq<Line>, catalog: seq<string>, ts: seq<TagClaim>, i: int, p: Problem)
    requires 0 <= i < |ts|
  {
    var at := [Field("tags"), Index(i)];
    && (forall k | 0 <= k < i :: TagOk(lines, catalog, ts, k))
    && if ts[i].code !in catalog || exists k | 0 <= k < i :: ts[k].code == ts[i].code then
         p == Problem("tag_code", at + [Field("code")])
       else if !Unit(ts[i].confidence) then p == Problem("confidence_range", at + [Field("confidence")])
       else if ts[i].status !in {SUPPORTED, UNSURE} then p == Problem("tag_status", at + [Field("status")])
       else EvidenceBlamed(lines, ts[i].evidence, at + [Field("evidence")], p)
  }

  ghost predicate ProfileBlamed(lines: seq<Line>, catalog: seq<string>, profile: Profile, p: Problem) {
    if !(1 <= |profile.claims| <= MAX_CLAIMS) then p == Problem("claims_required", [Field("claims")])
    else if !ClaimsOk(lines, profile.claims) then
      exists i | 0 <= i < |profile.claims| :: ClaimBlamed(lines, profile.claims, i, p)
    else exists i | 0 <= i < |profile.tags| :: TagBlamed(lines, catalog, profile.tags, i, p)
  }

  /** A tag short of certainty is never left as supported. */
  function Settle(t: TagClaim): TagClaim { if t.confidence < CERTAIN then t.(status := UNSURE) else t }

  function Characters(lines: seq<Line>): nat {
    if lines == [] then 0 else Characters(lines[..|lines|-1]) + |TrimSpace(lines[|lines|-1].text)|
  }

  predicate Thin(lines: seq<Line>, p: Profile) {
    Characters(lines) < ENOUGH_TEXT || forall c | c in p.claims :: c.kind !in EXPERIENCE
  }

  /** What is kept of an accepted profile. */
  function Settled(lines: seq<Line>, p: Profile): Profile {
    p.(tags := Map(Settle, p.tags), risks := if Thin(lines, p) then p.risks + [INCOMPLETE] else p.risks)
  }

  /** What every stored profile is. */
  predicate GoodProfile(lines: seq<Line>, catalog: seq<string>, p: Profile) {
    && ProfileOk(lines, catalog, p)
    && (forall t | t in p.tags :: t.status == SUPPORTED ==> t.confidence >= CERTAIN)
    && (Thin(lines, p) ==> INCOMPLETE in p.risks)
  }

  lemma SettledIsGood(lines: seq<Line>, catalog: seq<string>, p: Profile)
    requires ProfileOk(lines, catalog, p)
    ensures GoodProfile(lines, catalog, Settled(lines, p))
  {
    var q := Settled(lines, p);
    forall i | 0 <= i < |q.tags| ensures TagOk(lines, catalog, q.tags, i) {
      assert TagOk(lines, catalog, p.tags, i);
    }
  }

  // ---------------------------------------------------------------- matches

  predicate DimensionsOk(d: Dimensions) {
    Unit(d.major) && Unit(d.skills) && Unit(d.experience) && Unit(d.requirement) && Unit(d.quality)
  }

  predicate MatchOk(jobs: map<string, Job>, stored: set<string>, lines: seq<Line>, batch: seq<JobMatch>, i: nat)
    requires i < |batch|
  {
    && batch[i].jobRef in jobs && batch[i].jobRef !in stored
    && (forall k | 0 <= k < i :: batch[k].jobRef != batch[i].jobRef)
    && DimensionsOk(batch[i].dimensions) && Unit(batch[i].confidence) && !Blank(batch[i].reason)
    && AllVerified(lines, batch[i].evidence)
  }

  predicate BatchOk(jobs: map<string, Job>, stored: set<string>, lines: seq<Line>, batch: seq<JobMatch>) {
    forall i | 0 <= i < |batch| :: MatchOk(jobs, stored, lines, batch, i)
  }

  ghost predicate MatchBlamed(jobs: map<string, Job>, stored: set<string>, lines: seq<Line>, batch: seq<JobMatch>,
                              i: int, p: Problem)
    requires 0 <= i < |batch|
  {
    var at, m := [Field("matches"), Index(i)], batch[i];
    && (forall k | 0 <= k < i :: MatchOk(jobs, stored, lines, batch, k))
    && if m.jobRef !in jobs then p == Problem("job_scope", at + [Field("job_ref")])
       else if m.jobRef in stored || exists k | 0 <= k < i :: batch[k].jobRef == m.jobRef then
         p == Problem("match_already_submitted", at + [Field("job_ref")])
       else if !DimensionsOk(m.dimensions) then p == Problem("dimensions_range", at + [Field("dimensions")])
       else if !Unit(m.confidence) then p == Problem("confidence_range", at + [Field("confidence")])
       else if Blank(m.reason) then p == Problem("reason_required", at + [Field("reason")])
       else EvidenceBlamed(lines, m.evidence, at + [Field("evidence")], p)
  }

  const QUALITY_CAP := 0.35

  function Capped(d: Dimensions, incomplete: bool): Dimensions {
    if incomplete && d.quality > QUALITY_CAP then d.(quality := QUALITY_CAP) else d
  }

  function Weighted(d: Dimensions): real {
    d.major * 0.30 + d.skills * 0.20 + d.experience * 0.25 + d.requirement * 0.15 + d.quality * 0.10
  }

  /** To the nearest integer, halves away from zero. */
  function Round(x: real): int { if x >= 0.0 then (x + 0.5).Floor else -((0.5 - x).Floor) }

  function Score(d: Dimensions): real { Round(Weighted(d) * 10000.0) as real / 10000.0 }

  function Scored(m: JobMatch, incomplete: bool): JobMatch {
    var d := Capped(m.dimensions, incomplete);
    m.(dimensions := d, score := Score(d), rank := 0)
  }

  /** What every stored match is. */
  predicate GoodMatch(jobs: map<string, Job>, lines: seq<Line>, incomplete: bool, ref: string, m: JobMatch) {
    && m.jobRef == ref && ref in jobs && DimensionsOk(m.dimensions) && Unit(m.confidence) && !Blank(m.reason)
    && AllVerified(lines, m.evidence) && m.score == Score(m.dimensions) && m.rank == 0
    && (incomplete ==> m.dimensions.quality <= QUALITY_CAP)
  }

  predicate GoodMatches(jobs: map<string, Job>, lines: seq<Line>, incomplete: bool, ms: map<string, JobMatch>) {
    ms.Keys <= jobs.Keys && forall ref | ref in ms :: GoodMatch(jobs, lines, incomplete, ref, ms[ref])
  }

  function Added(ms: map<string, JobMatch>, batch: seq<JobMatch>, incomplete: bool): map<string, JobMatch> {
    if batch == [] then ms
    else
      var m := batch[|batch|-1];
      Added(ms, batch[..|batch|-1], incomplete)[m.jobRef := Scored(m, incomplete)]
  }

  function Refs(r: seq<JobMatch>): seq<string> { Map((m: JobMatch) => m.jobRef, r) }

  lemma RefsAppend(list: seq<JobMatch>, m: JobMatch)
    ensures Refs(list + [m]) == Refs(list) + [m.jobRef]
    ensures Elements(Refs(list + [m])) == Elements(Refs(list)) + {m.jobRef}
    ensures Distinct(Refs(list)) && m.jobRef !in Elements(Refs(list)) ==> Distinct(Refs(list + [m]))
  {
    assert Refs(list + [m]) == Refs(list) + [m.jobRef];
  }

  lemma BatchPrefix(jobs: map<string, Job>, stored: set<string>, lines: seq<Line>, batch: seq<JobMatch>)
    requires batch != [] && BatchOk(jobs, stored, lines, batch)
    ensures BatchOk(jobs, stored, lines, batch[..|batch|-1])
    ensures batch[|batch|-1].jobRef !in Elements(Refs(batch[..|batch|-1]))
  {
    var n := |batch| - 1;
    assert MatchOk(jobs, stored, lines, batch, n);
    forall i | 0 <= i < n ensures MatchOk(jobs, stored, lines, batch[..n], i) {
      assert MatchOk(jobs, stored, lines, batch, i);
    }
  }

  /** Adding an accepted batch keeps what was there and stores each match scored. */
  lemma {:induction false} AddedIsGood(jobs: map<string, Job>, lines: seq<Line>, incomplete: bool,
                                       ms: map<string, JobMatch>, batch: seq<JobMatch>)
    requires GoodMatches(jobs, lines, incomplete, ms) && BatchOk(jobs, ms.Keys, lines, batch)
    ensures GoodMatches(jobs, lines, incomplete, Added(ms, batch, incomplete))
  {
    if batch != [] {
      var m := batch[|batch|-1];
      assert MatchOk(jobs, ms.Keys, lines, batch, |batch| - 1);
      BatchPrefix(jobs, ms.Keys, lines, batch);
      AddedIsGood(jobs, lines, incomplete, ms, batch[..|batch|-1]);
      assert GoodMatch(jobs, lines, incomplete, m.jobRef, Scored(m, incomplete));
    }
  }

  lemma BatchIsNew(jobs: map<string, Job>, stored: set<string>, lines: seq<Line>, batch: seq<JobMatch>)
    requires BatchOk(jobs, stored, lines, batch)
    ensures Distinct(Refs(batch)) && Elements(Refs(batch)) !! stored
  {
    forall i | 0 <= i < |batch| ensures Refs(batch)[i] !in stored && forall k | 0 <= k < i :: Refs(batch)[k] != Refs(batch)[i] {
      assert MatchOk(jobs, stored, lines, batch, i);
    }
  }

  lemma {:induction false} AddedKeeps(incomplete: bool, ms: map<string, JobMatch>, batch: seq<JobMatch>)
    requires Elements(Refs(batch)) !! ms.Keys
    ensures Added(ms, batch, incomplete).Keys == ms.Keys + Elements(Refs(batch))
    ensures forall ref | ref in ms :: Added(ms, batch, incomplete)[ref] == ms[ref]
  {
    if batch != [] {
      var rest, m := batch[..|batch|-1], batch[|batch|-1];
      assert batch == rest + [m];
      RefsAppend(rest, m);
      AddedKeeps(incomplete, ms, rest);
    }
  }

  /** Each match of the batch is stored scored. */
  lemma {:induction false} AddedHolds(incomplete: bool, ms: map<string, JobMatch>, batch: seq<JobMatch>, i: nat)
    requires Distinct(Refs(batch)) && Elements(Refs(batch)) !! ms.Keys && i < |batch|
    ensures batch[i].jobRef in Added(ms, batch, incomplete)
    ensures Added(ms, batch, incomplete)[batch[i].jobRef] == Scored(batch[i], incomplete)
  {
    var n := |batch| - 1;
    if i < n {
      var rest, m := batch[..n], batch[n];
      assert batch == rest + [m];
      RefsAppend(rest, m);
      assert Refs(batch)[i] != Refs(batch)[n];
      AddedHolds(incomplete, ms, rest, i);
    }
  }

  predicate Dominated(a: Dimensions, b: Dimensions) {
    && a.major <= b.major && a.skills <= b.skills && a.experience <= b.experience
    && a.requirement <= b.requirement && a.quality <= b.quality
  }

  /** Rounding keeps order and moves a value by at most half a unit. */
  lemma RoundIsNear(x: real, y: real)
    ensures -0.5 <= Round(x) as real - x <= 0.5
    ensures x <= y ==> Round(x) <= Round(y)
  {
    if x <= y && x < 0.0 && y >= 0.0 {
      assert (0.5 - x).Floor >= 0 && (y + 0.5).Floor >= 0;
    }
  }

  /** Scores lie between zero and one, are the weighted mean to four places, and
      never fall when a dimension rises. */
  lemma ScoresAreFair(a: Dimensions, b: Dimensions)
    requires DimensionsOk(a) && DimensionsOk(b)
    ensures Unit(Score(a)) && Unit(Weighted(a))
    ensures -0.00005 <= Score(a) - Weighted(a) <= 0.00005
    ensures Dominated(a, b) ==> Score(a) <= Score(b)
  {
    RoundIsNear(Weighted(a) * 10000.0, Weighted(b) * 10000.0);
    RoundIsNear(Weighted(a) * 10000.0, 10000.0);
    RoundIsNear(0.0, Weighted(a) * 10000.0);
  }

  /** An incomplete profile holds every score below this. */
  lemma IncompleteIsCapped(m: JobMatch)
    requires DimensionsOk(m.dimensions)
    ensures Scored(m, true).score <= 0.935 && Scored(m, true).score <= Scored(m, false).score
  {
    var top := Dimensions(1.0, 1.0, 1.0, 1.0, QUALITY_CAP);
    assert Weighted(top) == 0.935;
    assert Score(top) == 0.935;
    ScoresAreFair(Capped(m.dimensions, true), top);
    ScoresAreFair(Capped(m.dimensions, true), m.dimensions);
  }

  // ---------------------------------------------------------------- ranking

  predicate Better(a: JobMatch, b: JobMatch) {
    if a.score == b.score then StringLess(a.jobRef, b.jobRef) else a.score > b.score
  }

  lemma BetterIsStrict()
    ensures StrictOrder(Better)
  {
    StringLessTotal();
    forall x, y ensures Better(x, y) ==> !Better(y, x) {
      if Better(x, y) && x.score == y.score { assert !StringLess(y.jobRef, x.jobRef); }
    }
    forall x, y, z ensures Better(x, z) ==> Better(x, y) || Better(y, z) {
      if x.score == y.score == z.score && Better(x, z) {
        assert StringLess(x.jobRef, y.jobRef) || StringLess(y.jobRef, z.jobRef);
      }
    }
  }

  function Unranked(m: JobMatch): JobMatch { m.(rank := 0) }

  predicate Keyed(ms: map<string, JobMatch>) {
    forall ref | ref in ms :: ms[ref].jobRef == ref && ms[ref].rank == 0
  }

  /** r lists every stored match once, from best to worst, ties by reference, and
      numbers them from one. */
  ghost predicate Ranking(ms: map<string, JobMatch>, r: seq<JobMatch>) {
    && Elements(Refs(r)) == ms.Keys && Distinct(Refs(r))
    && (forall i | 0 <= i < |r| :: r[i].rank == i + 1 && r[i].jobRef in ms && Unranked(r[i]) == ms[r[i].jobRef])
    && (forall i, j | 0 <= i < j < |r| :: Better(r[i], r[j]))
  }

  /** Sorted by Better, the values of a keyed map cannot come out in two orders. */
  lemma RankingIsUnique(ms: map<string, JobMatch>, a: seq<JobMatch>, b: seq<JobMatch>)
    requires Keyed(ms) && Ranking(ms, a) && Ranking(ms, b)
    ensures a == b
  {
    BetterIsStrict();
    ValuesOfRefs(ms, a, b);
    UnrankedIsSorted(ms, a);
    UnrankedIsSorted(ms, b);
    var x, y := Map(Unranked, a), Map(Unranked, b);
    SortedIsUnique(x, y, Better);
    forall i | 0 <= i < |a| ensures a[i] == b[i] { assert x[i] == y[i]; }
  }

  lemma UnrankedIsSorted(ms: map<string, JobMatch>, a: seq<JobMatch>)
    requires Ranking(ms, a)
    ensures Ascending(Map(Unranked, a), Better) && Separated(Map(Unranked, a), Better)
  {
    BetterIsStrict();
    var x := Map(Unranked, a);
    forall i, j | 0 <= i < j < |x| ensures Better(x[i], x[j]) && !Better(x[j], x[i]) { assert Better(a[i], a[j]); }
    forall m, n | m in x && n in x && m != n ensures Better(m, n) || Better(n, m) {
      var i :| 0 <= i < |x| && x[i] == m;
      var j :| 0 <= j < |x| && x[j] == n;
      if i < j { assert Better(x[i], x[j]); } else { assert Better(x[j], x[i]); }
    }
  }

  lemma SameRefs(ms: map<string, JobMatch>, a: seq<JobMatch>, b: seq<JobMatch>)
    requires Ranking(ms, a) && Ranking(ms, b)
    ensures multiset(Refs(a)) == multiset(Refs(b))
  {
    ListingsPermute(Refs(a), Refs(b));
  }

  function Stored(ms: map<string, JobMatch>, ref: string): JobMatch {
    if ref in ms then ms[ref] else JobMatch("", Dimensions(0.0, 0.0, 0.0, 0.0, 0.0), 0.0, [], [], "", 0.0, 0)
  }

  lemma ValuesOfRefs(ms: map<string, JobMatch>, a: seq<JobMatch>, b: seq<JobMatch>)
    requires Ranking(ms, a) && Ranking(ms, b)
    ensures multiset(Map(Unranked, a)) == multiset(Map(Unranked, b))
  {
    SameRefs(ms, a, b);
    var at := (ref: string) => Stored(ms, ref);
    MapPermutes(at, Refs(a), Refs(b));
    assert Map(at, Refs(a)) == Map(Unranked, a);
    assert Map(at, Refs(b)) == Map(Unranked, b);
  }
}
