/** The five-minute window of the idempotency cache over runs of the service: exactly
    which commits keep the promise an entry makes for its key, and two runs in which
    calls no more than thirty seconds in flight cut it short. */
module AllocationWindow {
  import opened Ordering
  import opened AllocationSnapshot
  import opened ReplayCache
  import opened AllocationReplay

  type Promise = Entry<Digest<Request>, Response>

  /** What a call about to commit would store. */
  function Offered(c: Call): Promise
    requires c.Computed?
  {
    Entry(c.hash, c.response, c.started)
  }

  lemma OtherHash(h: Digest<Request>) returns (other: Digest<Request>)
    ensures other != h
  {
    other := if h == Unrelated("a") then Unrelated("b") else Unrelated("a");
  }

  // ---------------------------------------------------------------- one step

  lemma OnlyCommitsTouchTheCache(s: Service, s': Service, t: nat)
    requires Step(s, s', t) && !Commit(s, s', t)
    ensures s'.cache == s.cache
  {
  }

  lemma CommitIsMayBecome(s: Service, s': Service, t: nat)
    requires Commit(s, s', t)
    ensures MayBecome(s.cache, s.calls[t].request.idempotencyKey, Offered(s.calls[t]), s'.cache)
  {
  }

  /** This commit leaves the guard of k standing. */
  ghost predicate Leaves(s: Service, s': Service, t: nat, k: string, e: Promise)
    requires t in s.calls && s.calls[t].Computed?
  {
    var key, f := s.calls[t].request.idempotencyKey, Offered(s.calls[t]);
    || Contested(s.cache, key, f)
    || (key == k && f.hash == e.hash && f.at >= e.at)
    || (key != k && k in s.cache && Fresh(s.cache[k], f.at) && !Dropped(s.cache, f, s'.cache, k))
  }

  /** For every commit step: the guard survives it if and only if the commit is refused;
      or, under k itself, has the same payload and started no earlier; or, under another
      key, finds k's entry alive and is not the one that drops it to make room. */
  lemma CommitKeepsTheGuard(s: Service, s': Service, t: nat, k: string, e: Promise)
    requires Commit(s, s', t) && Guards(s.cache, k, e)
    ensures Guards(s'.cache, k, e) <==> Leaves(s, s', t, k, e)
  {
    var other := OtherHash(e.hash);
    CommitIsMayBecome(s, s', t);
    GuardAfter(s.cache, s.calls[t].request.idempotencyKey, Offered(s.calls[t]), s'.cache, k, e, other);
  }

  /** And before the step: whichever way the commit goes the guard survives, if and only
      if the committing call spares it. */
  lemma GuardIsSafeFromACall(s: Service, t: nat, k: string, e: Promise)
    requires t in s.calls && s.calls[t].Computed? && Guards(s.cache, k, e)
    ensures (forall s' | Commit(s, s', t) :: Guards(s'.cache, k, e))
            <==> Spares(s.cache, s.calls[t].request.idempotencyKey, Offered(s.calls[t]), k, e)
  {
    var key, f := s.calls[t].request.idempotencyKey, Offered(s.calls[t]);
    var other := OtherHash(e.hash);
    GuardSurvivesExactly(s.cache, key, f, k, e, other);
    if Spares(s.cache, key, f, k, e) {
      forall s' | Commit(s, s', t) ensures Guards(s'.cache, k, e) {
        CommitIsMayBecome(s, s', t);
      }
    } else {
      var d :| MayBecome(s.cache, key, f, d) && !Guards(d, k, e);
      var s' := CommitTo(s, t, d);
      assert Commit(s, s', t);
    }
  }

  lemma CommitTo(s: Service, t: nat, d: Cache) returns (s': Service)
    requires t in s.calls && s.calls[t].Computed?
    requires MayBecome(s.cache, s.calls[t].request.idempotencyKey, Offered(s.calls[t]), d)
    ensures Commit(s, s', t) && s'.cache == d
  {
    var c := s.calls[t];
    if Contested(s.cache, c.request.idempotencyKey, Offered(c)) {
      s' := s.(calls := s.calls[t := Leaving(c.request, Failed(Conflict))]);
    } else {
      s' := s.(cache := d, calls := s.calls[t := Leaving(c.request, Done(c.response))]);
    }
  }

  // ---------------------------------------------------------------- whole runs

  /** The step, if it is a commit, leaves the guard standing. */
  ghost predicate StepLeaves(s: Service, s': Service, k: string, e: Promise) {
    forall t | Commit(s, s', t) :: Leaves(s, s', t, k, e)
  }

  lemma StepKeepsTheGuard(s: Service, s': Service, k: string, e: Promise)
    requires Next(s, s') && Guards(s.cache, k, e)
    ensures Guards(s'.cache, k, e) <==> StepLeaves(s, s', k, e)
  {
    hide Guards, Leaves, Step;
    var u :| Step(s, s', u);
    forall t | Commit(s, s', t) ensures Guards(s'.cache, k, e) <==> Leaves(s, s', t, k, e) {
      CommitKeepsTheGuard(s, s', t, k, e);
    }
    if !Commit(s, s', u) { OnlyCommitsTouchTheCache(s, s', u); }
  }

  /** Over any run: an entry's promise stands in every state from i to j if and only if
      every commit between them leaves it standing. */
  lemma TheWindowHoldsExactly(b: seq<Service>, i: nat, j: nat, k: string, e: Promise)
    requires Run(b) && i <= j < |b| && Guards(b[i].cache, k, e)
    ensures (forall m | i <= m <= j :: Guards(b[m].cache, k, e)) <==>
            forall m | i <= m < j :: StepLeaves(b[m], b[m+1], k, e)
  {
    hide Guards, StepLeaves;
    if forall m | i <= m < j :: StepLeaves(b[m], b[m+1], k, e) {
      forall m | i <= m <= j ensures Guards(b[m].cache, k, e) { GuardLasts(b, i, m, k, e); }
    }
    if forall m | i <= m <= j :: Guards(b[m].cache, k, e) {
      forall m | i <= m < j ensures StepLeaves(b[m], b[m+1], k, e) {
        assert Guards(b[m].cache, k, e) && Guards(b[m+1].cache, k, e);
        assert Next(b[m], b[m+1]);
        StepKeepsTheGuard(b[m], b[m+1], k, e);
      }
    }
  }

  lemma {:induction false} GuardLasts(b: seq<Service>, i: nat, j: nat, k: string, e: Promise)
    requires Run(b) && i <= j < |b| && Guards(b[i].cache, k, e)
    requires forall m | i <= m < j :: StepLeaves(b[m], b[m+1], k, e)
    ensures Guards(b[j].cache, k, e)
    decreases j - i
  {
    hide Guards, StepLeaves;
    if i < j {
      GuardLasts(b, i, j - 1, k, e);
      var m := j - 1;
      assert Next(b[m], b[m+1]) && StepLeaves(b[m], b[m+1], k, e);
      StepKeepsTheGuard(b[m], b[m+1], k, e);
    }
  }

  /** What the promise is worth: while it stands, a call of another payload that started
      within five minutes of the entry is refused, at its look-up and at its commit. */
  lemma GuardRefuses(s: Service, s': Service, t: nat, k: string, e: Promise)
    requires Guards(s.cache, k, e) && t in s.calls && s.calls[t].request.idempotencyKey == k
    requires s.calls[t].Arrived? || s.calls[t].Computed?
    requires s.calls[t].hash != e.hash && Fresh(e, s.calls[t].started)
    ensures LookUp(s, s', t) ==> s'.calls[t] == Finished(s.calls[t].request, Failed(Conflict))
    ensures Commit(s, s', t) ==> s'.calls[t] == Leaving(s.calls[t].request, Failed(Conflict)) && s'.cache == s.cache
  {
    assert Contested(s.cache, k, Entry(s.calls[t].hash, e.result, s.calls[t].started));
  }

  // ---------------------------------------------------------------- building a run

  function Last(b: seq<Service>): Service
    requires b != []
  {
    b[|b|-1]
  }

  lemma Extend(b: seq<Service>, s: Service, t: nat)
    requires Run(b) && Step(Last(b), s, t)
    ensures Run(b + [s])
  {
    var c := b + [s];
    forall i | 0 <= i < |c| - 1 ensures Next(c[i], c[i+1]) {
      if i < |b| - 1 {
        assert c[i] == b[i] && c[i+1] == b[i+1] && Next(b[i], b[i+1]);
      } else {
        assert c[i] == Last(b) && c[i+1] == s;
      }
    }
  }

  /** A request of one member and no demand, in canonical order, for which everything
      but its payload's name, its key and its time is fixed. */
  function Sample(taskId: string, key: string, at: int): Request {
    var member := Member(1, "c", "a", "q", 0, 0, 0, 0, "s", "h", Of([]), true, Instant("t", 0), [], [], []);
    var snapshot := Snapshot("s", Instant("t", at), "s", "e", "p", 0, 0, 0, 1, 0, [member], []);
    Request("p", "k", "d", taskId, key, Pin("", "", "", "", "", "", ""), Of(snapshot), snapshot, 30, 6)
  }

  lemma SampleIsValid(taskId: string, key: string, at: int)
    ensures var r := Sample(taskId, key, at);
      && Valid(r.snapshot) && HashOf(Of(r), r) && CanonicalFormOf(r.snapshot, r.snapshot)
  {
    var m := Sample(taskId, key, at).snapshot.members[0];
    assert multiset(m.tags) == multiset{} && Map(CodeOf, m.tags) == [] && Map(RefOf, m.tags) == [];
    assert ValidTags(m) && CanonicalMember(m);
  }

  lemma Arrives(b: seq<Service>, t: nat, taskId: string, key: string, at: int, started: int) returns (c: seq<Service>)
    requires Run(b) && t !in Last(b).calls && key != ""
    ensures Run(c) && |c| == |b| + 1 && b == c[..|b|]
    ensures var r := Sample(taskId, key, at);
      Last(c) == Last(b).(calls := Last(b).calls[t := Arrived(r, started, Of(r))])
  {
    var r := Sample(taskId, key, at);
    SampleIsValid(taskId, key, at);
    var s := Last(b).(calls := Last(b).calls[t := Arrived(r, started, Of(r))]);
    assert Arrive(Last(b), s, t, r, started, Of(r));
    Extend(b, s, t);
    c := b + [s];
  }

  /** The arrived call finds nothing to replay, takes a slot and computes its plan. */
  lemma Works(b: seq<Service>, t: nat, taskId: string, key: string, at: int, started: int) returns (c: seq<Service>)
    requires b != [] && var s := Last(b); var r := Sample(taskId, key, at);
      && Run(b) && t in s.calls && s.calls[t] == Arrived(r, started, Of(r)) && s.held < SLOTS
      && (key in s.cache ==> !Fresh(s.cache[key], started))
    requires at <= started <= at + 60 * SECOND
    ensures Run(c) && |c| == |b| + 3 && b == c[..|b|]
    ensures var r := Sample(taskId, key, at);
      Last(c) == Last(b).(held := Last(b).held + 1,
                          calls := Last(b).calls[t := Computed(r, started, Of(r), ResponseFor(r))])
  {
    var r := Sample(taskId, key, at);
    SampleIsValid(taskId, key, at);
    var s0 := Last(b);
    var s1 := s0.(calls := s0.calls[t := Queued(r, started, Of(r))]);
    assert LookUp(s0, s1, t);
    Extend(b, s1, t);
    var s2 := s1.(held := s1.held + 1, calls := s1.calls[t := Running(r, started, Of(r))]);
    assert Acquire(s1, s2, t);
    Extend(b + [s1], s2, t);
    var s3 := s2.(calls := s2.calls[t := Computed(r, started, Of(r), ResponseFor(r))]);
    assert Compute(s2, s3, t);
    Extend(b + [s1] + [s2], s3, t);
    c := b + [s1] + [s2] + [s3];
    assert s3.calls == s0.calls[t := Computed(r, started, Of(r), ResponseFor(r))];
  }

  lemma Commits(b: seq<Service>, t: nat, d: Cache) returns (c: seq<Service>)
    requires Run(b) && t in Last(b).calls && Last(b).calls[t].Computed?
    requires !Contested(Last(b).cache, Last(b).calls[t].request.idempotencyKey, Offered(Last(b).calls[t]))
    requires Stored(Last(b).cache, Last(b).calls[t].request.idempotencyKey, Offered(Last(b).calls[t]), d)
    ensures Run(c) && |c| == |b| + 1 && b == c[..|b|] && Commit(Last(b), Last(c), t)
    ensures var call := Last(b).calls[t];
      Last(c) == Last(b).(cache := d, calls := Last(b).calls[t := Leaving(call.request, Done(call.response))])
  {
    var s := CommitTo(Last(b), t, d);
    Extend(b, s, t);
    c := b + [s];
  }

  // ---------------------------------------------------------------- two runs

  const KEY := "k"
  const OTHER_KEY := "l"

  /** What a sample request stores when it commits. */
  ghost function Outcome(taskId: string, key: string, at: int, started: int): Promise {
    var r := Sample(taskId, key, at);
    Entry(Of(r), ResponseFor(r), started)
  }

  lemma OutcomesDiffer(a: string, b: string, key: string, at: int, later: int, started: int, soon: int)
    requires a != b
    ensures Outcome(a, key, at, started).hash != Outcome(b, key, later, soon).hash
    ensures Outcome(a, key, at, started).at == started
  {
    assert Sample(a, key, at).taskId != Sample(b, key, later).taskId;
  }

  /** A call from its arrival to its commit, alone in the cache but for one entry of its
      own key. */
  ghost predicate Waits(s: Service, t: nat, taskId: string, key: string, at: int, started: int) {
    var r := Sample(taskId, key, at);
    t in s.calls && s.calls[t] == Computed(r, started, Of(r), ResponseFor(r))
  }

  /** Nothing moved in the table of calls but call t. */
  ghost predicate OneMoved(s: Service, s': Service, t: nat) {
    t in s'.calls && s'.calls == s.calls[t := s'.calls[t]]
  }

  lemma OthersStay(s: Service, s': Service, t: nat, u: nat)
    requires OneMoved(s, s', t) && u != t && u in s.calls
    ensures u in s'.calls && s'.calls[u] == s.calls[u]
  {
  }

  lemma NotYet(s: Service, s': Service, t: nat, u: nat)
    requires OneMoved(s, s', t) && u != t && u !in s.calls
    ensures u !in s'.calls
  {
  }

  lemma Has(s: Service, t: nat, taskId: string, key: string, at: int, started: int)
    requires Waits(s, t, taskId, key, at, started)
    ensures t in s.calls
  {
  }

  lemma SameAt(a: seq<Service>, b: seq<Service>, c: seq<Service>, d: seq<Service>, i: nat)
    requires a <= b <= c <= d && i < |a|
    ensures a[i] == b[i] == c[i] == d[i]
  {
  }

  lemma Enters(b: seq<Service>, t: nat, taskId: string, key: string, at: int, started: int) returns (c: seq<Service>)
    requires Run(b) && t !in Last(b).calls && key != "" && Last(b).held < SLOTS
    requires key in Last(b).cache ==> !Fresh(Last(b).cache[key], started)
    requires at <= started <= at + 60 * SECOND
    ensures Run(c) && |b| < |c| && b <= c && Last(c).cache == Last(b).cache && Last(c).held == Last(b).held + 1
    ensures Waits(Last(c), t, taskId, key, at, started) && OneMoved(Last(b), Last(c), t)
  {
    var a := Arrives(b, t, taskId, key, at, started);
    c := Works(a, t, taskId, key, at, started);
  }

  lemma Finishes(b: seq<Service>, t: nat, taskId: string, key: string, at: int, started: int,
                 d: Cache) returns (c: seq<Service>)
    requires Run(b) && Waits(Last(b), t, taskId, key, at, started)
    requires !Contested(Last(b).cache, key, Outcome(taskId, key, at, started))
    requires Stored(Last(b).cache, key, Outcome(taskId, key, at, started), d)
    ensures Run(c) && |c| == |b| + 1 && b <= c && Commit(Last(b), Last(c), t) && Last(c).cache == d
    ensures Last(c).held == Last(b).held && Accepted(Last(c), t, taskId, key, at) && OneMoved(Last(b), Last(c), t)
  {
    c := Commits(b, t, d);
  }

  ghost predicate Accepted(s: Service, t: nat, taskId: string, key: string, at: int) {
    var r := Sample(taskId, key, at);
    t in s.calls && s.calls[t] == Leaving(r, Done(ResponseFor(r)))
  }

  /** Between states i and j the promise of e was broken: it stood at i, and at j a call
      of another payload, started within five minutes of e, commits. */
  ghost predicate Broken(b: seq<Service>, i: nat, j: nat, t: nat, e: Promise, taskId: string, at: int, started: int) {
    && Run(b) && i < j < |b| - 1 && KEY in b[i].cache && b[i].cache[KEY] == e && Guards(b[i].cache, KEY, e)
    && Outcome(taskId, KEY, at, started).hash != e.hash && Fresh(e, started)
    && Waits(b[j], t, taskId, KEY, at, started) && Commit(b[j], b[j+1], t) && Accepted(b[j+1], t, taskId, KEY, at)
  }

  /** The window cut short by a slower call of the same payload.  Call 0 starts at 400
      seconds and call 1, of the same request, at 429; call 1 commits first and call 0
      replaces its entry.  At 700 seconds call 2 brings another payload and commits,
      within five minutes of call 1. */
  lemma CutShortByReplacement()
    ensures exists b: seq<Service>, i: nat, j: nat ::
              Broken(b, i, j, 2, Outcome("a", KEY, 400 * SECOND, 429 * SECOND), "b", 700 * SECOND, 700 * SECOND)
  {
    hide Run, Guards, Waits, Outcome, Accepted, Commit, Stored, Sample, OneMoved;
    var e, f := Outcome("a", KEY, 400 * SECOND, 429 * SECOND), Outcome("a", KEY, 400 * SECOND, 400 * SECOND);
    var g := Outcome("b", KEY, 700 * SECOND, 700 * SECOND);
    SameOutcome("a", KEY, 400 * SECOND, 429 * SECOND, 400 * SECOND);
    SameOutcome("b", KEY, 700 * SECOND, 700 * SECOND, 700 * SECOND);
    OutcomesDiffer("a", "b", KEY, 400 * SECOND, 700 * SECOND, 429 * SECOND, 700 * SECOND);
    var b0 := Nothing();
    var b1 := Enters(b0, 0, "a", KEY, 400 * SECOND, 400 * SECOND);
    NotYet(Last(b0), Last(b1), 0, 1);
    NotYet(Last(b0), Last(b1), 0, 2);
    Has(Last(b1), 0, "a", KEY, 400 * SECOND, 400 * SECOND);
    var b2 := Enters(b1, 1, "a", KEY, 400 * SECOND, 429 * SECOND);
    StoredAlone(map[], KEY, e);
    var b3 := Finishes(b2, 1, "a", KEY, 400 * SECOND, 429 * SECOND, map[KEY := e]);
    var i := |b3| - 1;
    NotYet(Last(b1), Last(b2), 1, 2);
    NotYet(Last(b2), Last(b3), 1, 2);
    GuardIs(b3[i].cache, KEY, e, g.hash);
    StoredAlone(map[KEY := e], KEY, f);
    OthersStay(Last(b1), Last(b2), 1, 0);
    OthersStay(Last(b2), Last(b3), 1, 0);
    StillWaits(Last(b1), Last(b3), 0, "a", KEY, 400 * SECOND, 400 * SECOND);
    var b4 := Finishes(b3, 0, "a", KEY, 400 * SECOND, 400 * SECOND, map[KEY := f]);
    NotYet(Last(b3), Last(b4), 0, 2);
    var b5 := Enters(b4, 2, "b", KEY, 700 * SECOND, 700 * SECOND);
    var j := |b5| - 1;
    StoredAlone(map[KEY := f], KEY, g);
    var b := Finishes(b5, 2, "b", KEY, 700 * SECOND, 700 * SECOND, map[KEY := g]);
    SameAt(b3, b4, b5, b, i);
    assert Broken(b, i, j, 2, e, "b", 700 * SECOND, 700 * SECOND);
  }

  lemma Nothing() returns (b: seq<Service>)
    ensures Run(b) && Last(b) == Service(map[], 0, map[])
  {
    b := [Service(map[], 0, map[])];
  }

  lemma StillWaits(s: Service, s': Service, t: nat, taskId: string, key: string, at: int, started: int)
    requires Waits(s, t, taskId, key, at, started) && t in s'.calls && s'.calls[t] == s.calls[t]
    ensures Waits(s', t, taskId, key, at, started)
  {
  }

  lemma SameOutcome(taskId: string, key: string, at: int, started: int, soon: int)
    ensures Outcome(taskId, key, at, soon) == Outcome(taskId, key, at, started).(at := soon)
    ensures Outcome(taskId, key, at, started).at == started
  {
  }

  lemma StoredFirst(key: string, f: Promise)
    ensures Stored(map[], key, f, map[key := f]) && !Contested(map[], key, f)
  {
    StoredAlone(map[], key, f);
  }

  /** Into an empty cache, or over the one entry of the same key. */
  lemma StoredAlone(c: Cache, key: string, f: Promise)
    requires c.Keys <= {key}
    ensures Stored(c, key, f, map[key := f])
  {
    var live := Live(c, f.at);
    assert live.Keys <= {key};
    SubsetSize(live.Keys, {key});
    assert live[key := f] == map[key := f];
  }

  /** Instead of an expired entry of another key. */
  lemma StoredInstead(other: string, key: string, e: Promise, f: Promise)
    requires !Fresh(e, f.at) && key != other
    ensures Stored(map[other := e], key, f, map[key := f]) && !Contested(map[other := e], key, f)
  {
    assert Live(map[other := e], f.at) == map[];
  }

  /** Beside the one live entry of another key, or instead of an expired one. */
  lemma StoredBeside(c: Cache, other: string, key: string, f: Promise)
    requires c.Keys <= {other}
    ensures Stored(c, key, f, Live(c, f.at)[key := f])
  {
    assert Live(c, f.at).Keys <= {other};
    SubsetSize(Live(c, f.at).Keys, {other});
  }

  ghost predicate HasArrived(s: Service, t: nat, taskId: string, key: string, at: int, started: int) {
    var r := Sample(taskId, key, at);
    t in s.calls && s.calls[t] == Arrived(r, started, Of(r))
  }

  lemma ArrivesOnly(b: seq<Service>, t: nat, taskId: string, key: string, at: int,
                    started: int) returns (c: seq<Service>)
    requires Run(b) && t !in Last(b).calls && key != ""
    ensures Run(c) && |c| == |b| + 1 && b <= c && Last(c).cache == Last(b).cache && Last(c).held == Last(b).held
    ensures HasArrived(Last(c), t, taskId, key, at, started) && OneMoved(Last(b), Last(c), t)
  {
    c := Arrives(b, t, taskId, key, at, started);
  }

  lemma WorksLate(b: seq<Service>, t: nat, taskId: string, key: string, at: int, started: int) returns (c: seq<Service>)
    requires Run(b) && HasArrived(Last(b), t, taskId, key, at, started) && Last(b).held < SLOTS
    requires key in Last(b).cache ==> !Fresh(Last(b).cache[key], started)
    requires at <= started <= at + 60 * SECOND
    ensures Run(c) && |b| < |c| && b <= c && Last(c).cache == Last(b).cache
    ensures Waits(Last(c), t, taskId, key, at, started)
  {
    c := Works(b, t, taskId, key, at, started);
  }

  lemma StillArrived(s: Service, s': Service, t: nat, taskId: string, key: string, at: int, started: int)
    requires HasArrived(s, t, taskId, key, at, started) && t in s'.calls && s'.calls[t] == s.calls[t]
    ensures HasArrived(s', t, taskId, key, at, started)
  {
  }

  /** The window cut short by a sweep.  Call 0 stores its entry at 400 seconds.  Call 1,
      of another payload, starts at 695 but is slow to look up; call 2, under another
      key, starts at 701 and its commit sweeps the entry.  Call 1 then finds nothing,
      and commits within five minutes of call 0. */
  lemma CutShortBySweep()
    ensures exists b: seq<Service>, i: nat, j: nat ::
              Broken(b, i, j, 1, Outcome("a", KEY, 400 * SECOND, 400 * SECOND), "b", 695 * SECOND, 695 * SECOND)
  {
    hide Run, Guards, Waits, HasArrived, Outcome, Accepted, Commit, Stored, Sample;
    var e, g := Outcome("a", KEY, 400 * SECOND, 400 * SECOND), Outcome("b", KEY, 695 * SECOND, 695 * SECOND);
    SameOutcome("b", KEY, 695 * SECOND, 695 * SECOND, 695 * SECOND);
    OutcomesDiffer("a", "b", KEY, 400 * SECOND, 695 * SECOND, 400 * SECOND, 695 * SECOND);
    var b5, i := SweptAway();
    GuardIs(b5[i].cache, KEY, e, g.hash);
    var b6 := WorksLate(b5, 1, "b", KEY, 695 * SECOND, 695 * SECOND);
    var j := |b6| - 1;
    StoredBeside(Last(b6).cache, OTHER_KEY, KEY, g);
    var b := Finishes(b6, 1, "b", KEY, 695 * SECOND, 695 * SECOND, Live(Last(b6).cache, g.at)[KEY := g]);
    assert Broken(b, i, j, 1, e, "b", 695 * SECOND, 695 * SECOND);
  }

  lemma SweptAway() returns (b: seq<Service>, i: nat)
    ensures Run(b) && i < |b| - 1 && b[i].cache == map[KEY := Outcome("a", KEY, 400 * SECOND, 400 * SECOND)]
    ensures HasArrived(Last(b), 1, "b", KEY, 695 * SECOND, 695 * SECOND) && Last(b).held == 2
    ensures Last(b).cache.Keys == {OTHER_KEY}
  {
    hide Run, Waits, HasArrived, Outcome, Accepted, Commit, Stored, Contested, Sample, OneMoved;
    var e, f := Outcome("a", KEY, 400 * SECOND, 400 * SECOND), Outcome("c", OTHER_KEY, 701 * SECOND, 701 * SECOND);
    SameOutcome("a", KEY, 400 * SECOND, 400 * SECOND, 400 * SECOND);
    SameOutcome("c", OTHER_KEY, 701 * SECOND, 701 * SECOND, 701 * SECOND);
    var b0 := Nothing();
    var b1 := Enters(b0, 0, "a", KEY, 400 * SECOND, 400 * SECOND);
    StoredFirst(KEY, e);
    var b2 := Finishes(b1, 0, "a", KEY, 400 * SECOND, 400 * SECOND, map[KEY := e]);
    i := |b2| - 1;
    NotYet(Last(b0), Last(b1), 0, 1);
    NotYet(Last(b0), Last(b1), 0, 2);
    NotYet(Last(b1), Last(b2), 0, 1);
    NotYet(Last(b1), Last(b2), 0, 2);
    var b3 := ArrivesOnly(b2, 1, "b", KEY, 695 * SECOND, 695 * SECOND);
    NotYet(Last(b2), Last(b3), 1, 2);
    ArrivedHas(Last(b3), 1, "b", KEY, 695 * SECOND, 695 * SECOND);
    var b4 := Enters(b3, 2, "c", OTHER_KEY, 701 * SECOND, 701 * SECOND);
    StoredInstead(KEY, OTHER_KEY, e, f);
    b := Finishes(b4, 2, "c", OTHER_KEY, 701 * SECOND, 701 * SECOND, map[OTHER_KEY := f]);
    OthersStay(Last(b3), Last(b4), 2, 1);
    OthersStay(Last(b4), Last(b), 2, 1);
    StillArrived(Last(b3), Last(b), 1, "b", KEY, 695 * SECOND, 695 * SECOND);
    SameAt(b2, b3, b4, b, i);
  }

  lemma ArrivedHas(s: Service, t: nat, taskId: string, key: string, at: int, started: int)
    requires HasArrived(s, t, taskId, key, at, started)
    ensures t in s.calls
  {
  }
}
