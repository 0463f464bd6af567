/** Concurrent calls of the allocation service as atomic steps on a shared cache
    and a shared pool of slots.  Every interleaving of the steps is a run. */
module AllocationReplay {
  import opened AllocationSnapshot
  import opened AllocationPlan
  import opened AllocationTheorems
  import opened ReplayCache

  const SLOTS := 4
  const MIN_TOOL_CALLS := 6

  datatype Pin = Pin(pinId: string, kernelBuild: string, protocolVersion: string,
                     resultSchemaVersion: string, toolsetVersion: string, policyVersion: string,
                     instructionVersion: string)

  datatype Request = Request(protocolVersion: string, taskKind: string, executionMode: string,
                             taskId: string, idempotencyKey: string, pin: Pin,
                             snapshotHash: Digest<Snapshot>, snapshot: Snapshot,
                             maxDurationSeconds: int, maxToolCalls: int)

  datatype Heading = Heading(taskId: string, idempotencyKey: string, pin: Pin,
                             snapshotHash: Digest<Snapshot>, reused: bool)

  type Response = Sheet<Heading, Decision>

  /** What a call returns in memory, if anything. */
  type Reply = Answer?<Heading, Decision>

  type Replies = Store<Digest<Request>, Heading, Decision>

  datatype Failure = SnapshotInvalid | Conflict | Stale | BudgetExhausted | Interrupted | OutputInvalid

  type Cache = Held<Digest<Request>, Response>

  /** What a fresh run answers. */
  ghost function ResponseFor(r: Request): Response {
    Sheet(Heading(r.taskId, r.idempotencyKey, r.pin, r.snapshotHash, false), Allocation(r.snapshot))
  }

  function Marked(r: Response, reused: bool): Response { r.(head := r.head.(reused := reused)) }

  /** The idempotency hash: the whole request, its snapshot in canonical form.
      When keys repeat there may be several. */
  ghost predicate HashOf(h: Digest<Request>, r: Request) {
    && h.Of? && CanonicalFormOf(h.value.snapshot, r.snapshot)
    && h.value == r.(snapshot := h.value.snapshot)
  }

  predicate IsStale(r: Request, started: int) {
    || !r.snapshot.snapshotAt.Instant?
    || started - r.snapshot.snapshotAt.at > 60 * SECOND
    || r.snapshot.snapshotAt.at > started + 5 * SECOND
  }

  // ---------------------------------------------------------------- calls and steps

  datatype Outcome = Done(response: Response) | Replayed(response: Response) | Failed(failure: Failure)

  datatype Call =
    | Arrived(request: Request, started: int, hash: Digest<Request>)
    | Queued(request: Request, started: int, hash: Digest<Request>)
    | Running(request: Request, started: int, hash: Digest<Request>)
    | Computed(request: Request, started: int, hash: Digest<Request>, response: Response)
    | Leaving(request: Request, outcome: Outcome)
    | Finished(request: Request, outcome: Outcome)

  datatype Service = Service(cache: Cache, held: int, calls: map<nat, Call>)

  predicate HoldsSlot(c: Call) { c.Running? || c.Computed? || c.Leaving? }

  function Holders(calls: map<nat, Call>): set<nat> { set t | t in calls && HoldsSlot(calls[t]) }

  /** The envelope has been checked and hashed. */
  ghost predicate Arrive(s: Service, s': Service, t: nat, r: Request, started: int, h: Digest<Request>) {
    && t !in s.calls && r.idempotencyKey != "" && HashOf(h, r)
    && r.snapshotHash.Of? && CanonicalFormOf(r.snapshotHash.value, r.snapshot)
    && s' == s.(calls := s.calls[t := Arrived(r, started, h)])
  }

  function LookedUp(c: Cache, a: Call): Call
    requires a.Arrived?
  {
    var r := a.request;
    if r.idempotencyKey in c && Fresh(c[r.idempotencyKey], a.started) then
      if c[r.idempotencyKey].hash != a.hash then Finished(r, Failed(Conflict))
      else Finished(r, Replayed(Marked(c[r.idempotencyKey].result, true)))
    else if IsStale(r, a.started) then Finished(r, Failed(Stale))
    else if r.maxToolCalls < MIN_TOOL_CALLS then Finished(r, Failed(BudgetExhausted))
    else Queued(r, a.started, a.hash)
  }

  ghost predicate LookUp(s: Service, s': Service, t: nat) {
    && t in s.calls && s.calls[t].Arrived?
    && s' == s.(calls := s.calls[t := LookedUp(s.cache, s.calls[t])])
  }

  /** A full pool blocks the sender. */
  ghost predicate Acquire(s: Service, s': Service, t: nat) {
    && t in s.calls && s.calls[t].Queued? && s.held < SLOTS
    && var c := s.calls[t];
       s' == s.(held := s.held + 1, calls := s.calls[t := Running(c.request, c.started, c.hash)])
  }

  ghost predicate GiveUp(s: Service, s': Service, t: nat) {
    && t in s.calls && s.calls[t].Queued?
    && s' == s.(calls := s.calls[t := Finished(s.calls[t].request, Failed(Interrupted))])
  }

  /** The six steps, on private data. */
  ghost predicate Compute(s: Service, s': Service, t: nat) {
    && t in s.calls && s.calls[t].Running?
    && var c := s.calls[t];
       s' == s.(calls := s.calls[t :=
         if Valid(c.request.snapshot) then Computed(c.request, c.started, c.hash, ResponseFor(c.request))
         else Leaving(c.request, Failed(SnapshotInvalid))])
  }

  /** The context ends between two steps, or the response fails its schema. */
  ghost predicate Abort(s: Service, s': Service, t: nat, why: Failure) {
    && t in s.calls && (s.calls[t].Running? || s.calls[t].Computed?) && why in {Interrupted, OutputInvalid}
    && s' == s.(calls := s.calls[t := Leaving(s.calls[t].request, Failed(why))])
  }

  ghost predicate Commit(s: Service, s': Service, t: nat) {
    && t in s.calls && s.calls[t].Computed?
    && var c := s.calls[t]; var e := Entry(c.hash, c.response, c.started);
       if Contested(s.cache, c.request.idempotencyKey, e) then
         s' == s.(calls := s.calls[t := Leaving(c.request, Failed(Conflict))])
       else
         && Stored(s.cache, c.request.idempotencyKey, e, s'.cache)
         && s' == s.(cache := s'.cache, calls := s.calls[t := Leaving(c.request, Done(c.response))])
  }

  ghost predicate Release(s: Service, s': Service, t: nat) {
    && t in s.calls && s.calls[t].Leaving?
    && s' == s.(held := s.held - 1, calls := s.calls[t := Finished(s.calls[t].request, s.calls[t].outcome)])
  }

  ghost predicate Init(s: Service) { s == Service(map[], 0, map[]) }

  ghost predicate Step(s: Service, s': Service, t: nat) {
    || (exists r, started, h :: Arrive(s, s', t, r, started, h))
    || LookUp(s, s', t) || Acquire(s, s', t) || GiveUp(s, s', t) || Compute(s, s', t)
    || (exists why :: Abort(s, s', t, why)) || Commit(s, s', t) || Release(s, s', t)
  }

  ghost predicate Next(s: Service, s': Service) { exists t :: Step(s, s', t) }

  /** A run: a sequence of states, one atomic step of one call between two of them. */
  ghost predicate Run(b: seq<Service>) {
    && b != [] && Init(b[0])
    && forall i | 0 <= i < |b| - 1 :: Next(b[i], b[i+1])
  }

  // ---------------------------------------------------------------- invariants

  /** An entry holds what its own payload, a valid one, is answered. */
  ghost predicate SoundEntry(key: string, e: Entry<Digest<Request>, Response>) {
    && key != "" && e.hash.Of? && e.hash.value.idempotencyKey == key
    && Valid(e.hash.value.snapshot) && e.result == ResponseFor(e.hash.value)
  }

  ghost predicate AllSound(c: Cache) { forall k | k in c :: SoundEntry(k, c[k]) }

  /** A successful outcome is what a fresh run of the caller's own request gives. */
  ghost predicate SoundOutcome(r: Request, o: Outcome) {
    match o
    case Done(response) => Valid(r.snapshot) && response == ResponseFor(r)
    case Replayed(response) => Valid(r.snapshot) && response == Marked(ResponseFor(r), true)
    case Failed(_) => true
  }

  ghost predicate SoundCall(c: Call) {
    match c
    case Leaving(r, o) => SoundOutcome(r, o)
    case Finished(r, o) => SoundOutcome(r, o)
    case Computed(r, _, h, response) =>
      HashOf(h, r) && r.idempotencyKey != "" && Valid(r.snapshot) && response == ResponseFor(r)
    case _ => HashOf(c.hash, c.request) && c.request.idempotencyKey != ""
  }

  ghost predicate Inv(s: Service) {
    && |s.cache| <= CAPACITY
    && s.held == |Holders(s.calls)| <= SLOTS
    && AllSound(s.cache)
    && (forall t | t in s.calls :: SoundCall(s.calls[t]))
  }

  lemma HoldersAfter(calls: map<nat, Call>, t: nat, c: Call)
    ensures |Holders(calls[t := c])| == |Holders(calls)| + (if HoldsSlot(c) then 1 else 0)
                                        - (if t in calls && HoldsSlot(calls[t]) then 1 else 0)
  {
    var before, after := Holders(calls), Holders(calls[t := c]);
    assert t in before <==> t in calls && HoldsSlot(calls[t]);
    assert after == if HoldsSlot(c) then before + {t} else before - {t};
  }

  /** The heart of replay: equal hashes mean equal plans, even for callers whose
      request was sent in another order and never checked. */
  lemma EqualHashesReplay(key: string, e: Entry<Digest<Request>, Response>, r: Request, h: Digest<Request>)
    requires SoundEntry(key, e) && HashOf(h, r) && h == e.hash
    ensures Valid(r.snapshot) && e.result == ResponseFor(r)
  {
    TransportOrderIsIrrelevant(h.value.snapshot, r.snapshot);
    assert h.value == r.(snapshot := h.value.snapshot);
  }

  lemma HashIsSound(r: Request, h: Digest<Request>, at: int)
    requires HashOf(h, r) && Valid(r.snapshot) && r.idempotencyKey != ""
    ensures SoundEntry(r.idempotencyKey, Entry(h, ResponseFor(r), at))
  {
    TransportOrderIsIrrelevant(r.snapshot, h.value.snapshot);
    assert h.value == r.(snapshot := h.value.snapshot);
  }

  lemma LookUpIsSound(c: Cache, r: Request, started: int, h: Digest<Request>)
    requires HashOf(h, r)
    requires r.idempotencyKey in c ==> SoundEntry(r.idempotencyKey, c[r.idempotencyKey])
    ensures var next := LookedUp(c, Arrived(r, started, h));
            next == Queued(r, started, h) || (next.Finished? && next.request == r && SoundOutcome(r, next.outcome))
  {
    var key := r.idempotencyKey;
    if key in c && Fresh(c[key], started) && c[key].hash == h { EqualHashesReplay(key, c[key], r, h); }
  }

  lemma StoringKeepsEntries(c: Cache, d: Cache, a: Call)
    requires a.Computed? && SoundCall(a) && |c| <= CAPACITY
    requires AllSound(c)
    requires Stored(c, a.request.idempotencyKey, Entry(a.hash, a.response, a.started), d)
    ensures |d| <= CAPACITY && AllSound(d)
  {
    var key, e := a.request.idempotencyKey, Entry(a.hash, a.response, a.started);
    HashIsSound(a.request, a.hash, a.started);
    StoringIsSafe(c, key, e, d);
    forall k | k in d ensures SoundEntry(k, d[k]) {
      if k != key { assert k in c && d[k] == c[k]; }
    }
  }

  /** One call moves on, the rest stay as they are. */
  lemma OneCallMoves(s: Service, s': Service, t: nat, c: Call)
    requires Inv(s) && s'.calls == s.calls[t := c] && SoundCall(c)
    requires |s'.cache| <= CAPACITY && AllSound(s'.cache)
    requires s'.held == s.held + (if HoldsSlot(c) then 1 else 0)
                       - (if t in s.calls && HoldsSlot(s.calls[t]) then 1 else 0)
    requires s'.held <= SLOTS
    ensures Inv(s')
  {
    HoldersAfter(s.calls, t, c);
    forall u | u in s'.calls ensures SoundCall(s'.calls[u]) {
      if u != t { assert s'.calls[u] == s.calls[u]; }
    }
  }

  lemma CommitKeepsInv(s: Service, s': Service, t: nat)
    requires Inv(s) && Commit(s, s', t)
    ensures Inv(s')
  {
    var c := s.calls[t];
    var e := Entry(c.hash, c.response, c.started);
    assert SoundCall(c);
    if Contested(s.cache, c.request.idempotencyKey, e) {
      OneCallMoves(s, s', t, Leaving(c.request, Failed(Conflict)));
    } else {
      StoringKeepsEntries(s.cache, s'.cache, c);
      OneCallMoves(s, s', t, Leaving(c.request, Done(c.response)));
    }
  }

  lemma ArriveKeepsInv(s: Service, s': Service, t: nat, r: Request, started: int, h: Digest<Request>)
    requires Inv(s) && Arrive(s, s', t, r, started, h)
    ensures Inv(s')
  {
    OneCallMoves(s, s', t, Arrived(r, started, h));
  }

  lemma LookUpKeepsInv(s: Service, s': Service, t: nat)
    requires Inv(s) && LookUp(s, s', t)
    ensures Inv(s')
  {
    var a := s.calls[t];
    assert SoundCall(a);
    LookUpIsSound(s.cache, a.request, a.started, a.hash);
    OneCallMoves(s, s', t, LookedUp(s.cache, a));
  }

  lemma PoolKeepsInv(s: Service, s': Service, t: nat)
    requires Inv(s) && (Acquire(s, s', t) || GiveUp(s, s', t) || Release(s, s', t))
    ensures Inv(s')
  {
    assert SoundCall(s.calls[t]);
    OneCallMoves(s, s', t, s'.calls[t]);
  }

  lemma ComputeKeepsInv(s: Service, s': Service, t: nat)
    requires Inv(s) && Compute(s, s', t)
    ensures Inv(s')
  {
    var c := s.calls[t];
    assert SoundCall(c);
    if Valid(c.request.snapshot) {
      OneCallMoves(s, s', t, Computed(c.request, c.started, c.hash, ResponseFor(c.request)));
    } else {
      OneCallMoves(s, s', t, Leaving(c.request, Failed(SnapshotInvalid)));
    }
  }

  lemma AbortKeepsInv(s: Service, s': Service, t: nat, why: Failure)
    requires Inv(s) && Abort(s, s', t, why)
    ensures Inv(s')
  {
    OneCallMoves(s, s', t, Leaving(s.calls[t].request, Failed(why)));
  }

  lemma StepKeepsInv(s: Service, s': Service, t: nat)
    requires Inv(s) && Step(s, s', t)
    ensures Inv(s')
  {
    if Commit(s, s', t) {
      CommitKeepsInv(s, s', t);
    } else if LookUp(s, s', t) {
      LookUpKeepsInv(s, s', t);
    } else if Acquire(s, s', t) || GiveUp(s, s', t) || Release(s, s', t) {
      PoolKeepsInv(s, s', t);
    } else if Compute(s, s', t) {
      ComputeKeepsInv(s, s', t);
    } else if exists why :: Abort(s, s', t, why) {
      var why :| Abort(s, s', t, why);
      AbortKeepsInv(s, s', t, why);
    } else {
      var r, started, h :| Arrive(s, s', t, r, started, h);
      ArriveKeepsInv(s, s', t, r, started, h);
    }
  }

  /** In every interleaving, at every moment: the cache and the pool stay within
      their limits, a slot is held by exactly the calls still working, and every
      response returned, fresh or replayed, carries the decisions a fresh run on
      the caller's own request would produce. */
  lemma {:induction false} EveryRunIsCoherent(b: seq<Service>, i: nat)
    requires Run(b) && i < |b|
    ensures Inv(b[i])
  {
    if i > 0 {
      EveryRunIsCoherent(b, i - 1);
      assert Next(b[i-1], b[i-1+1]);
      var t :| Step(b[i-1], b[i], t);
      StepKeepsInv(b[i-1], b[i], t);
    }
  }

  /** When every call has finished, no slot is held. */
  lemma SlotsComeBack(b: seq<Service>, i: nat)
    requires Run(b) && i < |b| && forall t | t in b[i].calls ::
               b[i].calls[t].Arrived? || b[i].calls[t].Queued? || b[i].calls[t].Finished?
    ensures b[i].held == 0
  {
    EveryRunIsCoherent(b, i);
    assert Holders(b[i].calls) == {};
  }

  /** A committing call that finds a live entry of another payload fails and leaves
      the cache alone; otherwise every other entry it leaves was there before. */
  lemma CommitRespectsOthers(s: Service, s': Service, t: nat, k: string)
    requires Inv(s) && Commit(s, s', t) && k in s.cache && k in s'.cache && s'.cache[k] != s.cache[k]
    ensures k == s.calls[t].request.idempotencyKey
    ensures Fresh(s.cache[k], s.calls[t].started) ==> s.cache[k].hash == s'.cache[k].hash
  {
    var c := s.calls[t];
    var e := Entry(c.hash, c.response, c.started);
    if !Contested(s.cache, c.request.idempotencyKey, e) {
      StoringIsSafe(s.cache, c.request.idempotencyKey, e, s'.cache);
    }
  }
}
