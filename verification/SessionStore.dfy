/** The single-flight session store as a concurrent protocol.  A caller enters under
    the lock, and either owns a new entry, waits on one of equal hash, or leaves at
    once; owners publish under the lock; waiters wake or give up.  Every
    interleaving of these steps is a run. */
module SessionProtocol {
  import opened Ordering

  const CAPACITY := 1000
  const HOUR := 3_600_000_000_000

  datatype Progress<V> = Pending | Ended(verdict: V)

  /** `owner` is the caller that created the entry. */
  datatype Entry<V> = Entry(key: string, hash: string, created: int, owner: nat, progress: Progress<V>)

  datatype Caller<V> =
    | Running(id: nat)
    | Waiting(id: nat, key: string, hash: string)
    | Ran(id: nat, verdict: V)
    | Shared(id: nat, key: string, hash: string, verdict: V)
    | Conflicted
    | Cancelled
    | TurnedAway

  /** Entries live on after they leave the map: waiters still hold them. */
  datatype Store<V> = Store(entries: map<string, nat>, heap: map<nat, Entry<V>>, callers: map<nat, Caller<V>>)

  ghost predicate Init<V>(s: Store<V>) { s == Store(map[], map[], map[]) }

  predicate Expired<V>(e: Entry<V>, now: int) { now - e.created > HOUR && e.progress.Ended? }

  function Swept<V>(s: Store<V>, now: int): map<string, nat> {
    map k | k in s.entries && !(s.entries[k] in s.heap && Expired(s.heap[s.entries[k]], now)) :: s.entries[k]
  }

  ghost predicate Join<V(!new)>(s: Store<V>, s': Store<V>, t: nat, key: string, hash: string) {
    && t !in s.callers && key in s.entries && s.entries[key] in s.heap
    && var id := s.entries[key];
       s' == s.(callers := s.callers[t := if s.heap[id].hash != hash then Conflicted else Waiting(id, key, hash)])
  }

  ghost predicate TurnAway<V(!new)>(s: Store<V>, s': Store<V>, t: nat, key: string, now: int) {
    && t !in s.callers && key !in s.entries && |Swept(s, now)| >= CAPACITY
    && s' == s.(entries := Swept(s, now), callers := s.callers[t := TurnedAway])
  }

  ghost predicate Begin<V(!new)>(s: Store<V>, s': Store<V>, t: nat, key: string, hash: string, now: int,
                          created: int, id: nat)
  {
    && t !in s.callers && key !in s.entries && |Swept(s, now)| < CAPACITY && id !in s.heap
    && s' == Store(Swept(s, now)[key := id], s.heap[id := Entry(key, hash, created, t, Pending)],
                   s.callers[t := Running(id)])
  }

  /** The run has ended, by returning or by a panic turned into an error. */
  ghost predicate Publish<V(!new)>(s: Store<V>, s': Store<V>, t: nat, verdict: V) {
    && t in s.callers && s.callers[t].Running? && s.callers[t].id in s.heap
    && var id := s.callers[t].id;
       s' == s.(heap := s.heap[id := s.heap[id].(progress := Ended(verdict))],
                callers := s.callers[t := Ran(id, verdict)])
  }

  ghost predicate Wake<V(!new)>(s: Store<V>, s': Store<V>, t: nat) {
    && t in s.callers && s.callers[t].Waiting? && s.callers[t].id in s.heap
    && s.heap[s.callers[t].id].progress.Ended?
    && var c := s.callers[t];
       s' == s.(callers := s.callers[t := Shared(c.id, c.key, c.hash, s.heap[c.id].progress.verdict)])
  }

  ghost predicate Cancel<V(!new)>(s: Store<V>, s': Store<V>, t: nat) {
    && t in s.callers && s.callers[t].Waiting?
    && s' == s.(callers := s.callers[t := Cancelled])
  }

  ghost predicate Next<V(!new)>(s: Store<V>, s': Store<V>) {
    || (exists t, key, hash :: Join(s, s', t, key, hash))
    || (exists t, key, now :: TurnAway(s, s', t, key, now))
    || (exists t, key, hash, now, created, id :: Begin(s, s', t, key, hash, now, created, id))
    || (exists t, verdict :: Publish(s, s', t, verdict))
    || (exists t :: Wake(s, s', t))
    || (exists t :: Cancel(s, s', t))
  }

  ghost predicate Run<V(!new)>(b: seq<Store<V>>) {
    b != [] && Init(b[0]) && forall i | 0 <= i < |b| - 1 :: Next(b[i], b[i+1])
  }

  // ---------------------------------------------------------------- invariant

  ghost predicate GoodCaller<V>(s: Store<V>, t: nat, c: Caller<V>) {
    match c
    case Running(id) =>
      && id in s.heap && s.heap[id].progress.Pending? && s.heap[id].owner == t
      && s.heap[id].key in s.entries && s.entries[s.heap[id].key] == id
    case Waiting(id, key, hash) => id in s.heap && s.heap[id].key == key && s.heap[id].hash == hash
    case Ran(id, verdict) => id in s.heap && s.heap[id].progress == Ended(verdict) && s.heap[id].owner == t
    case Shared(id, key, hash, verdict) =>
      id in s.heap && s.heap[id].key == key && s.heap[id].hash == hash && s.heap[id].progress == Ended(verdict)
    case _ => true
  }

  ghost predicate Tables<V>(s: Store<V>) {
    && |s.entries| <= CAPACITY
    && (forall k | k in s.entries :: s.entries[k] in s.heap && s.heap[s.entries[k]].key == k)
    && (forall id | id in s.heap && s.heap[id].progress.Pending? ::
          s.heap[id].owner in s.callers && s.callers[s.heap[id].owner] == Running(id))
  }

  ghost predicate Inv<V>(s: Store<V>) {
    && Tables(s)
    && (forall t | t in s.callers :: GoodCaller(s, t, s.callers[t]))
  }

  lemma SweptIsSmaller<V(!new)>(s: Store<V>, now: int)
    ensures |Swept(s, now)| <= |s.entries|
  {
    assert Swept(s, now).Keys <= s.entries.Keys;
    SubsetSize(Swept(s, now).Keys, s.entries.Keys);
  }

  lemma BeginKeepsCaller<V(!new)>(s: Store<V>, s': Store<V>, t: nat, key: string, hash: string, now: int,
                                  created: int, id: nat, u: nat)
    requires Inv(s) && Begin(s, s', t, key, hash, now, created, id) && u in s.callers
    ensures GoodCaller(s', u, s.callers[u])
  {
    assert GoodCaller(s, u, s.callers[u]);
  }

  lemma BeginKeepsTables<V(!new)>(s: Store<V>, s': Store<V>, t: nat, key: string, hash: string, now: int,
                                  created: int, id: nat)
    requires Tables(s) && Begin(s, s', t, key, hash, now, created, id)
    ensures Tables(s')
  {
    assert s'.entries.Keys == Swept(s, now).Keys + {key};
  }

  lemma BeginKeepsInv<V(!new)>(s: Store<V>, s': Store<V>, t: nat, key: string, hash: string, now: int,
                        created: int, id: nat)
    requires Inv(s) && Begin(s, s', t, key, hash, now, created, id)
    ensures Inv(s')
  {
    BeginKeepsTables(s, s', t, key, hash, now, created, id);
    forall u | u in s'.callers ensures GoodCaller(s', u, s'.callers[u]) {
      if u != t { BeginKeepsCaller(s, s', t, key, hash, now, created, id, u); }
    }
  }

  lemma PublishKeepsInv<V(!new)>(s: Store<V>, s': Store<V>, t: nat, verdict: V)
    requires Inv(s) && Publish(s, s', t, verdict)
    ensures Inv(s')
  {
    assert GoodCaller(s, t, s.callers[t]);
    forall u | u in s'.callers ensures GoodCaller(s', u, s'.callers[u]) {
      if u != t { assert GoodCaller(s, u, s.callers[u]); }
    }
  }

  lemma TurnAwayKeepsInv<V(!new)>(s: Store<V>, s': Store<V>, t: nat, key: string, now: int)
    requires Inv(s) && TurnAway(s, s', t, key, now)
    ensures Inv(s')
  {
    SweptIsSmaller(s, now);
    forall u | u in s'.callers ensures GoodCaller(s', u, s'.callers[u]) {
      if u != t { assert GoodCaller(s, u, s.callers[u]); }
    }
  }

  lemma WaiterKeepsInv<V(!new)>(s: Store<V>, s': Store<V>, t: nat)
    requires Inv(s) && (Wake(s, s', t) || Cancel(s, s', t) || exists key, hash :: Join(s, s', t, key, hash))
    ensures Inv(s')
  {
    if t in s.callers { assert GoodCaller(s, t, s.callers[t]); }
    forall u | u in s'.callers ensures GoodCaller(s', u, s'.callers[u]) {
      if u != t { assert GoodCaller(s, u, s.callers[u]); }
    }
  }

  lemma NextKeepsInv<V(!new)>(s: Store<V>, s': Store<V>)
    requires Inv(s) && Next(s, s')
    ensures Inv(s')
  {
    if t, key, hash, now, created, id :| Begin(s, s', t, key, hash, now, created, id) {
      BeginKeepsInv(s, s', t, key, hash, now, created, id);
    } else if t, verdict :| Publish(s, s', t, verdict) {
      PublishKeepsInv(s, s', t, verdict);
    } else if t, key, now :| TurnAway(s, s', t, key, now) {
      TurnAwayKeepsInv(s, s', t, key, now);
    } else if t :| Wake(s, s', t) {
      WaiterKeepsInv(s, s', t);
    } else if t :| Cancel(s, s', t) {
      WaiterKeepsInv(s, s', t);
    } else if t, key, hash :| Join(s, s', t, key, hash) {
      WaiterKeepsInv(s, s', t);
    }
  }

  lemma {:induction false} EveryRunIsInvariant<V(!new)>(b: seq<Store<V>>, i: nat)
    requires Run(b) && i < |b|
    ensures Inv(b[i])
  {
    if i > 0 {
      EveryRunIsInvariant(b, i - 1);
      assert Next(b[i-1], b[i-1+1]);
      NextKeepsInv(b[i-1], b[i]);
    }
  }

  /** At no moment of any run are two runs of one key in flight, and an entry in
      flight is still the one its key finds. */
  lemma SingleFlight<V(!new)>(b: seq<Store<V>>, i: nat, t: nat, u: nat)
    requires Run(b) && i < |b| && t in b[i].callers && u in b[i].callers
    requires b[i].callers[t].Running? && b[i].callers[u].Running?
    ensures b[i].callers[t].id in b[i].heap && b[i].callers[u].id in b[i].heap
    ensures b[i].heap[b[i].callers[t].id].key in b[i].entries
    ensures b[i].entries[b[i].heap[b[i].callers[t].id].key] == b[i].callers[t].id
    ensures b[i].heap[b[i].callers[t].id].key == b[i].heap[b[i].callers[u].id].key ==> t == u
    ensures |b[i].entries| <= CAPACITY
  {
    EveryRunIsInvariant(b, i);
    assert GoodCaller(b[i], t, b[i].callers[t]) && GoodCaller(b[i], u, b[i].callers[u]);
  }

  /** Nobody waits in vain: behind every waiter is a verdict or a caller running. */
  lemma NoOrphans<V(!new)>(b: seq<Store<V>>, i: nat, t: nat)
    requires Run(b) && i < |b| && t in b[i].callers && b[i].callers[t].Waiting?
    ensures b[i].callers[t].id in b[i].heap
    ensures b[i].heap[b[i].callers[t].id].progress.Pending? ==>
              var owner := b[i].heap[b[i].callers[t].id].owner;
              owner in b[i].callers && b[i].callers[owner] == Running(b[i].callers[t].id)
  {
    EveryRunIsInvariant(b, i);
    assert GoodCaller(b[i], t, b[i].callers[t]);
  }

  /** Entries are never forgotten and their verdicts are written once. */
  ghost predicate Settled<V>(s: Store<V>, s': Store<V>) {
    forall id | id in s.heap :: id in s'.heap
      && s'.heap[id].(progress := Pending) == s.heap[id].(progress := Pending)
      && (s.heap[id].progress.Ended? ==> s'.heap[id] == s.heap[id])
  }

  lemma NextSettles<V(!new)>(s: Store<V>, s': Store<V>)
    requires Inv(s) && Next(s, s')
    ensures Settled(s, s')
  {
    if t, verdict :| Publish(s, s', t, verdict) { assert GoodCaller(s, t, s.callers[t]); }
  }

  lemma {:induction false} VerdictsAreWrittenOnce<V(!new)>(b: seq<Store<V>>, i: nat, j: nat)
    requires Run(b) && i <= j < |b|
    ensures Settled(b[i], b[j])
  {
    if i < j {
      VerdictsAreWrittenOnce(b, i, j - 1);
      EveryRunIsInvariant(b, j - 1);
      assert Next(b[j-1], b[j-1+1]);
      NextSettles(b[j-1], b[j]);
    }
  }

  /** Callers that share an entry return one verdict, the owner's, at whatever
      moments of the run they return it, and their payloads had equal hashes. */
  lemma SharersAgree<V(!new)>(b: seq<Store<V>>, i: nat, j: nat, t: nat, u: nat)
    requires Run(b) && i <= j < |b| && t in b[i].callers && u in b[j].callers
    requires (b[i].callers[t].Ran? || b[i].callers[t].Shared?) && (b[j].callers[u].Ran? || b[j].callers[u].Shared?)
    requires b[i].callers[t].id == b[j].callers[u].id
    ensures b[i].callers[t].verdict == b[j].callers[u].verdict
    ensures b[i].callers[t].Shared? && b[j].callers[u].Shared? ==>
              b[i].callers[t].hash == b[j].callers[u].hash && b[i].callers[t].key == b[j].callers[u].key
  {
    EveryRunIsInvariant(b, i);
    EveryRunIsInvariant(b, j);
    VerdictsAreWrittenOnce(b, i, j);
    assert GoodCaller(b[i], t, b[i].callers[t]) && GoodCaller(b[j], u, b[j].callers[u]);
  }
}

/** The store itself: the map its lock guards, and the entries waiters hold on to.  A
    ghost state of the protocol runs along, and every locked operation is one of its
    steps. */
module SessionStore {
  import opened Wrappers
  import opened SessionProtocol

  class SessionEntry<V> {
    const hash: string
    const created: int
    var verdict: Option<V> // present once `done` is closed

    constructor (hash: string, created: int)
      ensures this.hash == hash && this.created == created && verdict == None
    {
      this.hash, this.created := hash, created;
      verdict := None;
    }

    predicate Sweepable(now: int)
      reads this
    {
      now - created > HOUR && verdict.Some?
    }

    /** The object is this entry of the protocol. */
    ghost predicate Is(e: Entry<V>)
      reads this
    {
      hash == e.hash && created == e.created && e.progress == if verdict.Some? then Ended(verdict.value) else Pending
    }
  }

  datatype Ticket<V> = Owner(entry: SessionEntry<V>) | Waiter(entry: SessionEntry<V>) | Conflict | Full

  /** The map of the store is that of the protocol, entry object by entry. */
  ghost predicate Linked<V>(entries: map<string, SessionEntry<V>>, m: Store<V>, at: map<nat, SessionEntry<V>>,
                            next: nat)
  {
    && at.Keys == m.heap.Keys && (forall id | id in at :: id < next)
    && (forall i, j | i in at && j in at && i != j :: at[i] != at[j])
    && entries.Keys == m.entries.Keys
    && (forall k | k in entries :: m.entries[k] in at && at[m.entries[k]] == entries[k])
  }

  lemma SameSize<A, B, K>(a: map<K, A>, b: map<K, B>)
    requires a.Keys == b.Keys
    ensures |a| == |b|
  {
    assert |a| == |a.Keys| && |b| == |b.Keys|;
  }

  /** A call passes the lock: by joining, being turned away, or beginning. */
  ghost predicate Entered<V(!new)>(s: Store<V>, s': Store<V>, t: nat, key: string, hash: string, now: int,
                            created: int)
  {
    || Join(s, s', t, key, hash) || TurnAway(s, s', t, key, now)
    || exists id :: Begin(s, s', t, key, hash, now, created, id)
  }

  lemma EnteredIsAStep<V(!new)>(s: Store<V>, s': Store<V>, t: nat, key: string, hash: string, now: int, created: int)
    requires Inv(s) && Entered(s, s', t, key, hash, now, created)
    ensures Next(s, s') && Inv(s')
  {
    if id :| Begin(s, s', t, key, hash, now, created, id) {
      assert Next(s, s');
    }
    NextKeepsInv(s, s');
  }

  /** Every object is its entry. */
  ghost predicate AllAre<V>(at: map<nat, SessionEntry<V>>, heap: map<nat, Entry<V>>)
    requires at.Keys == heap.Keys
    reads at.Values
  {
    forall id | id in at :: at[id].Is(heap[id])
  }

  lemma IsThere<V(!new)>(at: map<nat, SessionEntry<V>>, heap: map<nat, Entry<V>>, id: nat)
    requires at.Keys == heap.Keys && AllAre(at, heap) && id in at
    ensures at[id].Is(heap[id])
  {
  }

  lemma LinkedKeys<V(!new)>(entries: map<string, SessionEntry<V>>, m: Store<V>, at: map<nat, SessionEntry<V>>,
                     next: nat)
    requires Linked(entries, m, at, next)
    ensures at.Keys == m.heap.Keys && entries.Keys == m.entries.Keys && next !in at
    ensures forall k | k in entries :: m.entries[k] in at && at[m.entries[k]] == entries[k]
  {
  }

  /** Calls may come and go, and the map shrink, without breaking a link. */
  lemma StaysLinked<V(!new)>(before: map<string, SessionEntry<V>>, entries: map<string, SessionEntry<V>>, s: Store<V>,
                             s': Store<V>, at: map<nat, SessionEntry<V>>, next: nat)
    requires Linked(before, s, at, next) && s'.heap == s.heap && entries.Keys == s'.entries.Keys
    requires forall k | k in entries :: k in before && entries[k] == before[k]
    requires forall k | k in s'.entries :: k in s.entries && s'.entries[k] == s.entries[k]
    ensures Linked(entries, s', at, next)
  {
  }

  lemma BeginLinks<V(!new)>(entries: map<string, SessionEntry<V>>, s: Store<V>, s': Store<V>,
                     at: map<nat, SessionEntry<V>>,
                            next: nat, key: string, e: SessionEntry<V>)
    requires Linked(entries, s, at, next) && e !in at.Values
    requires s'.entries == s.entries[key := next] && s'.heap.Keys == s.heap.Keys + {next}
    ensures Linked(entries[key := e], s', at[next := e], next + 1)
  {
  }

  lemma PublishLinks<V(!new)>(entries: map<string, SessionEntry<V>>, s: Store<V>, s': Store<V>,
                       at: map<nat, SessionEntry<V>>,
                              next: nat)
    requires Linked(entries, s, at, next) && s'.entries == s.entries && s'.heap.Keys == s.heap.Keys
    ensures Linked(entries, s', at, next)
  {
  }

  lemma OneObjectEach<V(!new)>(entries: map<string, SessionEntry<V>>, m: Store<V>, at: map<nat, SessionEntry<V>>,
                        next: nat,
                               i: nat, j: nat)
    requires Linked(entries, m, at, next) && i in at && j in at && at[i] == at[j]
    ensures i == j
  {
  }

  lemma WithinCapacity<V(!new)>(entries: map<string, SessionEntry<V>>, m: Store<V>)
    requires Inv(m) && entries.Keys == m.entries.Keys
    ensures |entries| <= CAPACITY
  {
    SameSize(entries, m.entries);
  }

  /** What the caller was given is what the protocol says it holds. */
  ghost predicate Given<V>(s: Store<V>, at: map<nat, SessionEntry<V>>, ticket: Ticket<V>, t: nat) {
    && t in s.callers
    && match ticket
       case Owner(e) => s.callers[t].Running? && s.callers[t].id in at && at[s.callers[t].id] == e
       case Waiter(e) => s.callers[t].Waiting? && s.callers[t].id in at && at[s.callers[t].id] == e
       case Conflict => s.callers[t].Conflicted?
       case Full => s.callers[t].TurnedAway?
  }

  ghost function AfterJoin<V>(s: Store<V>, t: nat, key: string, hash: string): Store<V>
    requires key in s.entries && s.entries[key] in s.heap
  {
    var id := s.entries[key];
    s.(callers := s.callers[t := if s.heap[id].hash != hash then Conflicted else Waiting(id, key, hash)])
  }

  ghost function AfterTurnAway<V>(s: Store<V>, t: nat, now: int): Store<V> {
    s.(entries := Swept(s, now), callers := s.callers[t := TurnedAway])
  }

  ghost function AfterBegin<V>(s: Store<V>, t: nat, key: string, hash: string, now: int, created: int,
                               id: nat): Store<V>
  {
    Store(Swept(s, now)[key := id], s.heap[id := Entry(key, hash, created, t, Pending)], s.callers[t := Running(id)])
  }

  lemma JoinEnters<V(!new)>(s: Store<V>, t: nat, key: string, hash: string, now: int, created: int)
    requires Inv(s) && t !in s.callers && key in s.entries && s.entries[key] in s.heap
    ensures Entered(s, AfterJoin(s, t, key, hash), t, key, hash, now, created) && Inv(AfterJoin(s, t, key, hash))
  {
    var s' := AfterJoin(s, t, key, hash);
    assert Join(s, s', t, key, hash);
    EnteredIsAStep(s, s', t, key, hash, now, created);
  }

  lemma TurnAwayEnters<V(!new)>(s: Store<V>, t: nat, key: string, hash: string, now: int, created: int)
    requires Inv(s) && t !in s.callers && key !in s.entries && |Swept(s, now)| >= CAPACITY
    ensures Entered(s, AfterTurnAway(s, t, now), t, key, hash, now, created) && Inv(AfterTurnAway(s, t, now))
  {
    var s' := AfterTurnAway(s, t, now);
    assert TurnAway(s, s', t, key, now);
    EnteredIsAStep(s, s', t, key, hash, now, created);
  }

  lemma BeginEnters<V(!new)>(s: Store<V>, t: nat, key: string, hash: string, now: int, created: int, id: nat)
    requires Inv(s) && t !in s.callers && key !in s.entries && |Swept(s, now)| < CAPACITY && id !in s.heap
    ensures Entered(s, AfterBegin(s, t, key, hash, now, created, id), t, key, hash, now, created)
    ensures Inv(AfterBegin(s, t, key, hash, now, created, id))
  {
    var s' := AfterBegin(s, t, key, hash, now, created, id);
    assert Begin(s, s', t, key, hash, now, created, id);
    EnteredIsAStep(s, s', t, key, hash, now, created);
  }

  lemma TurnAwayAdds<V(!new)>(swept: map<string, SessionEntry<V>>, s: Store<V>, at: map<nat, SessionEntry<V>>, id: nat,
                              t: nat, now: int)
    requires Linked(swept, s.(entries := Swept(s, now)), at, id)
    ensures Linked(swept, AfterTurnAway(s, t, now), at, id) && AfterTurnAway(s, t, now).heap == s.heap
    ensures Given(AfterTurnAway(s, t, now), at, Full, t) && swept.Keys == AfterTurnAway(s, t, now).entries.Keys
  {
    hide Swept;
    PublishLinks(swept, s.(entries := Swept(s, now)), AfterTurnAway(s, t, now), at, id);
    LinkedKeys(swept, AfterTurnAway(s, t, now), at, id);
  }

  lemma JoinAdds<V(!new)>(entries: map<string, SessionEntry<V>>, s: Store<V>, at: map<nat, SessionEntry<V>>,
                   id: nat, t: nat,
                          key: string, hash: string)
    requires Linked(entries, s, at, id) && key in entries && s.entries[key] in s.heap
    requires entries[key].hash == s.heap[s.entries[key]].hash
    ensures Linked(entries, AfterJoin(s, t, key, hash), at, id) && AfterJoin(s, t, key, hash).heap == s.heap
    ensures entries.Keys == AfterJoin(s, t, key, hash).entries.Keys
    ensures Given(AfterJoin(s, t, key, hash), at, if entries[key].hash != hash then Conflict else Waiter(entries[key]), t)
  {
    StaysLinked(entries, entries, s, AfterJoin(s, t, key, hash), at, id);
  }

  /** Beginning adds one object and one entry, and they are the same. */
  lemma BeginAdds<V(!new)>(swept: map<string, SessionEntry<V>>, s: Store<V>, at: map<nat, SessionEntry<V>>, id: nat,
                           e: SessionEntry<V>, t: nat, key: string, hash: string, now: int, created: int)
    requires Linked(swept, s.(entries := Swept(s, now)), at, id) && at.Keys == s.heap.Keys && id !in at
    requires AllAre(at, s.heap) && e !in at.Values && e.Is(Entry(key, hash, created, t, Pending))
    ensures Linked(swept[key := e], AfterBegin(s, t, key, hash, now, created, id), at[id := e], id + 1)
    ensures at[id := e].Keys == AfterBegin(s, t, key, hash, now, created, id).heap.Keys
    ensures AllAre(at[id := e], AfterBegin(s, t, key, hash, now, created, id).heap)
    ensures Given(AfterBegin(s, t, key, hash, now, created, id), at[id := e], Owner(e), t)
    ensures swept[key := e].Keys == AfterBegin(s, t, key, hash, now, created, id).entries.Keys
  {
    hide Swept;
    var s' := AfterBegin(s, t, key, hash, now, created, id);
    BeginLinks(swept, s.(entries := Swept(s, now)), s', at, id, key, e);
    LinkedKeys(swept[key := e], s', at[id := e], id + 1);
  }

  lemma PublishIsNext<V(!new)>(s: Store<V>, s': Store<V>, t: nat, verdict: V)
    requires Inv(s) && SessionProtocol.Publish(s, s', t, verdict)
    ensures Inv(s')
  {
    PublishKeepsInv(s, s', t, verdict);
  }

  lemma RunningIsOpen<V(!new)>(s: Store<V>, t: nat)
    requires Inv(s) && t in s.callers && s.callers[t].Running?
    ensures s.callers[t].id in s.heap && s.heap[s.callers[t].id].progress.Pending?
  {
    assert GoodCaller(s, t, s.callers[t]);
  }

  class SessionStore<V(!new)> {
    var entries: map<string, SessionEntry<V>>
    ghost var model: Store<V> // the state of the protocol
    ghost var at: map<nat, SessionEntry<V>> // the object of every entry ever made
    ghost var next: nat

    constructor ()
      ensures Valid() && Init(model) && entries == map[]
    {
      entries, model, at, next := map[], Store(map[], map[], map[]), map[], 0;
    }

    /** The store is in a state of the protocol, entry by entry. */
    ghost predicate Valid()
      reads this, at.Values
    {
      Linked(entries, model, at, next) && Inv(model) && AllAre(at, model.heap)
    }

    ghost predicate Holds(ticket: Ticket<V>, t: nat)
      reads this
    {
      Given(model, at, ticket, t)
    }

    ghost function Kept(es: map<string, SessionEntry<V>>, now: int): map<string, SessionEntry<V>>
      reads es.Values
    {
      map k | k in es && !es[k].Sweepable(now) :: es[k]
    }

    lemma KeptIsSwept(now: int)
      requires Valid()
      ensures Kept(entries, now).Keys == Swept(model, now).Keys && |Kept(entries, now)| == |Swept(model, now)|
      ensures |entries| == |model.entries|
    {
      forall k | k in entries ensures entries[k].Sweepable(now) <==> Expired(model.heap[model.entries[k]], now) {
        assert at[model.entries[k]].Is(model.heap[model.entries[k]]);
      }
      SameSize(Kept(entries, now), Swept(model, now));
      SameSize(entries, model.entries);
    }

    method Sweep(now: int)
      modifies this`entries
      ensures entries == Kept(old(entries), now)
    {
      var keys := entries.Keys;
      ghost var before := entries;
      while keys != {}
        invariant keys <= before.Keys
        invariant entries == map k | k in before && (k in keys || !before[k].Sweepable(now)) :: before[k]
        decreases |keys|
      {
        var k :| k in keys;
        if entries[k].Sweepable(now) { entries := entries - {k}; }
        keys := keys - {k};
      }
    }

    /** The locked part of a call: one entry per key, found or made.  An entry in
        flight is never removed, and the map never outgrows its capacity.  `t` names
        the caller in the protocol, where this is one step. */
    method Enter(key: string, hash: string, now: int, created: int, ghost t: nat) returns (ticket: Ticket<V>)
      requires Valid() && t !in model.callers
      modifies this
      ensures Valid() && |entries| <= CAPACITY && Holds(ticket, t)
      ensures Entered(old(model), model, t, key, hash, now, created)
      ensures key in old(entries) ==> entries == old(entries)
      ensures key in old(entries) ==> ticket == if entries[key].hash != hash then Conflict else Waiter(entries[key])
      ensures key !in old(entries) && old(|Kept(entries, now)|) >= CAPACITY ==>
                ticket == Full && entries == old(Kept(entries, now))
      ensures key !in old(entries) && old(|Kept(entries, now)|) < CAPACITY ==>
                && ticket.Owner? && fresh(ticket.entry) && ticket.entry.hash == hash && ticket.entry.verdict == None
                && entries == old(Kept(entries, now))[key := ticket.entry]
      ensures forall k | k in old(entries) && old(entries)[k].verdict == None ::
                k in entries && entries[k] == old(entries)[k]
    {
      hide Inv, Next, Entered, Swept, Linked, AllAre, Given;
      LinkedKeys(entries, model, at, next);
      KeptIsSwept(now);
      if key in entries {
        ticket := Found(key, hash, now, created, t);
        return;
      }
      ghost var before := entries;
      Sweep(now);
      assert JustSwept(before, now);
      if |entries| >= CAPACITY {
        TurnedAwayHere(key, hash, now, created, t, before);
        return Full;
      }
      ticket := Begun(key, hash, now, created, t, before);
    }

    method Found(key: string, hash: string, now: int, created: int, ghost t: nat) returns (ticket: Ticket<V>)
      requires Valid() && t !in model.callers && key in entries
      modifies this`model
      ensures Valid() && Holds(ticket, t) && Entered(old(model), model, t, key, hash, now, created)
      ensures ticket == if entries[key].hash != hash then Conflict else Waiter(entries[key])
      ensures |entries| <= CAPACITY
    {
      hide Inv, Entered, Linked, Given, AfterJoin, AllAre;
      LinkedKeys(entries, model, at, next);
      var e := entries[key];
      ghost var s := model;
      IsThere(at, s.heap, s.entries[key]);
      JoinEnters(s, t, key, hash, now, created);
      JoinAdds(entries, s, at, next, t, key, hash);
      model := AfterJoin(s, t, key, hash);
      WithinCapacity(entries, model);
      ticket := if e.hash != hash then Conflict else Waiter(e);
    }

    /** The map has been swept of what `before` held. */
    ghost predicate JustSwept(before: map<string, SessionEntry<V>>, now: int)
      reads this, at.Values
    {
      && Linked(before, model, at, next) && Inv(model) && AllAre(at, model.heap)
      && entries.Keys == Swept(model, now).Keys && forall k | k in entries :: k in before && entries[k] == before[k]
    }

    lemma SweptLinks(before: map<string, SessionEntry<V>>, now: int)
      requires JustSwept(before, now)
      ensures Linked(entries, model.(entries := Swept(model, now)), at, next)
      ensures before.Keys == model.entries.Keys && at.Keys == model.heap.Keys && next !in at
      ensures |entries| == |Swept(model, now)| && Inv(model) && AllAre(at, model.heap)
    {
      LinkedKeys(before, model, at, next);
      StaysLinked(before, entries, model, model.(entries := Swept(model, now)), at, next);
      SameSize(entries, Swept(model, now));
    }

    ghost method TurnedAwayHere(key: string, hash: string, now: int, created: int, t: nat,
                                before: map<string, SessionEntry<V>>)
      requires JustSwept(before, now) && t !in model.callers && key !in model.entries && |entries| >= CAPACITY
      modifies this`model
      ensures Valid() && Holds(Full, t) && Entered(old(model), model, t, key, hash, now, created)
      ensures |entries| <= CAPACITY
    {
      hide Inv, Entered, Linked, Swept, AllAre, Given, JustSwept, AfterTurnAway;
      var s := model;
      SweptLinks(before, now);
      TurnAwayEnters(s, t, key, hash, now, created);
      TurnAwayAdds(entries, s, at, next, t, now);
      model := AfterTurnAway(s, t, now);
      WithinCapacity(entries, model);
    }

    ghost method BegunHere(key: string, hash: string, now: int, created: int, t: nat, e: SessionEntry<V>,
                           swept: map<string, SessionEntry<V>>)
      requires Linked(swept, model.(entries := Swept(model, now)), at, next) && at.Keys == model.heap.Keys
      requires Inv(model) && AllAre(at, model.heap) && next !in at && t !in model.callers && key !in model.entries
      requires |Swept(model, now)| < CAPACITY && e !in at.Values && e.Is(Entry(key, hash, created, t, Pending))
      requires entries == swept[key := e]
      modifies this`model, this`at, this`next
      ensures Valid() && Holds(Owner(e), t) && Entered(old(model), model, t, key, hash, now, created)
      ensures |entries| <= CAPACITY
    {
      hide Inv, Entered, Linked, Swept, AllAre, AfterBegin, Given;
      var s, id := model, next;
      BeginEnters(s, t, key, hash, now, created, id);
      BeginAdds(swept, s, at, id, e, t, key, hash, now, created);
      at, next := at[id := e], next + 1;
      model := AfterBegin(s, t, key, hash, now, created, id);
      WithinCapacity(entries, model);
    }

    method Begun(key: string, hash: string, now: int, created: int, ghost t: nat,
                 ghost before: map<string, SessionEntry<V>>)
      returns (ticket: Ticket<V>)
      requires JustSwept(before, now) && t !in model.callers && key !in model.entries && |entries| < CAPACITY
      modifies this
      ensures Valid() && Holds(ticket, t) && Entered(old(model), model, t, key, hash, now, created)
      ensures |entries| <= CAPACITY
      ensures ticket.Owner? && fresh(ticket.entry) && ticket.entry.hash == hash && ticket.entry.verdict == None
      ensures entries == old(entries)[key := ticket.entry]
    {
      hide Inv, Entered, Linked, Swept, AllAre, JustSwept, Given;
      ghost var swept := entries;
      SweptLinks(before, now);
      var e := new SessionEntry(hash, created);
      entries := entries[key := e];
      BegunHere(key, hash, now, created, t, e, swept);
      return Owner(e);
    }

    /** The owner's verdict, a value or the error a panic became, is written once. */
    method Publish(e: SessionEntry<V>, verdict: V, ghost t: nat)
      requires Valid() && Holds(Owner(e), t)
      modifies e, this`model
      ensures Valid() && old(e.verdict) == None && e.verdict == Some(verdict)
      ensures SessionProtocol.Publish(old(model), model, t, verdict)
    {
      hide Inv, Next, Linked;
      ghost var s, id := model, model.callers[t].id;
      RunningIsOpen(s, t);
      LinkedKeys(entries, s, at, next);
      assert e.Is(s.heap[id]);
      forall i | i in at && at[i] == e ensures i == id { OneObjectEach(entries, s, at, next, i, id); }
      e.verdict := Some(verdict);
      model := s.(heap := s.heap[id := s.heap[id].(progress := Ended(verdict))], callers := s.callers[t := Ran(id, verdict)]);
      PublishIsNext(s, model, t, verdict);
      PublishLinks(entries, s, model, at, next);
    }

    /** A waiter reads the verdict of a closed entry. */
    method Await(e: SessionEntry<V>, ghost t: nat) returns (verdict: V)
      requires Valid() && Holds(Waiter(e), t) && e.verdict.Some?
      modifies this`model
      ensures Valid() && e.verdict == Some(verdict) && Wake(old(model), model, t)
      ensures t in model.callers && model.callers[t].Shared? && model.callers[t].verdict == verdict
    {
      verdict := e.verdict.value;
      ghost var s, c := model, model.callers[t];
      assert e.Is(s.heap[c.id]);
      model := s.(callers := s.callers[t := Shared(c.id, c.key, c.hash, verdict)]);
      assert Wake(s, model, t);
      NextKeepsInv(s, model);
    }

    /** A waiter whose context ends leaves. */
    ghost method Abandon(e: SessionEntry<V>, t: nat)
      requires Valid() && Holds(Waiter(e), t)
      modifies this`model
      ensures Valid() && Cancel(old(model), model, t)
    {
      var s := model;
      model := s.(callers := s.callers[t := Cancelled]);
      assert Cancel(s, model, t);
      NextKeepsInv(s, model);
    }

    /** A call whose context lasts: owners run, waiters of a closed entry read it; a
        waiter of an open one still waits, in the protocol too. */
    method Execute(key: string, hash: string, now: int, created: int, run: V, ghost t: nat)
      returns (ticket: Ticket<V>, verdict: Option<V>)
      requires Valid() && t !in model.callers
      modifies this
      ensures Valid() && |entries| <= CAPACITY
      ensures exists mid :: Entered(old(model), mid, t, key, hash, now, created) && Proceeds(mid, model, t, verdict)
      ensures ticket.Owner? ==>
                verdict == Some(run) && fresh(ticket.entry) && ticket.entry.verdict == Some(run) && ticket.entry.hash == hash
      ensures ticket.Waiter? ==>
                && key in old(entries) && ticket.entry == old(entries)[key] && ticket.entry.hash == hash
                && verdict == ticket.entry.verdict
      ensures ticket.Conflict? || ticket.Full? ==> verdict == None
      ensures ticket.Owner? || ticket.Waiter? ==> key in entries && entries[key] == ticket.entry
    {
      hide Inv, Next, Entered, Swept, Linked, AllAre, Given;
      ticket := Enter(key, hash, now, created, t);
      ghost var mid := model;
      verdict := None;
      match ticket
      case Owner(e) =>
        Publish(e, run, t);
        verdict := Some(run);
      case Waiter(e) =>
        if e.verdict.Some? {
          var shared := Await(e, t);
          verdict := Some(shared);
        }
      case _ =>
    }
  }

  /** After entering: the owner publishes, a waiter of a closed entry wakes with its
      verdict, and whoever has no verdict has not moved. */
  ghost predicate Proceeds<V(!new)>(s: Store<V>, s': Store<V>, t: nat, verdict: Option<V>) {
    if verdict.None? then s' == s
    else SessionProtocol.Publish(s, s', t, verdict.value)
         || (Wake(s, s', t) && t in s'.callers && s'.callers[t].Shared? && s'.callers[t].verdict == verdict.value)
  }
}
