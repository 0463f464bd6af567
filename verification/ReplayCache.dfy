/** A cache of answers by key.  It keeps private copies, at most CAPACITY of them,
    each for WINDOW after the start of the call that stored it. */
module ReplayCache {
  import opened Ordering

  const CAPACITY := 256
  const SECOND := 1_000_000_000
  const WINDOW := 300 * SECOND

  datatype Entry<H, V> = Entry(hash: H, result: V, at: int)

  type Held<H, V> = map<string, Entry<H, V>>

  predicate Fresh<H, V>(e: Entry<H, V>, started: int) { started - e.at < WINDOW }

  function Live<H, V>(c: Held<H, V>, started: int): Held<H, V> { map k | k in c && Fresh(c[k], started) :: c[k] }

  /** A live entry of the same key was made from another payload. */
  predicate Contested<H(==), V>(c: Held<H, V>, key: string, e: Entry<H, V>) {
    key in c && Fresh(c[key], e.at) && c[key].hash != e.hash
  }

  ghost predicate Earliest<H, V>(v: string, c: Held<H, V>) {
    v in c && forall k | k in c :: c[v].at <= c[k].at
  }

  /** d may be the cache left by storing e: the expired go, at capacity so does one
      of the earliest, and the entry is in. */
  ghost predicate Stored<H, V>(c: Held<H, V>, key: string, e: Entry<H, V>, d: Held<H, V>) {
    var live := Live(c, e.at);
    if |live| >= CAPACITY then exists v :: Earliest(v, live) && d == (live - {v})[key := e]
    else d == live[key := e]
  }

  lemma LiveIsSmaller<H, V>(c: Held<H, V>, started: int)
    ensures |Live(c, started)| <= |c|
  {
    assert Live(c, started).Keys <= c.Keys;
    SubsetSize(Live(c, started).Keys, c.Keys);
  }

  lemma StoredKeys<H, V>(c: Held<H, V>, key: string, e: Entry<H, V>, d: Held<H, V>)
    requires Stored(c, key, e, d)
    ensures key in d && d[key] == e
    ensures forall k | k in d && k != key :: k in Live(c, e.at) && d[k] == c[k]
  {
  }

  lemma StoredSize<H, V>(c: Held<H, V>, key: string, e: Entry<H, V>, d: Held<H, V>)
    requires |c| <= CAPACITY && Stored(c, key, e, d)
    ensures |d| <= CAPACITY
  {
    var live := Live(c, e.at);
    LiveIsSmaller(c, e.at);
    if |live| >= CAPACITY {
      var v :| Earliest(v, live) && d == (live - {v})[key := e];
      assert d.Keys == live.Keys - {v} + {key};
    } else {
      assert d.Keys == live.Keys + {key};
    }
  }

  lemma StoredLoses<H, V>(c: Held<H, V>, key: string, e: Entry<H, V>, d: Held<H, V>, k: string)
    requires |c| <= CAPACITY && Stored(c, key, e, d) && k in Live(c, e.at) && k !in d
    ensures |Live(c, e.at)| == CAPACITY && Earliest(k, Live(c, e.at))
    ensures forall j | j in Live(c, e.at) && j !in d :: j == k
  {
    LiveIsSmaller(c, e.at);
  }

  /** Storing keeps the cache within its capacity, replaces no live entry of
      another payload, and loses a live entry only at capacity, the earliest one. */
  lemma StoringIsSafe<H, V>(c: Held<H, V>, key: string, e: Entry<H, V>, d: Held<H, V>)
    requires |c| <= CAPACITY && Stored(c, key, e, d)
    ensures |d| <= CAPACITY && key in d && d[key] == e
    ensures forall k | k in d && k != key :: k in Live(c, e.at) && d[k] == c[k]
    ensures forall k | k in Live(c, e.at) && k !in d ::
              && |Live(c, e.at)| == CAPACITY && Earliest(k, Live(c, e.at))
              && (forall j | j in Live(c, e.at) && j !in d :: j == k)
  {
    StoredKeys(c, key, e, d);
    StoredSize(c, key, e, d);
    forall k | k in Live(c, e.at) && k !in d
      ensures |Live(c, e.at)| == CAPACITY && Earliest(k, Live(c, e.at))
      ensures forall j | j in Live(c, e.at) && j !in d :: j == k
    {
      StoredLoses(c, key, e, d, k);
    }
  }

  // ---------------------------------------------------------------- the promise of five minutes

  /** The promise entry e makes for its key: whoever comes with another payload, having
      started less than five minutes after e, is refused. */
  ghost predicate Guards<H(!new), V(!new)>(c: Held<H, V>, key: string, e: Entry<H, V>) {
    forall f: Entry<H, V> | f.hash != e.hash && Fresh(e, f.at) :: Contested(c, key, f)
  }

  /** The promise is kept by an entry of the same payload that started no earlier, and
      by nothing else. */
  lemma GuardIs<H(!new), V(!new)>(c: Held<H, V>, key: string, e: Entry<H, V>, other: H)
    requires other != e.hash
    ensures Guards(c, key, e) <==> key in c && c[key].hash == e.hash && c[key].at >= e.at
  {
    var last := Entry(other, e.result, e.at + WINDOW - 1);
    if Guards(c, key, e) {
      assert Contested(c, key, last);
      var same := last.(hash := c[key].hash);
      assert !Contested(c, key, same) && Fresh(e, same.at);
    }
  }

  /** What may become of the cache when f is committed under key. */
  ghost predicate MayBecome<H, V>(c: Held<H, V>, key: string, f: Entry<H, V>, d: Held<H, V>) {
    if Contested(c, key, f) then d == c else Stored(c, key, f, d)
  }

  /** What a committing call must meet for the guard of k to be safe whatever the
      iteration order: it is refused; or it is for k itself, with the same payload and
      no earlier a start; or it is for another key, finds k's entry alive, and need not
      make room by dropping it. */
  ghost predicate Spares<H, V>(c: Held<H, V>, key: string, f: Entry<H, V>, k: string, e: Entry<H, V>) {
    || Contested(c, key, f)
    || (key == k && f.hash == e.hash && f.at >= e.at)
    || (key != k && k in c && Fresh(c[k], f.at) && !(|Live(c, f.at)| >= CAPACITY && Earliest(k, Live(c, f.at))))
  }

  /** The one live entry a commit dropped to make room. */
  predicate Dropped<H, V>(c: Held<H, V>, f: Entry<H, V>, d: Held<H, V>, k: string) { k in Live(c, f.at) && k !in d }

  /** The guard survives one given commit exactly when the commit is refused, or is one
      of the same payload and no earlier start, or, under another key, neither sweeps
      k's entry as expired nor drops it to make room. */
  lemma GuardAfter<H(!new), V(!new)>(c: Held<H, V>, key: string, f: Entry<H, V>, d: Held<H, V>, k: string,
                     e: Entry<H, V>, other: H)
    requires other != e.hash && Guards(c, k, e) && MayBecome(c, key, f, d)
    ensures Guards(d, k, e) <==>
              || Contested(c, key, f)
              || (key == k && f.hash == e.hash && f.at >= e.at)
              || (key != k && k in c && Fresh(c[k], f.at) && !Dropped(c, f, d, k))
  {
    GuardIs(c, k, e, other);
    GuardIs(d, k, e, other);
    if !Contested(c, key, f) { StoredKeys(c, key, f, d); }
  }

  /** Whether the guard survives can be told before the commit: it does in every way
      the commit may go, if and only if the commit spares it. */
  lemma GuardSurvivesExactly<H(!new), V(!new)>(c: Held<H, V>, key: string, f: Entry<H, V>, k: string,
                               e: Entry<H, V>, other: H)
    requires other != e.hash && Guards(c, k, e)
    ensures (forall d :: MayBecome(c, key, f, d) ==> Guards(d, k, e)) <==> Spares(c, key, f, k, e)
  {
    GuardIs(c, k, e, other);
    if Spares(c, key, f, k, e) {
      forall d | MayBecome(c, key, f, d) ensures Guards(d, k, e) {
        GuardAfter(c, key, f, d, k, e, other);
        if !Contested(c, key, f) && key != k && k !in d { LostIsEarliest(c, key, f, d, k); }
      }
    } else {
      var d := WorstCase(c, key, f, k);
      GuardAfter(c, key, f, d, k, e, other);
    }
  }

  lemma LostIsEarliest<H, V>(c: Held<H, V>, key: string, f: Entry<H, V>, d: Held<H, V>, k: string)
    requires Stored(c, key, f, d) && k in Live(c, f.at) && k !in d
    ensures |Live(c, f.at)| >= CAPACITY && Earliest(k, Live(c, f.at))
  {
  }

  /** A way the commit may go that is worst for k. */
  lemma WorstCase<H, V>(c: Held<H, V>, key: string, f: Entry<H, V>, k: string) returns (d: Held<H, V>)
    requires !Contested(c, key, f)
    ensures MayBecome(c, key, f, d)
    ensures key != k && k in Live(c, f.at) && |Live(c, f.at)| >= CAPACITY && Earliest(k, Live(c, f.at)) ==> k !in d
  {
    var live := Live(c, f.at);
    if |live| < CAPACITY {
      d := live[key := f];
    } else {
      var v := k;
      if !Earliest(k, live) { v := SomeEarliest(live); }
      d := (live - {v})[key := f];
    }
  }

  lemma SomeEarliest<H, V>(c: Held<H, V>) returns (v: string)
    requires |c| > 0
    ensures Earliest(v, c)
    decreases |c|
  {
    var k :| k in c;
    var rest := c - {k};
    assert rest.Keys == c.Keys - {k};
    if |rest| == 0 {
      v := k;
      assert c.Keys == rest.Keys + {k} == {k};
    } else {
      var u := SomeEarliest(rest);
      v := if c[k].at <= c[u].at then k else u;
      forall j | j in c ensures c[v].at <= c[j].at {
        if j != k { assert j in rest; }
      }
    }
  }

  /** c with the expired gone, except among the keys not yet looked at. */
  function PartlySwept<H, V>(c: Held<H, V>, keys: set<string>, started: int): Held<H, V> {
    map k | k in c && (k in keys || Fresh(c[k], started)) :: c[k]
  }

  lemma SweepOne<H, V>(c: Held<H, V>, keys: set<string>, started: int, k: string)
    requires k in keys && keys <= c.Keys
    ensures k in PartlySwept(c, keys, started) && PartlySwept(c, keys, started)[k] == c[k]
    ensures PartlySwept(c, keys - {k}, started) ==
            if Fresh(c[k], started) then PartlySwept(c, keys, started) else PartlySwept(c, keys, started) - {k}
    ensures PartlySwept(c, {}, started) == Live(c, started)
  {
  }

  /** A response by value: its heading and its decisions. */
  datatype Sheet<P, D> = Sheet(head: P, decisions: seq<D>)

  /** A response in memory.  Whoever holds it may change its heading and, in place,
      its decisions; a copy that shared the array would change with it. */
  class Answer<P, D> {
    var head: P
    const decisions: array<D>

    constructor (head: P, decisions: array<D>)
      ensures this.head == head && this.decisions == decisions
    {
      this.head, this.decisions := head, decisions;
    }

    function Value(): Sheet<P, D>
      reads this, decisions
    {
      Sheet(head, decisions[..])
    }
  }

  method Written<P, D>(s: Sheet<P, D>) returns (a: Answer<P, D>)
    ensures fresh(a) && fresh(a.decisions) && a.Value() == s
  {
    var decisions := new D[|s.decisions|](i requires 0 <= i < |s.decisions| => s.decisions[i]);
    a := new Answer(s.head, decisions);
  }

  /** A deep copy: neither the object nor its array is shared. */
  method CloneResponse<P, D>(a: Answer<P, D>) returns (b: Answer<P, D>)
    ensures fresh(b) && fresh(b.decisions) && b.Value() == a.Value()
  {
    b := Written(a.Value());
  }

  datatype Kept<H, P, D> = Kept(hash: H, result: Answer<P, D>, at: int)

  datatype Lookup = Miss | Clash | Hit

  /** An entry kept is this entry by value, in memory of the cache's own. */
  ghost predicate IsEntry<H, P, D>(kept: Kept<H, P, D>, e: Entry<H, Sheet<P, D>>, copies: set<object>)
    reads copies
  {
    && kept.result in copies && kept.result.decisions in copies
    && e == Entry(kept.hash, kept.result.Value(), kept.at)
  }

  ghost predicate Mirrors<H, P, D>(cache: map<string, Kept<H, P, D>>, view: Held<H, Sheet<P, D>>, copies: set<object>)
    requires view.Keys == cache.Keys
    reads copies
  {
    forall k | k in cache :: k != "" && IsEntry(cache[k], view[k], copies)
  }

  lemma MirroredAt<H, P, D>(cache: map<string, Kept<H, P, D>>, view: Held<H, Sheet<P, D>>, copies: set<object>,
                            k: string)
    requires view.Keys == cache.Keys && Mirrors(cache, view, copies) && k in cache
    ensures k != "" && view[k].hash == cache[k].hash && view[k].at == cache[k].at
    ensures cache[k].result in copies && cache[k].result.decisions in copies
    ensures view[k].result == cache[k].result.Value()
  {
    assert IsEntry(cache[k], view[k], copies);
  }

  lemma MirrorsLess<H, P, D>(cache: map<string, Kept<H, P, D>>, view: Held<H, Sheet<P, D>>, copies: set<object>,
                             k: string)
    requires view.Keys == cache.Keys && Mirrors(cache, view, copies)
    ensures (view - {k}).Keys == (cache - {k}).Keys && Mirrors(cache - {k}, view - {k}, copies)
    ensures |cache - {k}| == if k in cache then |cache| - 1 else |cache|
  {
    assert (cache - {k}).Keys == cache.Keys - {k} && (view - {k}).Keys == view.Keys - {k};
  }

  lemma MirrorsMore<H, P, D>(cache: map<string, Kept<H, P, D>>, view: Held<H, Sheet<P, D>>, copies: set<object>,
                             key: string,
                             kept: Kept<H, P, D>)
    requires view.Keys == cache.Keys && Mirrors(cache, view, copies) && key != ""
    ensures var more := copies + {kept.result, kept.result.decisions};
            var e := Entry(kept.hash, kept.result.Value(), kept.at);
            view[key := e].Keys == cache[key := kept].Keys && Mirrors(cache[key := kept], view[key := e], more)
    ensures |cache[key := kept]| <= |cache| + 1
  {
    var more := copies + {kept.result, kept.result.decisions};
    var e := Entry(kept.hash, kept.result.Value(), kept.at);
    assert cache[key := kept].Keys == cache.Keys + {key};
    forall k | k in cache ensures k != "" && IsEntry(cache[k], view[k], more) { assert IsEntry(cache[k], view[k], copies); }
  }

  /** The part of the service its mutex guards. */
  class Store<H(==), P, D> {
    var cache: map<string, Kept<H, P, D>>
    ghost var copies: set<object> // the responses kept and their arrays
    ghost var view: Held<H, Sheet<P, D>> // the cache by value
    ghost const good: (string, Entry<H, Sheet<P, D>>) -> bool // what every entry was stored with

    constructor (ghost good: (string, Entry<H, Sheet<P, D>>) -> bool)
      ensures Valid() && view == map[] && copies == {} && this.good == good
    {
      this.good := good;
      cache, copies, view := map[], {}, map[];
    }

    ghost predicate Valid()
      reads this, copies
    {
      && |cache| <= CAPACITY && this !in copies && view.Keys == cache.Keys && Mirrors(cache, view, copies)
      && (forall k | k in view :: good(k, view[k]))
    }

    /** The cache holds neither the answer nor its array. */
    ghost predicate Private(a: Answer<P, D>)
      reads this
    {
      a !in copies && a.decisions !in copies
    }

    /** What a caller does to an answer of its own is not seen by the cache. */
    method Tamper(mine: Answer<P, D>, head: P, i: nat, junk: D)
      requires Valid() && Private(mine) && i < mine.decisions.Length
      modifies mine, mine.decisions
      ensures Valid() && mine.Value() == Sheet(head, old(mine.decisions[..])[i := junk])
    {
      hide Mirrors;
      mine.head, mine.decisions[i] := head, junk;
    }

    /** A live entry answers with a copy of its own, if the payload is the same. */
    method Find(key: string, hash: H, started: int) returns (found: Lookup, answer: Answer?<P, D>)
      requires Valid()
      ensures found == if key in view && Fresh(view[key], started)
                       then (if view[key].hash == hash then Hit else Clash) else Miss
      ensures answer != null <==> found == Hit
      ensures answer != null ==> fresh(answer) && fresh(answer.decisions) && Private(answer)
      ensures answer != null ==> answer.Value() == view[key].result
    {
      hide Mirrors;
      if key in cache { MirroredAt(cache, view, copies, key); }
      if key in cache && started - cache[key].at < WINDOW {
        if cache[key].hash != hash { return Clash, null; }
        var copy := CloneResponse(cache[key].result);
        return Hit, copy;
      }
      return Miss, null;
    }

    method Delete(k: string)
      requires Valid()
      modifies this`cache, this`view
      ensures Valid() && view == old(view) - {k} && |cache| <= old(|cache|)
      ensures k in old(cache) ==> |cache| == old(|cache|) - 1
    {
      hide Mirrors;
      MirrorsLess(cache, view, copies, k);
      cache, view := cache - {k}, view - {k};
    }

    /** Drop every expired entry. */
    method Sweep(started: int)
      requires Valid()
      modifies this`cache, this`view
      ensures Valid() && view == Live(old(view), started)
    {
      hide Mirrors;
      var keys := cache.Keys;
      ghost var before := view;
      assert before == PartlySwept(before, keys, started);
      while keys != {}
        invariant Valid() && keys <= before.Keys && view == PartlySwept(before, keys, started)
        decreases |keys|
      {
        var k :| k in keys;
        SweepOne(before, keys, started, k);
        MirroredAt(cache, view, copies, k);
        if started - cache[k].at >= WINDOW { Delete(k); }
        keys := keys - {k};
      }
      assert view == PartlySwept(before, {}, started) == Live(before, started);
    }

    /** The key of an entry with the earliest start. */
    method Oldest() returns (oldest: string)
      requires Valid() && |cache| > 0
      ensures oldest in cache && Earliest(oldest, view)
    {
      hide Mirrors;
      forall k | k in cache ensures k != "" && view[k].at == cache[k].at { MirroredAt(cache, view, copies, k); }
      oldest := "";
      var at := 0;
      var keys := cache.Keys;
      while keys != {}
        invariant keys <= cache.Keys
        invariant oldest == "" ==> keys == cache.Keys
        invariant oldest != "" ==> oldest in cache && at == cache[oldest].at
        invariant oldest != "" ==> forall k | k in cache && k !in keys :: at <= cache[k].at
        decreases |keys|
      {
        var k :| k in keys;
        if oldest == "" || cache[k].at < at {
          oldest, at := k, cache[k].at;
        }
        keys := keys - {k};
      }
    }

    /** Sweep, and at capacity let one of the earliest go. */
    method MakeRoom(started: int)
      requires Valid()
      modifies this`cache, this`view
      ensures Valid() && |cache| < CAPACITY
      ensures var live := Live(old(view), started);
              if |live| >= CAPACITY then exists v :: Earliest(v, live) && view == live - {v}
              else view == live
    {
      hide Mirrors;
      Sweep(started);
      ghost var live := view;
      assert |live| == |live.Keys| == |cache.Keys| == |cache|;
      if |cache| >= CAPACITY {
        var oldest := Oldest();
        Delete(oldest);
        assert Earliest(oldest, live) && view == live - {oldest};
      }
    }

    method Put(key: string, hash: H, result: Answer<P, D>, started: int)
      requires Valid() && key != "" && Private(result) && |cache| < CAPACITY
      requires good(key, Entry(hash, result.Value(), started))
      modifies this`cache, this`copies, this`view
      ensures Valid() && (forall a | a in copies && a !in old(copies) :: fresh(a)) && Private(result)
      ensures view == old(view)[key := Entry(hash, result.Value(), started)]
    {
      hide Mirrors;
      var copy := CloneResponse(result);
      MirrorsMore(cache, view, copies, key, Kept(hash, copy, started));
      copies := copies + {copy, copy.decisions};
      cache := cache[key := Kept(hash, copy, started)];
      view := view[key := Entry(hash, copy.Value(), started)];
    }

    method Commit(key: string, hash: H, result: Answer<P, D>, started: int) returns (conflict: bool)
      requires Valid() && key != "" && Private(result)
      requires good(key, Entry(hash, result.Value(), started))
      modifies this`cache, this`copies, this`view
      ensures Valid() && (forall a | a in copies && a !in old(copies) :: fresh(a)) && Private(result)
      ensures conflict <==> Contested(old(view), key, Entry(hash, result.Value(), started))
      ensures conflict ==> view == old(view)
      ensures !conflict ==> Stored(old(view), key, Entry(hash, result.Value(), started), view)
    {
      hide Mirrors;
      if key in cache { MirroredAt(cache, view, copies, key); }
      if key in cache && started - cache[key].at < WINDOW && cache[key].hash != hash { return true; }
      MakeRoom(started);
      Put(key, hash, result, started);
      return false;
    }
  }
}
