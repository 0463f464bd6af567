/** Counters over a whole plan: supply, sequences, their bounds, and balance. */
module AllocationAccounting {
  import opened Ordering
  import opened AllocationSnapshot
  import opened AllocationPlan
  import opened AllocationExecution

  predicate GoesTo(d: Decision, id: int) { d.action == "assign" && d.demandId == id }

  /** Members assigned to id that had not already been counted for it. */
  function Gains(ms: seq<Member>, ds: seq<Decision>, id: int): nat
    requires |ms| == |ds|
  {
    if ms == [] then 0
    else (if GoesTo(ds[0], id) && id !in ms[0].counted then 1 else 0) + Gains(ms[1..], ds[1..], id)
  }

  function AssignedCount(ds: seq<Decision>): nat {
    if ds == [] then 0 else (if ds[0].action == "assign" then 1 else 0) + AssignedCount(ds[1..])
  }

  lemma {:induction false} PlanLength(ms: seq<Member>, at: Ledger)
    ensures |Plan(ms, at)| == |ms|
  {
    if ms != [] { PlanLength(ms[1..], After(ms[0], Decide(ms[0], at), at)); }
  }

  /** What one decision does to the ledger. */
  lemma OneStep(m: Member, at: Ledger)
    requires WellKeyed(at.demands)
    ensures WellKeyed(After(m, Decide(m, at), at).demands)
    ensures OnlyCountersMoved(at.demands, After(m, Decide(m, at), at).demands)
    ensures Decide(m, at).action != "assign" ==> After(m, Decide(m, at), at) == at
    ensures Decide(m, at).action == "assign" ==>
              var d := Decide(m, at);
              && d.demandId in at.demands && d.sequence == at.next
              && After(m, d, at) == Ledger(at.demands[d.demandId := Booked(at.demands[d.demandId], m, at.next)], at.next + 1)
  {
    OffersHaveOrder(m, at.demands);
  }

  /** No supply is lost or invented: each demand ends with what it had plus the
      members it gained, and each assignment takes one sequence number. */
  lemma {:induction false} SupplyIsConserved(ms: seq<Member>, at: Ledger, id: int)
    requires WellKeyed(at.demands) && id in at.demands
    ensures |Plan(ms, at)| == |ms|
    ensures var end := Final(ms, at);
      && id in end.demands && WellKeyed(end.demands) && OnlyCountersMoved(at.demands, end.demands)
      && end.demands[id].supply == at.demands[id].supply + Gains(ms, Plan(ms, at), id)
      && end.next == at.next + AssignedCount(Plan(ms, at))
  {
    PlanLength(ms, at);
    if ms != [] {
      OneStep(ms[0], at);
      SupplyIsConserved(ms[1..], After(ms[0], Decide(ms[0], at), at), id);
    }
  }

  /** Sequences are handed out consecutively, in decision order. */
  lemma {:induction false} SequencesAreConsecutive(ms: seq<Member>, at: Ledger, i: nat)
    requires WellKeyed(at.demands) && i < |ms| && |Plan(ms, at)| == |ms| && Plan(ms, at)[i].action == "assign"
    ensures Plan(ms, at)[i].sequence == at.next + AssignedCount(Plan(ms, at)[..i])
  {
    OneStep(ms[0], at);
    if i > 0 {
      var to := After(ms[0], Decide(ms[0], at), at);
      PlanLength(ms[1..], to);
      SequencesAreConsecutive(ms[1..], to, i - 1);
      assert Plan(ms, at)[..i][1..] == Plan(ms[1..], to)[..i-1];
    }
  }

  lemma {:induction false} UntouchedDemand(ms: seq<Member>, at: Ledger, id: int)
    requires WellKeyed(at.demands) && id in at.demands
    requires forall d | d in Plan(ms, at) :: !GoesTo(d, id)
    ensures id in Final(ms, at).demands && Final(ms, at).demands[id] == at.demands[id]
  {
    if ms != [] {
      OneStep(ms[0], at);
      var d := Decide(ms[0], at);
      assert Plan(ms, at)[0] == d && d in Plan(ms, at);
      forall e | e in Plan(ms[1..], After(ms[0], d, at)) ensures !GoesTo(e, id) { assert e in Plan(ms, at); }
      UntouchedDemand(ms[1..], After(ms[0], d, at), id);
    }
  }

  /** A demand ends stamped with the sequence of the last member it received, and
      one that received nobody is as it was. */
  lemma {:induction false} LastAssigneeStamps(ms: seq<Member>, at: Ledger, id: int, i: nat)
    requires WellKeyed(at.demands) && id in at.demands && i < |ms| && |Plan(ms, at)| == |ms|
    requires GoesTo(Plan(ms, at)[i], id)
    requires forall j | i < j < |ms| :: !GoesTo(Plan(ms, at)[j], id)
    ensures id in Final(ms, at).demands && Final(ms, at).demands[id].lastSequence == Plan(ms, at)[i].sequence
  {
    OneStep(ms[0], at);
    var to := After(ms[0], Decide(ms[0], at), at);
    PlanLength(ms[1..], to);
    assert forall j | 0 < j < |ms| :: Plan(ms, at)[j] == Plan(ms[1..], to)[j-1];
    if i > 0 {
      forall j | i - 1 < j < |ms[1..]| ensures !GoesTo(Plan(ms[1..], to)[j], id) {
        assert !GoesTo(Plan(ms, at)[j+1], id);
      }
      LastAssigneeStamps(ms[1..], to, id, i - 1);
    } else {
      forall d | d in Plan(ms[1..], to) ensures !GoesTo(d, id) {
        var k :| 0 <= k < |ms| - 1 && Plan(ms[1..], to)[k] == d;
        assert Plan(ms, at)[k+1] == d;
      }
      UntouchedDemand(ms[1..], to, id);
    }
  }

  /** Every sequence handed out is newer than any the snapshot has seen. */
  lemma SequencesAreNew(s: Snapshot, i: nat, d: Demand)
    requires Valid(s) && i < |Allocation(s)| && Allocation(s)[i].action == "assign" && d in s.demands
    ensures Allocation(s)[i].sequence > d.lastSequence
  {
    DemandMapIs(s.demands);
    PlanLength(Ranked(s), Opening(s));
    SequencesAreConsecutive(Ranked(s), Opening(s), i);
  }

  lemma {:induction false} GainsAtMost(ms: seq<Member>, ds: seq<Decision>, id: int)
    requires |ms| == |ds|
    ensures Gains(ms, ds, id) <= |ms| && AssignedCount(ds) <= |ds|
  {
    if ms != [] { GainsAtMost(ms[1..], ds[1..], id); }
  }

  lemma {:induction false} StampsInRange(ms: seq<Member>, at: Ledger, id: int)
    requires WellKeyed(at.demands) && id in at.demands && at.demands[id].lastSequence < at.next
    ensures id in Final(ms, at).demands
    ensures at.demands[id].lastSequence <= Final(ms, at).demands[id].lastSequence < Final(ms, at).next
  {
    if ms != [] {
      OneStep(ms[0], at);
      StampsInRange(ms[1..], After(ms[0], Decide(ms[0], at), at), id);
    }
  }

  const MAX_WIRE := 9007199254740991
  const MAX_MEMBERS := 100
  const MAX_INT64 := 9223372036854775807

  /** Under the request schema's bounds no counter of the simulation, at any
      moment of it, leaves the signed 64-bit range. */
  lemma NothingOverflows(s: Snapshot, i: nat, id: int)
    requires Valid(s) && |s.members| <= MAX_MEMBERS && s.nextSequence <= MAX_WIRE
    requires forall d | d in s.demands :: 0 <= d.supply <= MAX_WIRE && 0 <= d.lastSequence
    requires i <= |Ranked(s)| && id in Opening(s).demands
    ensures var now := Final(Ranked(s)[..i], Opening(s));
      && 1 <= now.next <= MAX_INT64 && id in now.demands
      && 0 <= now.demands[id].supply <= MAX_INT64 && 0 <= now.demands[id].lastSequence <= MAX_INT64
  {
    DemandMapIs(s.demands);
    var ms := Ranked(s)[..i];
    SameElements(Ranked(s), s.members);
    SupplyIsConserved(ms, Opening(s), id);
    GainsAtMost(ms, Plan(ms, Opening(s)), id);
    StampsInRange(ms, Opening(s), id);
  }

  // ---------------------------------------------------------------- balance

  /** The listed demands are what every member may choose from, and nothing but
      their counters tells them apart. */
  ghost predicate Interchangeable(ms: seq<Member>, demands: Demands, ids: seq<int>) {
    && ids != [] && Distinct(ids) && (forall id | id in ids :: id in demands)
    && forall m | m in ms :: var usable := UsableTags(m.tags);
       && (forall id | id in demands :: id in m.allowed && Suits(demands[id], usable) <==> id in ids)
       && (forall a, b | a in ids && b in ids ::
             && demands[a].priority == demands[b].priority
             && CountIn(demands[a].preferredTags, usable.Keys) == CountIn(demands[b].preferredTags, usable.Keys))
  }

  ghost predicate SpreadWithin(demands: Demands, ids: seq<int>, k: int)
    requires forall id | id in ids :: id in demands
  {
    forall a, b | a in ids && b in ids :: demands[a].supply - demands[b].supply <= k
  }

  lemma SameRank(d: Demand, e: Demand, usable: map<string, Tag>)
    requires SameButCounters(d, e)
    ensures Suits(d, usable) <==> Suits(e, usable)
    ensures d.priority == e.priority && d.preferredTags == e.preferredTags
  {
    var f, g := d.(supply := 0, lastSequence := 0), e.(supply := 0, lastSequence := 0);
    assert f.requiredTags == g.requiredTags && f.preferredTags == g.preferredTags;
    assert f.receptionState == g.receptionState && f.priority == g.priority;
    assert Hits(d, usable) == Hits(e, usable);
  }

  lemma StillInterchangeable(ms: seq<Member>, ns: seq<Member>, a: Demands, b: Demands, ids: seq<int>)
    requires Interchangeable(ms, a, ids) && OnlyCountersMoved(a, b)
    requires forall n | n in ns :: n in ms
    ensures Interchangeable(ns, b, ids)
  {
    forall n, id | n in ns && id in b
      ensures Suits(a[id], UsableTags(n.tags)) <==> Suits(b[id], UsableTags(n.tags))
      ensures a[id].priority == b[id].priority && a[id].preferredTags == b[id].preferredTags
    {
      SameRank(a[id], b[id], UsableTags(n.tags));
    }
  }

  lemma ThirdSlotDecides(x: seq<int>, y: seq<int>)
    requires |x| == |y| == 5 && x[0] == y[0] && x[1] == y[1] && VectorLess(x, y)
    ensures x[2] <= y[2]
  {
    assert Lex(x[1..], y[1..], IntLess);
    assert Lex(x[1..][1..], y[1..][1..], IntLess);
  }

  /** Among interchangeable demands the choice falls on a least supplied one. */
  lemma LeastSuppliedIsChosen(m: Member, at: Ledger, ids: seq<int>)
    requires WellKeyed(at.demands) && Interchangeable([m], at.demands, ids)
    ensures Decide(m, at).action == "assign" && Decide(m, at).demandId in ids
    ensures forall id | id in ids :: at.demands[Decide(m, at).demandId].supply <= at.demands[id].supply
  {
    assert m in [m];
    WaitsExactlyWhenNothingSuits(m, at);
    assert ids[0] in ids;
    var d := Decide(m, at);
    AssignsTheLeast(m, at, ids[0]);
    forall id | id in ids ensures at.demands[d.demandId].supply <= at.demands[id].supply {
      AssignsTheLeast(m, at, id);
      var x, y := d.order, OrderOf(at.demands[id], UsableTags(m.tags));
      if id != d.demandId {
        ThirdSlotDecides(x, y);
      }
    }
  }

  /** The spread of supply never exceeds what it was, or one. */
  lemma {:induction false} SpreadNeverGrows(ms: seq<Member>, at: Ledger, ids: seq<int>, k: int)
    requires WellKeyed(at.demands) && Interchangeable(ms, at.demands, ids)
    requires k >= 1 && SpreadWithin(at.demands, ids, k)
    ensures OnlyCountersMoved(at.demands, Final(ms, at).demands)
    ensures SpreadWithin(Final(ms, at).demands, ids, k)
  {
    if ms != [] {
      OneStep(ms[0], at);
      StillInterchangeable(ms, [ms[0]], at.demands, at.demands, ids);
      LeastSuppliedIsChosen(ms[0], at, ids);
      var to := After(ms[0], Decide(ms[0], at), at);
      StillInterchangeable(ms, ms[1..], at.demands, to.demands, ids);
      SpreadNeverGrows(ms[1..], to, ids, k);
    }
  }

  /** What it would take to bring every listed demand up to the level. */
  function Shortfall(demands: Demands, ids: seq<int>, level: int): int
    requires forall id | id in ids :: id in demands
  {
    if ids == [] then 0
    else
      var id := ids[0];
      assert id in ids && id in demands;
      level - demands[id].supply + Shortfall(demands, ids[1..], level)
  }

  lemma {:induction false} ShortfallSign(demands: Demands, ids: seq<int>, level: int)
    requires forall id | id in ids :: id in demands && demands[id].supply <= level
    ensures Shortfall(demands, ids, level) >= 0
    ensures Shortfall(demands, ids, level) == 0 <==> forall id | id in ids :: demands[id].supply == level
  {
    if ids != [] {
      ShortfallSign(demands, ids[1..], level);
      var id := ids[0];
      assert id in ids && id in demands && demands[id].supply <= level;
      assert ids == [id] + ids[1..];
    }
  }

  lemma {:induction false} ShortfallShrinks(a: Demands, b: Demands, ids: seq<int>, level: int, id: int)
    requires forall x | x in ids :: x in a && x in b
    requires forall x | x in ids && x != id :: a[x].supply == b[x].supply
    requires id in a && id in b && Distinct(ids)
    ensures Shortfall(b, ids, level) == Shortfall(a, ids, level) - if id in ids then b[id].supply - a[id].supply else 0
  {
    if ids != [] {
      ShortfallShrinks(a, b, ids[1..], level, id);
      if ids[0] == id { assert id !in ids[1..]; }
    }
  }

  /** Members assigned to a demand that had not already counted them. */
  function Newcomers(ms: seq<Member>, ds: seq<Decision>): nat
    requires |ms| == |ds|
  {
    if ms == [] then 0
    else (if ds[0].action == "assign" && ds[0].demandId !in ms[0].counted then 1 else 0) + Newcomers(ms[1..], ds[1..])
  }

  /** Once the newcomers could fill every demand to the common level, the spread is
      at most one. */
  lemma {:induction false} FilledMeansLevel(ms: seq<Member>, at: Ledger, ids: seq<int>, level: int)
    requires WellKeyed(at.demands) && Interchangeable(ms, at.demands, ids) && |Plan(ms, at)| == |ms|
    requires forall id | id in ids :: at.demands[id].supply <= level
    requires Newcomers(ms, Plan(ms, at)) >= Shortfall(at.demands, ids, level)
    ensures OnlyCountersMoved(at.demands, Final(ms, at).demands)
    ensures SpreadWithin(Final(ms, at).demands, ids, 1)
  {
    ShortfallSign(at.demands, ids, level);
    if Shortfall(at.demands, ids, level) == 0 {
      SpreadNeverGrows(ms, at, ids, 1);
    } else {
      var d := Decide(ms[0], at);
      var to := After(ms[0], d, at);
      OneStep(ms[0], at);
      StillInterchangeable(ms, [ms[0]], at.demands, at.demands, ids);
      LeastSuppliedIsChosen(ms[0], at, ids);
      StillInterchangeable(ms, ms[1..], at.demands, to.demands, ids);
      ShortfallShrinks(at.demands, to.demands, ids, level, d.demandId);
      PlanLength(ms[1..], to);
      FilledMeansLevel(ms[1..], to, ids, level);
    }
  }

  /** The balance of a batch, at every moment of it. */
  lemma BatchStaysBalanced(ms: seq<Member>, at: Ledger, ids: seq<int>, spread: int, i: nat)
    requires WellKeyed(at.demands) && Interchangeable(ms, at.demands, ids) && i <= |ms|
    requires SpreadWithin(at.demands, ids, spread)
    ensures OnlyCountersMoved(at.demands, Final(ms[..i], at).demands)
    ensures SpreadWithin(Final(ms[..i], at).demands, ids, if spread > 1 then spread else 1)
  {
    StillInterchangeable(ms, ms[..i], at.demands, at.demands, ids);
    SpreadNeverGrows(ms[..i], at, ids, if spread > 1 then spread else 1);
  }
}
