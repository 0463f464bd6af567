/** The staged execution of an allocation: read, filter, rank, simulate, validate.
    Offers are computed once for every member; simulating a member only refreshes
    the two counters of each order vector.  Run proves that this gives the plan
    of the one-pass specification. */
module AllocationExecution {
  import opened Ordering
  import opened AllocationSnapshot
  import opened AllocationPlan

  /** Demands that differ at most in their two counters. */
  predicate SameButCounters(d: Demand, e: Demand) {
    d.(supply := 0, lastSequence := 0) == e.(supply := 0, lastSequence := 0)
  }

  ghost predicate OnlyCountersMoved(a: Demands, b: Demands) {
    a.Keys == b.Keys && forall id | id in a :: SameButCounters(a[id], b[id])
  }

  /** os lists the same offers as ps, in the same places. */
  ghost predicate InStep(os: seq<Offer>, ps: seq<Offer>) {
    |os| == |ps| && forall i | 0 <= i < |os| :: SameOffer(os[i], ps[i])
  }

  function Refreshed(o: Offer, demands: Demands): Offer {
    if o.demand.demandId in demands && |o.order| == 5 then
      var d := demands[o.demand.demandId];
      o.(order := o.order[2 := d.supply][3 := d.lastSequence])
    else o
  }

  function RefreshedAll(os: seq<Offer>, demands: Demands): seq<Offer> {
    seq(|os|, i requires 0 <= i < |os| => Refreshed(os[i], demands))
  }

  lemma RefreshedOffer(d: Demand, usable: map<string, Tag>, demands: Demands)
    requires d.demandId in demands && SameButCounters(d, demands[d.demandId])
    requires demands[d.demandId].demandId == d.demandId
    ensures Suits(d, usable) <==> Suits(demands[d.demandId], usable)
    ensures SameOffer(Refreshed(OfferOf(d, usable), demands), OfferOf(demands[d.demandId], usable))
  {
    var e := demands[d.demandId];
    var f := d.(supply := 0, lastSequence := 0);
    assert f.requiredTags == d.requiredTags == e.requiredTags;
    assert f.preferredTags == d.preferredTags == e.preferredTags;
    assert f.receptionState == d.receptionState == e.receptionState;
    assert f.departmentRef == d.departmentRef == e.departmentRef && f.priority == d.priority == e.priority;
    assert Hits(d, usable) == Hits(e, usable);
  }

  /** Refreshing two slots is as good as asking every demand again. */
  lemma {:induction false} RefreshRecomputes(allowed: seq<int>, usable: map<string, Tag>, a: Demands, b: Demands)
    requires WellKeyed(a) && WellKeyed(b) && OnlyCountersMoved(a, b)
    ensures InStep(RefreshedAll(Offers(allowed, usable, a), b), Offers(allowed, usable, b))
  {
    if allowed != [] {
      var id, before := allowed[|allowed|-1], allowed[..|allowed|-1];
      RefreshRecomputes(before, usable, a, b);
      if id in a {
        assert a[id].demandId == id;
        RefreshedOffer(a[id], usable, b);
      }
    }
  }

  predicate OfferLess(x: Offer, y: Offer) { VectorLess(x.order, y.order) }

  lemma OfferLessStrict()
    ensures StrictOrder(OfferLess) && StrictOrder(RankLess)
  {
    VectorLessTotal();
  }

  /** The head of any sort of refreshed offers is the least of the current ones. */
  lemma HeadIsLeast(sorted: seq<Offer>, os: seq<Offer>, ps: seq<Offer>)
    requires multiset(sorted) == multiset(os) && Ascending(sorted, OfferLess)
    requires InStep(os, ps) && NoTies(ps) && os != []
    ensures sorted != [] && SameOffer(sorted[0], Least(ps))
  {
    SameElements(sorted, os);
    LexIrreflexive(sorted[0].order);
    forall p | p in os ensures !VectorLess(p.order, sorted[0].order) {
      var k :| 0 <= k < |sorted| && sorted[k] == p;
      if k > 0 { assert !OfferLess(sorted[k], sorted[0]); }
    }
    assert sorted[0] in os;
    var i :| 0 <= i < |os| && os[i] == sorted[0];
    var j :| 0 <= j < |ps| && ps[j] == Least(ps);
    MinimalAgrees(sorted[0], os, Least(ps), ps, os[j], ps[i]);
  }

  lemma LexIrreflexive(v: seq<int>)
    ensures !VectorLess(v, v)
  {
    if VectorLess(v, v) { LexAsymmetric(v, v, IntLess); }
  }

  lemma AfterKeepsShape(m: Member, d: Decision, at: Ledger)
    requires WellKeyed(at.demands)
    ensures WellKeyed(After(m, d, at).demands) && OnlyCountersMoved(at.demands, After(m, d, at).demands)
  {
  }

  /** Every listed member has its offers and its reason on file. */
  ghost predicate Filed(ms: seq<Member>, options: map<int, seq<Offer>>, reasons: map<int, string>, at: Demands) {
    forall m | m in ms ::
      && m.memberId in options && options[m.memberId] == OffersTo(m, at)
      && m.memberId in reasons && reasons[m.memberId] == Reason(m.allowed, at)
  }

  /** Later members' files are untouched by refreshing this one's. */
  lemma OthersKeepTheirFile(ms: seq<Member>, i: nat, options: map<int, seq<Offer>>, reasons: map<int, string>,
                            at: Demands, sorted: seq<Offer>)
    requires i < |ms| && Distinct(Map(MemberId, ms)) && Filed(ms[i..], options, reasons, at)
    ensures Filed(ms[i+1..], options[ms[i].memberId := sorted], reasons, at)
  {
    forall n | n in ms[i+1..] ensures n.memberId != ms[i].memberId && n in ms[i..] {
      var k :| i < k < |ms| && ms[k] == n;
      assert Map(MemberId, ms)[k] != Map(MemberId, ms)[i];
      assert ms[i..][k-i] == n;
    }
  }

  lemma OffersHaveOrder(m: Member, at: Demands)
    requires WellKeyed(at)
    ensures forall o | o in OffersTo(m, at) :: |o.order| == 5 && o.demand.demandId in at
  {
    forall o | o in OffersTo(m, at) ensures |o.order| == 5 && o.demand.demandId in at {
      OffersAre(m.allowed, UsableTags(m.tags), at, o);
    }
  }

  lemma ReasonIsFixed(allowed: seq<int>, a: Demands, b: Demands)
    requires OnlyCountersMoved(a, b)
    ensures Reason(allowed, a) == Reason(allowed, b)
  {
    forall id | id in a ensures Receiving(a[id]) == Receiving(b[id]) {
      assert a[id].(supply := 0, lastSequence := 0).receptionState == b[id].receptionState;
    }
  }

  /** What simulating one member comes to: its offers, refreshed and sorted, give
      the decision of the one-pass specification. */
  lemma SortedOffersDecide(m: Member, sorted: seq<Offer>, start: Demands, at: Ledger)
    requires WellKeyed(start) && WellKeyed(at.demands) && OnlyCountersMoved(start, at.demands)
    requires multiset(sorted) == multiset(RefreshedAll(OffersTo(m, start), at.demands))
    requires Ascending(sorted, OfferLess)
    ensures Decide(m, at) == if sorted == [] then Waiting(m, Reason(m.allowed, start)) else Assigned(m, sorted[0], at.next)
    ensures sorted != [] ==> sorted[0].demand.demandId in at.demands
  {
    RefreshRecomputes(m.allowed, UsableTags(m.tags), start, at.demands);
    OffersNeverTie(m.allowed, UsableTags(m.tags), at.demands);
    ReasonIsFixed(m.allowed, start, at.demands);
    OffersHaveOrder(m, at.demands);
    assert |sorted| == |multiset(sorted)| == |OffersTo(m, at.demands)|;
    if sorted != [] {
      HeadIsLeast(sorted, RefreshedAll(OffersTo(m, start), at.demands), OffersTo(m, at.demands));
    }
  }

  /** Taking the next member off the list moves its decision to those made. */
  lemma PlanStep(made: seq<Decision>, ms: seq<Member>, i: nat, at: Ledger)
    requires i < |ms|
    ensures var d := Decide(ms[i], at); var next := After(ms[i], d, at);
      && made + [d] + Plan(ms[i+1..], next) == made + Plan(ms[i..], at)
      && Final(ms[i+1..], next) == Final(ms[i..], at)
  {
    var d, rest := Decide(ms[i], at), ms[i..];
    assert rest[0] == ms[i] && rest[1..] == ms[i+1..];
    assert Plan(rest, at) == [d] + Plan(ms[i+1..], After(ms[i], d, at));
  }

  const STEPS := 6

  datatype Progress = Completed | Rejected | Stopped

  class Execution {
    const request: Snapshot
    var members: seq<Member>
    var demands: Demands
    var options: map<int, seq<Offer>>
    var reasons: map<int, string>
    var decisions: seq<Decision>

    constructor (request: Snapshot)
      ensures this.request == request
    {
      this.request := request;
      members, demands, options, reasons, decisions := [], map[], map[], map[], [];
    }

    method Read() returns (ok: bool)
      modifies this
      ensures ok <==> Valid(request)
      ensures ok ==> members == request.members && demands == DemandMap(request.demands)
    {
      ok := ValidateSnapshot(request);
      if !ok { return; }
      members := request.members;
      demands := map[];
      for i := 0 to |request.demands|
        invariant demands == DemandMap(request.demands[..i]) && members == request.members
      {
        assert request.demands[..i+1][..i] == request.demands[..i];
        demands := demands[request.demands[i].demandId := request.demands[i]];
      }
      assert request.demands[..|request.demands|] == request.demands;
    }

    method Filter()
      requires Distinct(Map(MemberId, members))
      modifies this`options, this`reasons
      ensures Filed(members, options, reasons, demands)
    {
      options, reasons := map[], map[];
      for i := 0 to |members|
        invariant Filed(members[..i], options, reasons, demands)
      {
        var m := members[i];
        var offers, reason := Eligible(m, demands);
        options := options[m.memberId := offers];
        reasons := reasons[m.memberId := reason];
        forall n | n in members[..i] ensures n.memberId != m.memberId {
          var k :| 0 <= k < i && members[k] == n;
          assert Map(MemberId, members)[k] != Map(MemberId, members)[i];
        }
        assert members[..i+1] == members[..i] + [m];
      }
      assert members[..|members|] == members;
    }

    method Rank()
      modifies this`members
      ensures multiset(members) == multiset(old(members)) && Ascending(members, RankLess)
    {
      OfferLessStrict();
      members := SortSlice(members, RankLess);
    }

    /** Refresh one member's offers in place and sort them. */
    method Refresh(m: Member) returns (sorted: seq<Offer>)
      requires m.memberId in options
      requires forall o | o in options[m.memberId] :: |o.order| == 5 && o.demand.demandId in demands
      modifies this`options
      ensures multiset(sorted) == multiset(RefreshedAll(old(options[m.memberId]), demands))
      ensures Ascending(sorted, OfferLess)
      ensures options == old(options)[m.memberId := sorted]
    {
      var offers := options[m.memberId];
      for i := 0 to |offers|
        invariant |offers| == |options[m.memberId]|
        invariant forall k | 0 <= k < i :: offers[k] == Refreshed(options[m.memberId][k], demands)
        invariant forall k | i <= k < |offers| :: offers[k] == options[m.memberId][k]
      {
        assert offers[i] in options[m.memberId];
        var d := demands[offers[i].demand.demandId];
        offers := offers[i := offers[i].(order := offers[i].order[2 := d.supply][3 := d.lastSequence])];
      }
      assert offers == RefreshedAll(options[m.memberId], demands);
      OfferLessStrict();
      sorted := SortSlice(offers, OfferLess);
      options := options[m.memberId := sorted];
    }

    /** One turn of the simulation loop. */
    method SimulateMember(m: Member, seqNo: int, ghost start: Demands) returns (decision: Decision, next: int)
      requires WellKeyed(start) && WellKeyed(demands) && OnlyCountersMoved(start, demands)
      requires Filed([m], options, reasons, start)
      modifies this`demands, this`options
      ensures decision == Decide(m, Ledger(old(demands), seqNo))
      ensures Ledger(demands, next) == After(m, decision, Ledger(old(demands), seqNo))
      ensures m.memberId in options && options == old(options)[m.memberId := options[m.memberId]]
    {
      assert m in [m];
      ghost var now := Ledger(demands, seqNo);
      OffersHaveOrder(m, start);
      var offers := Refresh(m);
      SortedOffersDecide(m, offers, start, now);
      decision, next := Waiting(m, reasons[m.memberId]), seqNo;
      if |offers| > 0 {
        var o := offers[0];
        decision := Assigned(m, o, seqNo);
        var d := demands[o.demand.demandId];
        if d.demandId !in m.counted { d := d.(supply := d.supply + 1); }
        d := d.(lastSequence := seqNo);
        demands := demands[d.demandId := d];
        next := seqNo + 1;
      }
    }

    method Simulate()
      requires WellKeyed(demands) && Filed(members, options, reasons, demands)
      requires Distinct(Map(MemberId, members))
      modifies this`demands, this`options, this`decisions
      ensures decisions == Plan(members, Ledger(old(demands), request.nextSequence))
      ensures demands == Final(members, Ledger(old(demands), request.nextSequence)).demands
    {
      decisions := [];
      var seqNo := request.nextSequence;
      ghost var start := Ledger(demands, seqNo);
      assert members[0..] == members;
      for i := 0 to |members|
        invariant WellKeyed(demands) && OnlyCountersMoved(start.demands, demands)
        invariant Filed(members[i..], options, reasons, start.demands)
        invariant decisions + Plan(members[i..], Ledger(demands, seqNo)) == Plan(members, start)
        invariant Final(members[i..], Ledger(demands, seqNo)) == Final(members, start)
      {
        var m := members[i];
        ghost var now, filed, before := Ledger(demands, seqNo), options, decisions;
        var decision;
        decision, seqNo := SimulateMember(m, seqNo, start.demands);
        OthersKeepTheirFile(members, i, filed, reasons, start.demands, options[m.memberId]);
        AfterKeepsShape(m, decision, now);
        assert OnlyCountersMoved(start.demands, demands);
        decisions := decisions + [decision];
        PlanStep(before, members, i, now);
      }
    }

    method Validate() returns (ok: bool)
      ensures ok <==> |decisions| == |members| && forall i | 0 <= i < |decisions| ::
                && decisions[i].memberId == members[i].memberId
                && decisions[i].qualificationRef == members[i].qualificationRef
                && (decisions[i].action == "assign" ==>
                      |decisions[i].order| == 5 && decisions[i].demandId == decisions[i].order[4])
    {
      if |decisions| != |members| { return false; }
      for i := 0 to |decisions|
        invariant forall k | 0 <= k < i ::
                && decisions[k].memberId == members[k].memberId
                && decisions[k].qualificationRef == members[k].qualificationRef
                && (decisions[k].action == "assign" ==>
                      |decisions[k].order| == 5 && decisions[k].demandId == decisions[k].order[4])
      {
        var d := decisions[i];
        if d.memberId != members[i].memberId || d.qualificationRef != members[i].qualificationRef {
          return false;
        }
        if d.action == "assign" && (|d.order| != 5 || d.demandId != d.order[4]) { return false; }
      }
      return true;
    }

    /** The six steps in turn, unless the context ends before one of them.  A valid
        snapshot that is not interrupted always yields its plan: neither the
        staging nor the final check can spoil it. */
    method Run(stopBefore: nat) returns (progress: Progress)
      modifies this
      ensures progress == Rejected <==> stopBefore > 0 && !Valid(request)
      ensures progress == Completed <==> stopBefore >= STEPS && Valid(request)
      ensures progress == Completed ==> decisions == Allocation(request)
      ensures progress == Completed ==> demands == Final(Ranked(request), Opening(request)).demands
    {
      if stopBefore == 0 { return Stopped; }
      var ok := Read();
      if !ok { return Rejected; }
      if stopBefore == 1 { return Stopped; }
      DemandMapIs(request.demands);
      Filter();
      if stopBefore == 2 { return Stopped; }
      ghost var arrived := members;
      Rank();
      RankingIsUnique(members, request);
      MapPermutes(MemberId, arrived, members);
      DistinctPermutes(Map(MemberId, arrived), Map(MemberId, members));
      SameElements(arrived, members);
      assert Filed(members, options, reasons, demands);
      if stopBefore == 3 { return Stopped; }
      Simulate();
      if stopBefore == 4 { return Stopped; }
      PlanPassesTheCheck(members, Opening(request));
      ok := Validate();
      if !ok { return Rejected; }
      if stopBefore == 5 { return Stopped; }
      return Completed;
    }
  }

  lemma RankedSeparated(ms: seq<Member>)
    requires Distinct(Map(MemberId, ms))
    ensures Separated(ms, RankLess)
  {
    KeysSeparate(MemberId, ms);
  }

  lemma RankingIsUnique(ranked: seq<Member>, s: Snapshot)
    requires multiset(ranked) == multiset(s.members) && Ascending(ranked, RankLess)
    requires Distinct(Map(MemberId, s.members))
    ensures ranked == Ranked(s)
  {
    OfferLessStrict();
    MapPermutes(MemberId, s.members, ranked);
    DistinctPermutes(Map(MemberId, s.members), Map(MemberId, ranked));
    RankedSeparated(ranked);
    SortedIsUnique(ranked, Ranked(s), RankLess);
  }

  lemma {:induction false} PlanPassesTheCheck(ms: seq<Member>, at: Ledger)
    requires WellKeyed(at.demands)
    ensures var ds := Plan(ms, at); |ds| == |ms| && forall i | 0 <= i < |ds| ::
              && ds[i].memberId == ms[i].memberId && ds[i].qualificationRef == ms[i].qualificationRef
              && (ds[i].action == "assign" ==> |ds[i].order| == 5 && ds[i].demandId == ds[i].order[4])
  {
    if ms != [] {
      var d := Decide(ms[0], at);
      AfterKeepsShape(ms[0], d, at);
      if OffersTo(ms[0], at.demands) != [] {
        OffersAre(ms[0].allowed, UsableTags(ms[0].tags), at.demands, Least(OffersTo(ms[0], at.demands)));
      }
      PlanPassesTheCheck(ms[1..], After(ms[0], d, at));
    }
  }
}
