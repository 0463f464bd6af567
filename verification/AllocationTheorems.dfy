/** The order in which a snapshot was sent does not matter: snapshots equal up to
    nested permutations get the identical plan. */
module AllocationTheorems {
  import opened Ordering
  import opened AllocationSnapshot
  import opened AllocationPlan
  import opened AllocationExecution

  // ---------------------------------------------------------------- transport order

  /** The same member, its lists perhaps in another order. */
  ghost predicate SameMember(m: Member, n: Member) {
    MemberContentOf(m) == MemberContentOf(n) && Distinct(Map(CodeOf, m.tags))
  }

  ghost predicate SameDemand(d: Demand, e: Demand) {
    DemandContentOf(d) == DemandContentOf(e) && Distinct(d.preferredTags)
  }

  ghost predicate SameDemands(a: Demands, b: Demands) {
    a.Keys == b.Keys && forall id | id in a :: SameDemand(a[id], b[id])
  }

  lemma {:induction false} UsableTagsAre(tags: seq<Tag>)
    requires Distinct(Map(CodeOf, tags))
    ensures UsableTags(tags).Keys == set t | t in tags && Usable(t) :: t.code
    ensures forall t | t in tags && Usable(t) :: t.code in UsableTags(tags) && UsableTags(tags)[t.code] == t
  {
    if tags != [] {
      var before, last := tags[..|tags|-1], tags[|tags|-1];
      assert tags == before + [last];
      assert Map(CodeOf, before) == Map(CodeOf, tags)[..|before|];
      UsableTagsAre(before);
      forall t | t in before ensures t.code != last.code {
        var k :| 0 <= k < |before| && before[k] == t;
        assert Map(CodeOf, tags)[k] != Map(CodeOf, tags)[|tags|-1];
      }
    }
  }

  lemma UsableTagsPermute(m: Member, n: Member)
    requires SameMember(m, n)
    ensures UsableTags(m.tags) == UsableTags(n.tags)
  {
    MapPermutes(CodeOf, m.tags, n.tags);
    DistinctPermutes(Map(CodeOf, m.tags), Map(CodeOf, n.tags));
    UsableTagsAre(m.tags);
    UsableTagsAre(n.tags);
    SameElements(m.tags, n.tags);
    var a, b := UsableTags(m.tags), UsableTags(n.tags);
    forall k | k in a ensures k in b && a[k] == b[k] {
      var t :| t in m.tags && Usable(t) && t.code == k;
    }
    forall k | k in b ensures k in a {
      var t :| t in n.tags && Usable(t) && t.code == k;
    }
    assert a.Keys == b.Keys;
  }

  /** With no repeats, the score counts a set. */
  lemma {:induction false} CountsASet(s: seq<string>, keys: set<string>)
    requires Distinct(s)
    ensures CountIn(s, keys) == |Elements(s) * keys|
  {
    if s == [] {
      assert Elements(s) == {};
    } else {
      var before, last := s[..|s|-1], s[|s|-1];
      assert s == before + [last];
      CountsASet(before, keys);
      assert last !in before;
      assert Elements(s) * keys == if last in keys then Elements(before) * keys + {last} else Elements(before) * keys;
    }
  }

  lemma DemandFacts(d: Demand, e: Demand)
    requires SameDemand(d, e)
    ensures d.demandId == e.demandId && d.departmentRef == e.departmentRef && d.receptionState == e.receptionState
    ensures d.priority == e.priority && d.supply == e.supply && d.lastSequence == e.lastSequence
    ensures Elements(d.requiredTags) == Elements(e.requiredTags)
    ensures Elements(d.preferredTags) == Elements(e.preferredTags) && Distinct(e.preferredTags)
  {
    var f, g := DemandContentOf(d).fixed, DemandContentOf(e).fixed;
    assert f.demandId == g.demandId && f.departmentRef == g.departmentRef && f.receptionState == g.receptionState;
    assert f.priority == g.priority && f.supply == g.supply && f.lastSequence == g.lastSequence;
    SameElements(d.requiredTags, e.requiredTags);
    SameElements(d.preferredTags, e.preferredTags);
    DistinctPermutes(d.preferredTags, e.preferredTags);
  }

  lemma SameHits(d: Demand, e: Demand, usable: map<string, Tag>)
    requires Elements(d.requiredTags) == Elements(e.requiredTags)
    requires Elements(d.preferredTags) == Elements(e.preferredTags)
    ensures Hits(d, usable) == Hits(e, usable)
    ensures (forall t | t in d.requiredTags :: t in usable) <==> (forall t | t in e.requiredTags :: t in usable)
  {
    forall t ensures t in d.requiredTags <==> t in e.requiredTags {
      assert t in d.requiredTags <==> t in Elements(d.requiredTags);
      assert t in e.requiredTags <==> t in Elements(e.requiredTags);
    }
    forall t ensures t in d.preferredTags <==> t in e.preferredTags {
      assert t in d.preferredTags <==> t in Elements(d.preferredTags);
      assert t in e.preferredTags <==> t in Elements(e.preferredTags);
    }
  }

  lemma SameDemandSameOffer(d: Demand, e: Demand, usable: map<string, Tag>)
    requires SameDemand(d, e)
    ensures Suits(d, usable) <==> Suits(e, usable)
    ensures SameOffer(OfferOf(d, usable), OfferOf(e, usable))
  {
    DemandFacts(d, e);
    SameHits(d, e, usable);
    CountsASet(d.preferredTags, usable.Keys);
    CountsASet(e.preferredTags, usable.Keys);
  }

  lemma MemberFacts(m: Member, n: Member)
    requires SameMember(m, n)
    ensures m.memberId == n.memberId && m.qualificationRef == n.qualificationRef
    ensures forall id :: id in m.allowed <==> id in n.allowed
    ensures forall id :: id in m.counted <==> id in n.counted
    ensures |m.allowed| == |n.allowed|
  {
    var f, g := MemberContentOf(m).fixed, MemberContentOf(n).fixed;
    assert f.memberId == g.memberId && f.qualificationRef == g.qualificationRef;
    SameElements(m.allowed, n.allowed);
    SameElements(m.counted, n.counted);
  }

  /** Every offer to one is matched by an offer to the other. */
  lemma MatchingOffer(m: Member, n: Member, a: Demands, b: Demands, o: Offer) returns (p: Offer)
    requires SameMember(m, n) && SameDemands(a, b) && o in OffersTo(m, a)
    ensures p in OffersTo(n, b) && SameOffer(o, p)
  {
    UsableTagsPermute(m, n);
    MemberFacts(m, n);
    var usable := UsableTags(m.tags);
    OffersAre(m.allowed, usable, a, o);
    var id :| id in m.allowed && id in a && Suits(a[id], usable) && o == OfferOf(a[id], usable);
    SameDemandSameOffer(a[id], b[id], usable);
    p := OfferOf(b[id], usable);
    OffersAre(n.allowed, usable, b, p);
  }

  lemma SameIsSymmetric(m: Member, n: Member, a: Demands, b: Demands)
    requires SameMember(m, n) && SameDemands(a, b)
    ensures SameMember(n, m) && SameDemands(b, a)
  {
    MapPermutes(CodeOf, m.tags, n.tags);
    DistinctPermutes(Map(CodeOf, m.tags), Map(CodeOf, n.tags));
    forall id | id in a ensures SameDemand(b[id], a[id]) { DemandFacts(a[id], b[id]); }
  }

  lemma SameReason(m: Member, n: Member, a: Demands, b: Demands)
    requires SameMember(m, n) && SameDemands(a, b)
    ensures Reason(m.allowed, a) == Reason(n.allowed, b)
  {
    MemberFacts(m, n);
    forall id | id in a ensures Receiving(a[id]) <==> Receiving(b[id]) { DemandFacts(a[id], b[id]); }
  }

  lemma SameDecision(m: Member, n: Member, at: Ledger, bt: Ledger)
    requires SameMember(m, n) && SameDemands(at.demands, bt.demands) && at.next == bt.next
    requires WellKeyed(bt.demands)
    ensures Decide(m, at) == Decide(n, bt)
  {
    SameReason(m, n, at.demands, bt.demands);
    MemberFacts(m, n);
    SameIsSymmetric(m, n, at.demands, bt.demands);
    var os, ps := OffersTo(m, at.demands), OffersTo(n, bt.demands);
    OffersNeverTie(n.allowed, UsableTags(n.tags), bt.demands);
    if os != [] {
      var p1 := MatchingOffer(m, n, at.demands, bt.demands, Least(os));
      var o1 := MatchingOffer(n, m, bt.demands, at.demands, Least(ps));
      MinimalAgrees(Least(os), os, Least(ps), ps, o1, p1);
    } else if ps != [] {
      var o1 := MatchingOffer(n, m, bt.demands, at.demands, ps[0]);
    }
  }

  lemma SameAfter(m: Member, n: Member, d: Decision, at: Ledger, bt: Ledger)
    requires SameMember(m, n) && SameDemands(at.demands, bt.demands) && at.next == bt.next
    ensures SameDemands(After(m, d, at).demands, After(n, d, bt).demands)
    ensures After(m, d, at).next == After(n, d, bt).next
  {
    MemberFacts(m, n);
    if d.action == "assign" && d.demandId in at.demands {
      var x, y := at.demands[d.demandId], bt.demands[d.demandId];
      DemandFacts(x, y);
      var u, v := Booked(x, m, at.next), Booked(y, n, bt.next);
      assert DemandContentOf(u).fixed == DemandContentOf(x).fixed.(supply := u.supply, lastSequence := at.next);
      assert DemandContentOf(v).fixed == DemandContentOf(y).fixed.(supply := v.supply, lastSequence := at.next);
    }
  }

  lemma {:induction false} SamePlan(ms: seq<Member>, ns: seq<Member>, at: Ledger, bt: Ledger)
    requires |ms| == |ns| && forall i | 0 <= i < |ms| :: SameMember(ms[i], ns[i])
    requires SameDemands(at.demands, bt.demands) && at.next == bt.next && WellKeyed(bt.demands)
    ensures Plan(ms, at) == Plan(ns, bt)
  {
    if ms != [] {
      SameDecision(ms[0], ns[0], at, bt);
      var d := Decide(ms[0], at);
      SameAfter(ms[0], ns[0], d, at, bt);
      AfterKeepsShape(ns[0], d, bt);
      SamePlan(ms[1..], ns[1..], After(ms[0], d, at), After(ns[0], d, bt));
    }
  }

  predicate RankContentLess(x: MemberContent, y: MemberContent) { RankLess(x.fixed, y.fixed) }

  lemma RankedContentsAlign(a: seq<Member>, b: seq<Member>)
    requires multiset(Map(MemberContentOf, a)) == multiset(Map(MemberContentOf, b))
    requires Distinct(Map(MemberId, a)) && Ascending(a, RankLess) && Ascending(b, RankLess)
    ensures |a| == |b| && forall i | 0 <= i < |a| :: MemberContentOf(a[i]) == MemberContentOf(b[i])
  {
    var contents := Map(MemberContentOf, a);
    assert Map(MemberId, a) == Map(ContentMemberId, contents);
    KeysSeparate(ContentMemberId, contents);
    SameContentsAligned(MemberContentOf, a, b, RankContentLess);
  }

  lemma RankedFacts(s: Snapshot)
    requires UniqueKeys(s)
    ensures multiset(Map(MemberContentOf, Ranked(s))) == multiset(Map(MemberContentOf, s.members))
    ensures Distinct(Map(MemberId, Ranked(s))) && Ascending(Ranked(s), RankLess)
    ensures forall m :: m in Ranked(s) <==> m in s.members
  {
    OfferLessStrict();
    MapPermutes(MemberContentOf, Ranked(s), s.members);
    MapPermutes(MemberId, s.members, Ranked(s));
    DistinctPermutes(Map(MemberId, s.members), Map(MemberId, Ranked(s)));
    SameElements(Ranked(s), s.members);
  }

  lemma RanksAligned(s: Snapshot, t: Snapshot)
    requires Valid(s) && Content(s) == Content(t)
    ensures |Ranked(s)| == |Ranked(t)|
    ensures forall i | 0 <= i < |Ranked(s)| :: SameMember(Ranked(s)[i], Ranked(t)[i])
  {
    UniqueKeysAreContent(s, t);
    RankedFacts(s);
    RankedFacts(t);
    RankedContentsAlign(Ranked(s), Ranked(t));
    forall i | 0 <= i < |Ranked(s)| ensures Distinct(Map(CodeOf, Ranked(s)[i].tags)) {
      assert Ranked(s)[i] in s.members;
    }
  }

  lemma DemandAtKey(ds: seq<Demand>, d: Demand)
    requires Distinct(Map(DemandId, ds)) && d in ds
    ensures d.demandId in DemandMap(ds) && DemandMap(ds)[d.demandId] == d
  {
    DemandMapIs(ds);
    KeysSeparate(DemandId, ds);
    var k :| 0 <= k < |ds| && ds[k] == d;
    assert Map(DemandId, ds)[k] == d.demandId;
  }

  lemma OpeningsAligned(s: Snapshot, t: Snapshot)
    requires Valid(s) && Content(s) == Content(t)
    ensures SameDemands(DemandMap(s.demands), DemandMap(t.demands))
  {
    UniqueKeysAreContent(s, t);
    DemandMapIs(s.demands);
    DemandMapIs(t.demands);
    var a, b := DemandMap(s.demands), DemandMap(t.demands);
    forall id | id in a ensures SameDemand(a[id], b[id]) {
      var d := DemandCounterpart(s, t, b[id]);
      assert DemandContentOf(d).fixed.demandId == DemandContentOf(b[id]).fixed.demandId;
      DemandAtKey(s.demands, d);
    }
  }

  /** Snapshots that differ only in transport order are accepted together and
      receive the same decisions, to the last tag and reason. */
  lemma TransportOrderIsIrrelevant(s: Snapshot, t: Snapshot)
    requires Content(s) == Content(t) && Valid(s)
    ensures Valid(t) && Allocation(s) == Allocation(t)
  {
    ValidityIsContent(s, t);
    RanksAligned(s, t);
    OpeningsAligned(s, t);
    DemandMapIs(t.demands);
    assert Content(s).fixed.nextSequence == Content(t).fixed.nextSequence;
    SamePlan(Ranked(s), Ranked(t), Opening(s), Opening(t));
  }
}
