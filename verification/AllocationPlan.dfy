/** The allocator: what a demand offers a member, the one-pass specification of a
    plan, and the staged execution that computes it. */
module AllocationPlan {
  import opened Ordering
  import opened AllocationSnapshot

  type Demands = map<int, Demand>

  /** One demand a member may go to: `demand` is the demand as first read. */
  datatype Offer = Offer(demand: Demand, hits: seq<string>, refs: seq<string>, order: seq<int>)

  datatype Decision = Decision(memberId: int, qualificationRef: string, action: string, demandId: int,
                               departmentRef: string, matchedTags: seq<string>,
                               assertionRefs: seq<string>, order: seq<int>, sequence: int,
                               reasonCode: string)

  /** Where the allocator stands between two members. */
  datatype Ledger = Ledger(demands: Demands, next: int)

  // ---------------------------------------------------------------- offers

  predicate Usable(t: Tag) {
    t.verified && t.status == "supported" && (t.source == "manual" || t.confidenceBps >= 8000)
  }

  /** Usable tags by code; a later tag replaces an earlier one of the same code. */
  function UsableTags(tags: seq<Tag>): map<string, Tag> {
    if tags == [] then map[]
    else
      var before, t := UsableTags(tags[..|tags|-1]), tags[|tags|-1];
      if Usable(t) then before[t.code := t] else before
  }

  function CountIn(s: seq<string>, keys: set<string>): nat {
    if s == [] then 0
    else CountIn(s[..|s|-1], keys) + if s[|s|-1] in keys then 1 else 0
  }

  predicate Receiving(d: Demand) { d.receptionState == "receiving" }

  function Hits(d: Demand, usable: map<string, Tag>): set<string> {
    set t | t in usable && (t in d.requiredTags || t in d.preferredTags)
  }

  predicate Suits(d: Demand, usable: map<string, Tag>) {
    && Receiving(d)
    && (forall t | t in d.requiredTags :: t in usable)
    && Hits(d, usable) != {}
  }

  function RefsFor(hits: seq<string>, usable: map<string, Tag>): seq<string>
    requires forall h | h in hits :: h in usable
  {
    seq(|hits|, i requires 0 <= i < |hits| => usable[hits[i]].assertionRef)
  }

  function OrderOf(d: Demand, usable: map<string, Tag>): seq<int> {
    [0 - CountIn(d.preferredTags, usable.Keys), d.priority, d.supply, d.lastSequence, d.demandId]
  }

  ghost function OfferOf(d: Demand, usable: map<string, Tag>): Offer {
    var hits := Enumeration(Hits(d, usable));
    assert forall h | h in hits :: h in Elements(hits);
    Offer(d, hits, RefsFor(hits, usable), OrderOf(d, usable))
  }

  ghost function Offers(allowed: seq<int>, usable: map<string, Tag>, demands: Demands): seq<Offer> {
    if allowed == [] then []
    else
      var id := allowed[|allowed|-1];
      Offers(allowed[..|allowed|-1], usable, demands) +
      if id in demands && Suits(demands[id], usable) then [OfferOf(demands[id], usable)] else []
  }

  predicate AnyReceiving(allowed: seq<int>, demands: Demands) {
    exists id | id in allowed :: id in demands && Receiving(demands[id])
  }

  function Reason(allowed: seq<int>, demands: Demands): string {
    if allowed == [] then "no_active_mapping"
    else if AnyReceiving(allowed, demands) then "required_tags_unavailable"
    else "no_receiving_demand"
  }

  lemma {:induction false} OffersAre(allowed: seq<int>, usable: map<string, Tag>, demands: Demands, o: Offer)
    ensures o in Offers(allowed, usable, demands) <==>
            exists id | id in allowed :: id in demands && Suits(demands[id], usable) && o == OfferOf(demands[id], usable)
  {
    if allowed != [] {
      var id, before := allowed[|allowed|-1], allowed[..|allowed|-1];
      OffersAre(before, usable, demands, o);
      assert allowed == before + [id];
    }
  }

  /** tags[i] is the last usable tag of its code. */
  predicate LastUsable(tags: seq<Tag>, i: int, code: string)
    requires 0 <= i < |tags|
  {
    && Usable(tags[i]) && tags[i].code == code
    && forall j | i < j < |tags| :: !(Usable(tags[j]) && tags[j].code == code)
  }

  /** Exactly the codes of usable tags, each with its last one. */
  ghost predicate ByCode(tags: seq<Tag>, usable: map<string, Tag>) {
    && (forall t | t in tags && Usable(t) :: t.code in usable)
    && (forall c | c in usable :: exists i | 0 <= i < |tags| :: LastUsable(tags, i, c) && usable[c] == tags[i])
  }

  lemma {:induction false} UsableTagsByCode(tags: seq<Tag>)
    ensures ByCode(tags, UsableTags(tags))
  {
    if tags != [] {
      var n := |tags| - 1;
      var before, usable := tags[..n], UsableTags(tags);
      UsableTagsByCode(before);
      assert tags == before + [tags[n]];
      forall c | c in usable ensures exists i | 0 <= i < |tags| :: LastUsable(tags, i, c) && usable[c] == tags[i] {
        if Usable(tags[n]) && tags[n].code == c {
          assert LastUsable(tags, n, c);
        } else {
          var i :| 0 <= i < n && LastUsable(before, i, c) && UsableTags(before)[c] == before[i];
          assert LastUsable(tags, i, c);
        }
      }
    }
  }

  method UsableByCode(tags: seq<Tag>) returns (usable: map<string, Tag>)
    ensures usable == UsableTags(tags) && ByCode(tags, usable)
  {
    UsableTagsByCode(tags);
    usable := map[];
    for i := 0 to |tags|
      invariant usable == UsableTags(tags[..i])
    {
      assert tags[..i+1][..i] == tags[..i];
      if Usable(tags[i]) { usable := usable[tags[i].code := tags[i]]; }
    }
    assert tags[..|tags|] == tags;
  }

  /** The codes a demand and a member share, in order; None when the demand does not suit. */
  method MatchDemand(d: Demand, usable: map<string, Tag>) returns (suits: bool, score: nat, keys: seq<string>)
    requires Receiving(d)
    ensures suits <==> Suits(d, usable)
    ensures suits ==> score == CountIn(d.preferredTags, usable.Keys)
    ensures suits ==> keys == Enumeration(Hits(d, usable))
  {
    var ok, hit := true, {};
    score, keys := 0, [];
    for i := 0 to |d.requiredTags|
      invariant ok <==> forall t | t in d.requiredTags[..i] :: t in usable
      invariant hit == set t | t in usable && t in d.requiredTags[..i]
    {
      var t := d.requiredTags[i];
      assert d.requiredTags[..i+1] == d.requiredTags[..i] + [t];
      if t !in usable { ok := false; }
      if t in usable { hit := hit + {t}; }
    }
    assert d.requiredTags[..|d.requiredTags|] == d.requiredTags;
    if !ok { return false, 0, []; }
    ghost var required := hit;
    for i := 0 to |d.preferredTags|
      invariant hit == required + set t | t in usable && t in d.preferredTags[..i]
      invariant score == CountIn(d.preferredTags[..i], usable.Keys)
    {
      var t := d.preferredTags[i];
      assert d.preferredTags[..i+1] == d.preferredTags[..i] + [t];
      assert d.preferredTags[..i+1][..i] == d.preferredTags[..i];
      if t in usable {
        score := score + 1;
        hit := hit + {t};
      }
    }
    assert d.preferredTags[..|d.preferredTags|] == d.preferredTags;
    assert hit == Hits(d, usable);
    if hit == {} { return false, 0, []; }
    keys := SortedMembers(hit);
    return true, score, keys;
  }

  method CollectRefs(keys: seq<string>, usable: map<string, Tag>) returns (refs: seq<string>)
    requires forall h | h in keys :: h in usable
    ensures refs == RefsFor(keys, usable)
  {
    refs := [];
    for j := 0 to |keys|
      invariant |refs| == j && forall k | 0 <= k < j :: refs[k] == usable[keys[k]].assertionRef
    {
      refs := refs + [usable[keys[j]].assertionRef];
    }
  }

  method MakeOffer(d: Demand, usable: map<string, Tag>) returns (suits: bool, offer: Offer)
    requires Receiving(d)
    ensures suits <==> Suits(d, usable)
    ensures suits ==> offer == OfferOf(d, usable)
  {
    var score, keys, refs;
    suits, score, keys := MatchDemand(d, usable);
    refs := [];
    if suits {
      assert forall h | h in keys :: h in Elements(keys);
      refs := CollectRefs(keys, usable);
    }
    offer := Offer(d, keys, refs, [0 - score, d.priority, d.supply, d.lastSequence, d.demandId]);
  }

  method Eligible(m: Member, demands: Demands) returns (result: seq<Offer>, reason: string)
    ensures result == Offers(m.allowed, UsableTags(m.tags), demands)
    ensures reason == Reason(m.allowed, demands)
  {
    reason := "no_active_mapping";
    if |m.allowed| > 0 { reason := "no_receiving_demand"; }
    var usable := UsableByCode(m.tags);
    result := [];
    for i := 0 to |m.allowed|
      invariant result == Offers(m.allowed[..i], usable, demands)
      invariant reason == if m.allowed == [] then "no_active_mapping"
                          else if AnyReceiving(m.allowed[..i], demands) then "required_tags_unavailable"
                          else "no_receiving_demand"
    {
      var id := m.allowed[i];
      assert m.allowed[..i+1] == m.allowed[..i] + [id];
      assert m.allowed[..i+1][..i] == m.allowed[..i];
      if id !in demands || !Receiving(demands[id]) { continue; }
      reason := "required_tags_unavailable";
      var suits, offer := MakeOffer(demands[id], usable);
      if !suits { continue; }
      result := result + [offer];
    }
    assert m.allowed[..|m.allowed|] == m.allowed;
  }

  // ---------------------------------------------------------------- the one-pass plan

  ghost predicate Minimal(o: Offer, os: seq<Offer>) {
    o in os && forall p | p in os :: !VectorLess(p.order, o.order)
  }

  ghost function Least(os: seq<Offer>): (o: Offer)
    requires os != []
    ensures Minimal(o, os)
  {
    VectorLessTotal();
    if |os| == 1 then os[0]
    else
      var before, last := Least(os[..|os|-1]), os[|os|-1];
      assert os == os[..|os|-1] + [last];
      if VectorLess(last.order, before.order) then last else before
  }

  function Waiting(m: Member, reason: string): Decision {
    Decision(m.memberId, m.qualificationRef, "wait", 0, "", [], [], [], 0, reason)
  }

  function Assigned(m: Member, o: Offer, next: int): Decision {
    Decision(m.memberId, m.qualificationRef, "assign", o.demand.demandId, o.demand.departmentRef,
             o.hits, o.refs, o.order, next, "allocated")
  }

  ghost function OffersTo(m: Member, demands: Demands): seq<Offer> {
    Offers(m.allowed, UsableTags(m.tags), demands)
  }

  ghost function Decide(m: Member, at: Ledger): Decision {
    var os := OffersTo(m, at.demands);
    if os == [] then Waiting(m, Reason(m.allowed, at.demands))
    else Assigned(m, Least(os), at.next)
  }

  function Booked(d: Demand, m: Member, next: int): Demand {
    d.(supply := d.supply + (if d.demandId in m.counted then 0 else 1), lastSequence := next)
  }

  function After(m: Member, d: Decision, at: Ledger): Ledger {
    if d.action == "assign" && d.demandId in at.demands then
      Ledger(at.demands[d.demandId := Booked(at.demands[d.demandId], m, at.next)], at.next + 1)
    else at
  }

  /** Each member in turn takes the least of what is on offer at that moment. */
  ghost function Plan(members: seq<Member>, at: Ledger): seq<Decision> {
    if members == [] then []
    else
      var d := Decide(members[0], at);
      [d] + Plan(members[1..], After(members[0], d, at))
  }

  ghost function Final(members: seq<Member>, at: Ledger): Ledger {
    if members == [] then at
    else Final(members[1..], After(members[0], Decide(members[0], at), at))
  }

  predicate RankLess(a: Member, b: Member) {
    var x := if a.createdAt.Instant? then a.createdAt.at else 0;
    var y := if b.createdAt.Instant? then b.createdAt.at else 0;
    if x != y then x < y else a.memberId < b.memberId
  }

  function DemandMap(ds: seq<Demand>): Demands {
    if ds == [] then map[]
    else DemandMap(ds[..|ds|-1])[ds[|ds|-1].demandId := ds[|ds|-1]]
  }

  function Ranked(s: Snapshot): seq<Member> { Arrange(s.members, RankLess) }

  function Opening(s: Snapshot): Ledger { Ledger(DemandMap(s.demands), s.nextSequence) }

  /** The plan a snapshot stands for. */
  ghost function Allocation(s: Snapshot): seq<Decision> { Plan(Ranked(s), Opening(s)) }

  ghost predicate WellKeyed(demands: Demands) {
    forall id | id in demands :: demands[id].demandId == id
  }

  lemma {:induction ds} DemandMapIs(ds: seq<Demand>)
    ensures WellKeyed(DemandMap(ds)) && DemandMap(ds).Keys == Elements(Map(DemandId, ds))
    ensures forall id | id in DemandMap(ds) :: DemandMap(ds)[id] in ds
  {
    if ds != [] {
      assert ds == ds[..|ds|-1] + [ds[|ds|-1]];
      assert Map(DemandId, ds) == Map(DemandId, ds[..|ds|-1]) + [ds[|ds|-1].demandId];
      assert Elements(Map(DemandId, ds)) == Elements(Map(DemandId, ds[..|ds|-1])) + {ds[|ds|-1].demandId};
    }
  }

  // ---------------------------------------------------------------- choosing is well defined

  /** Offers alike in everything a decision uses. */
  predicate SameOffer(o: Offer, p: Offer) {
    && o.hits == p.hits && o.refs == p.refs && o.order == p.order
    && o.demand.demandId == p.demand.demandId && o.demand.departmentRef == p.demand.departmentRef
  }

  ghost predicate NoTies(ps: seq<Offer>) {
    forall p, q | p in ps && q in ps && p.order == q.order :: SameOffer(p, q)
  }

  /** Two lists each holding the other's least offer agree on what is least. */
  lemma MinimalAgrees(o: Offer, os: seq<Offer>, p: Offer, ps: seq<Offer>, o1: Offer, p1: Offer)
    requires NoTies(ps) && Minimal(o, os) && Minimal(p, ps)
    requires o1 in os && SameOffer(o1, p) && p1 in ps && SameOffer(o, p1)
    ensures SameOffer(o, p)
  {
    LexConnected(p1.order, p.order, IntLess);
    assert p1.order == p.order;
  }

  /** An offer is settled by the demand's id, the last slot of its order. */
  lemma OffersNeverTie(allowed: seq<int>, usable: map<string, Tag>, demands: Demands)
    requires WellKeyed(demands)
    ensures NoTies(Offers(allowed, usable, demands))
  {
    var os := Offers(allowed, usable, demands);
    forall p, q | p in os && q in os && p.order == q.order ensures SameOffer(p, q) {
      OffersAre(allowed, usable, demands, p);
      OffersAre(allowed, usable, demands, q);
      assert p.order[4] == q.order[4];
    }
  }

  /** A member waits exactly when no allowed demand suits it, and is told why. */
  lemma WaitsExactlyWhenNothingSuits(m: Member, at: Ledger)
    ensures var d := Decide(m, at); var usable := UsableTags(m.tags);
      && (d.action == "wait" <==> forall id | id in m.allowed && id in at.demands :: !Suits(at.demands[id], usable))
      && (d.action == "wait" || d.action == "assign")
      && (d.action == "wait" ==> d.reasonCode == Reason(m.allowed, at.demands))
  {
    var usable := UsableTags(m.tags);
    var os := OffersTo(m, at.demands);
    if os == [] {
      forall id | id in m.allowed && id in at.demands ensures !Suits(at.demands[id], usable) {
        OffersAre(m.allowed, usable, at.demands, OfferOf(at.demands[id], usable));
      }
    } else {
      OffersAre(m.allowed, usable, at.demands, os[0]);
    }
  }

  /** An assigned member goes to the suiting allowed demand whose order vector
      precedes that of every other one. */
  lemma AssignsTheLeast(m: Member, at: Ledger, id: int)
    requires WellKeyed(at.demands) && Decide(m, at).action == "assign"
    requires id in m.allowed && id in at.demands && Suits(at.demands[id], UsableTags(m.tags))
    ensures var d := Decide(m, at); var usable := UsableTags(m.tags);
      && d.demandId in m.allowed && d.demandId in at.demands && Suits(at.demands[d.demandId], usable)
      && d.order == OrderOf(at.demands[d.demandId], usable)
      && Enumerates(d.matchedTags, Hits(at.demands[d.demandId], usable))
      && (id == d.demandId || VectorLess(d.order, OrderOf(at.demands[id], usable)))
  {
    var usable := UsableTags(m.tags);
    var os := OffersTo(m, at.demands);
    OffersAre(m.allowed, usable, at.demands, Least(os));
    OffersAre(m.allowed, usable, at.demands, OfferOf(at.demands[id], usable));
    VectorLessTotal();
    assert OrderOf(at.demands[id], usable)[4] == id;
  }
}
