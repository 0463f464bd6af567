/** Allocation snapshots: the check on arrival, the canonical form, and the
    content that transport order cannot change. */
module AllocationSnapshot {
  import opened Ordering

  /** A digest stands for the value it was computed from: two digests agree only
      when the values do.  Text that is no digest of anything is Unrelated. */
  datatype Digest<T> = Of(value: T) | Unrelated(hex: string)

  /** A timestamp is the text sent and the instant it denotes, in nanoseconds. */
  datatype Timestamp = Instant(text: string, at: int) | Malformed(text: string)

  datatype Tag = Tag(code: string, status: string, confidenceBps: int, source: string,
                     assertionRef: string, verified: bool)

  datatype Member = Member(memberId: int, candidateRef: string, applicationRef: string,
                           qualificationRef: string, qualificationRevision: int, memberRevision: int,
                           workflowRevision: int, sourceRevision: int, standardRef: string,
                           standardHash: string, tagsHash: Digest<seq<Tag>>, admitted: bool,
                           createdAt: Timestamp, tags: seq<Tag>, allowed: seq<int>, counted: seq<int>)

  datatype Demand = Demand(demandId: int, departmentRef: string, revision: int, receptionState: string,
                           requiredTags: seq<string>, preferredTags: seq<string>, priority: int,
                           supply: int, lastSequence: int)

  datatype Snapshot = Snapshot(snapshotId: string, snapshotAt: Timestamp, scopeRef: string,
                               entityRef: string, poolRef: string, scopeRevision: int,
                               policyRevision: int, epoch: int, nextSequence: int,
                               windowSeconds: int, members: seq<Member>, demands: seq<Demand>)

  // ---------------------------------------------------------------- keys and orders

  function CodeOf(t: Tag): string { t.code }
  function RefOf(t: Tag): string { t.assertionRef }
  function MemberId(m: Member): int { m.memberId }
  function CandidateOf(m: Member): string { m.candidateRef }
  function DemandId(d: Demand): int { d.demandId }

  predicate TagLess(x: Tag, y: Tag) { StringLess(x.code, y.code) }
  predicate MemberLess(x: Member, y: Member) { x.memberId < y.memberId }
  predicate DemandLess(x: Demand, y: Demand) { x.demandId < y.demandId }

  lemma OrdersAreStrict()
    ensures StrictOrder(TagLess) && StrictOrder(MemberLess) && StrictOrder(DemandLess)
    ensures StrictOrder(IntLess) && StrictOrder(StringLess)
  {
    StringLessTotal();
  }

  // ---------------------------------------------------------------- content

  /** A member with the order of its lists forgotten. */
  datatype MemberContent = MemberContent(fixed: Member, tags: multiset<Tag>,
                                         allowed: multiset<int>, counted: multiset<int>)

  /** A demand with the order of its lists forgotten. */
  datatype DemandContent = DemandContent(fixed: Demand, required: multiset<string>,
                                         preferred: multiset<string>)

  /** What a snapshot says, whatever order it was sent in. */
  datatype SnapshotContent = SnapshotContent(fixed: Snapshot, members: multiset<MemberContent>,
                                             demands: multiset<DemandContent>)

  function MemberContentOf(m: Member): MemberContent {
    MemberContent(m.(tags := [], allowed := [], counted := []),
                  multiset(m.tags), multiset(m.allowed), multiset(m.counted))
  }

  function DemandContentOf(d: Demand): DemandContent {
    DemandContent(d.(requiredTags := [], preferredTags := []),
                  multiset(d.requiredTags), multiset(d.preferredTags))
  }

  function Content(s: Snapshot): SnapshotContent {
    SnapshotContent(s.(members := [], demands := []),
                    multiset(Map(MemberContentOf, s.members)), multiset(Map(DemandContentOf, s.demands)))
  }

  // ---------------------------------------------------------------- the check on arrival

  ghost predicate ValidTags(m: Member) {
    && m.tagsHash.Of? && multiset(m.tagsHash.value) == multiset(m.tags)
    && Ascending(m.tagsHash.value, TagLess)
    && Distinct(Map(CodeOf, m.tags)) && Distinct(Map(RefOf, m.tags))
    && forall t | t in m.tags :: t.verified
  }

  ghost predicate ValidMember(m: Member, ids: set<int>) {
    && m.memberId > 0 && m.admitted && m.createdAt.Instant?
    && Elements(m.allowed) <= ids && Distinct(m.allowed)
    && Elements(m.counted) <= ids && Distinct(m.counted)
    && ValidTags(m)
  }

  predicate ValidDemand(d: Demand, next: int) {
    && d.demandId > 0 && d.lastSequence < next
    && Distinct(d.requiredTags) && Distinct(d.preferredTags)
  }

  function DemandIds(s: Snapshot): set<int> { Elements(Map(DemandId, s.demands)) }

  ghost predicate UniqueKeys(s: Snapshot) {
    && Distinct(Map(DemandId, s.demands)) && Distinct(Map(MemberId, s.members))
    && Distinct(Map(CandidateOf, s.members))
  }

  ghost predicate Valid(s: Snapshot) {
    && s.snapshotAt.Instant? && s.nextSequence >= 1 && UniqueKeys(s)
    && (forall d | d in s.demands :: ValidDemand(d, s.nextSequence))
    && (forall m | m in s.members :: ValidMember(m, DemandIds(s)))
  }

  lemma TagsSeparated(tags: seq<Tag>)
    requires Distinct(Map(CodeOf, tags))
    ensures Separated(tags, TagLess)
  {
    StringLessTotal();
    forall x, y | x in tags && y in tags && x != y
      ensures TagLess(x, y) || TagLess(y, x)
    {
      var i :| 0 <= i < |tags| && tags[i] == x;
      var j :| 0 <= j < |tags| && tags[j] == y;
      assert Map(CodeOf, tags)[i] != Map(CodeOf, tags)[j];
    }
  }

  /** The digest of a tag list is that of some code-ordered arrangement of it. */
  method TagHash(tags: seq<Tag>) returns (d: Digest<seq<Tag>>)
    ensures d.Of? && multiset(d.value) == multiset(tags) && Ascending(d.value, TagLess)
  {
    OrdersAreStrict();
    var copyTags := SortSlice(tags, TagLess);
    d := Of(copyTags);
  }

  /** One pass with a set of values seen so far. */
  method Repeats<T(==)>(s: seq<T>) returns (found: bool)
    ensures found <==> !Distinct(s)
  {
    var seen: set<T> := {};
    for i := 0 to |s|
      invariant seen == Elements(s[..i]) && Distinct(s[..i])
    {
      if s[i] in seen {
        assert exists k :: 0 <= k < i && s[k] == s[i];
        return true;
      }
      seen := seen + {s[i]};
      assert s[..i+1] == s[..i] + [s[i]];
    }
    assert s[..|s|] == s;
    return false;
  }

  method ValidateIds(ids: seq<int>, known: set<int>) returns (ok: bool)
    ensures ok <==> Elements(ids) <= known && Distinct(ids)
  {
    var seen: set<int> := {};
    for i := 0 to |ids|
      invariant seen == Elements(ids[..i]) && seen <= known && Distinct(ids[..i])
    {
      if ids[i] !in known || ids[i] in seen {
        assert ids[i] in Elements(ids);
        assert ids[i] in seen ==> exists k :: 0 <= k < i && ids[k] == ids[i];
        return false;
      }
      seen := seen + {ids[i]};
      assert ids[..i+1] == ids[..i] + [ids[i]];
    }
    assert ids[..|ids|] == ids;
    return true;
  }

  method ValidateTags(m: Member) returns (ok: bool)
    ensures ok <==> Distinct(Map(CodeOf, m.tags)) && Distinct(Map(RefOf, m.tags))
                    && forall t | t in m.tags :: t.verified
  {
    var codes: set<string>, refs: set<string> := {}, {};
    var tags := m.tags;
    for i := 0 to |tags|
      invariant codes == Elements(Map(CodeOf, tags[..i])) && refs == Elements(Map(RefOf, tags[..i]))
      invariant Distinct(Map(CodeOf, tags[..i])) && Distinct(Map(RefOf, tags[..i]))
      invariant forall t | t in tags[..i] :: t.verified
    {
      var t := tags[i];
      assert Map(CodeOf, tags[..i]) == Map(CodeOf, tags)[..i];
      assert Map(RefOf, tags[..i]) == Map(RefOf, tags)[..i];
      if t.code in codes || t.assertionRef in refs || !t.verified {
        if t.code in codes {
          var k :| 0 <= k < i && Map(CodeOf, tags[..i])[k] == t.code;
          assert Map(CodeOf, tags)[k] == Map(CodeOf, tags)[i];
        } else if t.assertionRef in refs {
          var k :| 0 <= k < i && Map(RefOf, tags[..i])[k] == t.assertionRef;
          assert Map(RefOf, tags)[k] == Map(RefOf, tags)[i];
        }
        return false;
      }
      codes, refs := codes + {t.code}, refs + {t.assertionRef};
      assert tags[..i+1] == tags[..i] + [t];
      assert Map(CodeOf, tags[..i+1]) == Map(CodeOf, tags[..i]) + [t.code];
      assert Map(RefOf, tags[..i+1]) == Map(RefOf, tags[..i]) + [t.assertionRef];
    }
    assert tags[..|tags|] == tags;
    return true;
  }

  method ValidateMember(m: Member, ids: set<int>) returns (ok: bool)
    ensures ok <==> ValidMember(m, ids)
  {
    var hash := TagHash(m.tags);
    if Distinct(Map(CodeOf, m.tags)) && ValidTags(m) {
      TagsSeparated(m.tags);
      SameElements(m.tags, hash.value);
      SortedIsUnique(hash.value, m.tagsHash.value, TagLess);
    }
    if m.tagsHash != hash || m.memberId <= 0 || !m.admitted || !m.createdAt.Instant? {
      return false;
    }
    ok := ValidateIds(m.allowed, ids);
    if ok { ok := ValidateIds(m.counted, ids); }
    if ok { ok := ValidateTags(m); }
  }

  method ValidateSnapshot(s: Snapshot) returns (ok: bool)
    ensures ok <==> Valid(s)
  {
    var demands: set<int>, members: set<int>, candidates: set<string> := {}, {}, {};
    if !s.snapshotAt.Instant? || s.nextSequence < 1 { return false; }
    for i := 0 to |s.demands|
      invariant demands == Elements(Map(DemandId, s.demands[..i])) && Distinct(Map(DemandId, s.demands[..i]))
      invariant forall d | d in s.demands[..i] :: ValidDemand(d, s.nextSequence)
    {
      var d := s.demands[i];
      assert d in s.demands && d.demandId == DemandId(d);
      KeyPrefix(DemandId, s.demands, i);
      if d.demandId <= 0 || d.demandId in demands || d.lastSequence >= s.nextSequence {
        return false;
      }
      demands := demands + {d.demandId};
      var repeated := Repeats(d.requiredTags);
      if repeated { return false; }
      repeated := Repeats(d.preferredTags);
      if repeated { return false; }
    }
    assert s.demands[..|s.demands|] == s.demands;
    for i := 0 to |s.members|
      invariant members == Elements(Map(MemberId, s.members[..i])) && Distinct(Map(MemberId, s.members[..i]))
      invariant candidates == Elements(Map(CandidateOf, s.members[..i]))
      invariant Distinct(Map(CandidateOf, s.members[..i]))
      invariant forall m | m in s.members[..i] :: ValidMember(m, demands)
    {
      var m := s.members[i];
      KeyPrefix(MemberId, s.members, i);
      KeyPrefix(CandidateOf, s.members, i);
      var good := ValidateMember(m, demands);
      assert m in s.members && demands == DemandIds(s);
      assert m.memberId == MemberId(m) && m.candidateRef == CandidateOf(m);
      if !good || m.memberId in members || m.candidateRef in candidates { return false; }
      members, candidates := members + {m.memberId}, candidates + {m.candidateRef};
    }
    assert s.members[..|s.members|] == s.members;
    return true;
  }

  /** Extending a prefix by one element: the keys grow by one, and a key already
      present is a repeat. */
  lemma KeyPrefix<A, K>(f: A -> K, s: seq<A>, i: nat)
    requires i < |s|
    ensures s[..i+1] == s[..i] + [s[i]]
    ensures Map(f, s[..i+1]) == Map(f, s[..i]) + [f(s[i])]
    ensures Elements(Map(f, s[..i+1])) == Elements(Map(f, s[..i])) + {f(s[i])}
    ensures f(s[i]) in Map(f, s[..i]) ==> !Distinct(Map(f, s))
    ensures Distinct(Map(f, s[..i])) && f(s[i]) !in Map(f, s[..i]) ==> Distinct(Map(f, s[..i+1]))
  {
    assert Map(f, s[..i+1]) == Map(f, s[..i]) + [f(s[i])];
    assert Map(f, s[..i]) == Map(f, s)[..i];
    if f(s[i]) in Map(f, s[..i]) {
      var k :| 0 <= k < i && Map(f, s[..i])[k] == f(s[i]);
      assert Map(f, s)[k] == Map(f, s)[i];
    }
  }

  // ---------------------------------------------------------------- the canonical form

  ghost predicate CanonicalMember(m: Member) {
    Ascending(m.tags, TagLess) && Ascending(m.allowed, IntLess) && Ascending(m.counted, IntLess)
  }

  ghost predicate CanonicalDemand(d: Demand) {
    Ascending(d.requiredTags, StringLess) && Ascending(d.preferredTags, StringLess)
  }

  ghost predicate Canonical(s: Snapshot) {
    && Ascending(s.members, MemberLess) && Ascending(s.demands, DemandLess)
    && (forall m | m in s.members :: CanonicalMember(m))
    && (forall d | d in s.demands :: CanonicalDemand(d))
  }

  /** c is what the canonicaliser may return for s: the same content, in order. */
  ghost predicate CanonicalFormOf(c: Snapshot, s: Snapshot) {
    Content(c) == Content(s) && Canonical(c)
  }

  /** The lists inside each member are sorted in place; the members stay put. */
  method CanonicalMembers(ordered: seq<Member>) returns (members: seq<Member>)
    ensures Map(MemberContentOf, members) == Map(MemberContentOf, ordered)
    ensures forall m | m in members :: CanonicalMember(m)
  {
    OrdersAreStrict();
    members := ordered;
    for i := 0 to |members|
      invariant |members| == |ordered|
      invariant forall k | 0 <= k < |members| :: MemberContentOf(members[k]) == MemberContentOf(ordered[k])
      invariant forall k | 0 <= k < i :: CanonicalMember(members[k])
    {
      var m := members[i];
      var tags := SortSlice(m.tags, TagLess);
      var counted := SortSlice(m.counted, IntLess);
      var allowed := SortSlice(m.allowed, IntLess);
      members := members[i := m.(tags := tags, counted := counted, allowed := allowed)];
    }
  }

  method CanonicalDemands(ordered: seq<Demand>) returns (demands: seq<Demand>)
    ensures Map(DemandContentOf, demands) == Map(DemandContentOf, ordered)
    ensures forall d | d in demands :: CanonicalDemand(d)
  {
    OrdersAreStrict();
    demands := ordered;
    for i := 0 to |demands|
      invariant |demands| == |ordered|
      invariant forall k | 0 <= k < |demands| :: DemandContentOf(demands[k]) == DemandContentOf(ordered[k])
      invariant forall k | 0 <= k < i :: CanonicalDemand(demands[k])
    {
      var d := demands[i];
      var required := SortSlice(d.requiredTags, StringLess);
      var preferred := SortSlice(d.preferredTags, StringLess);
      demands := demands[i := d.(requiredTags := required, preferredTags := preferred)];
    }
  }

  /** Key order depends on contents alone. */
  lemma SameContentsSameOrder(a: seq<Member>, b: seq<Member>, c: seq<Demand>, d: seq<Demand>)
    requires Map(MemberContentOf, a) == Map(MemberContentOf, b) && Ascending(a, MemberLess)
    requires Map(DemandContentOf, c) == Map(DemandContentOf, d) && Ascending(c, DemandLess)
    ensures Ascending(b, MemberLess) && Ascending(d, DemandLess)
  {
    assert |a| == |Map(MemberContentOf, a)| && |b| == |Map(MemberContentOf, b)|;
    assert |c| == |Map(DemandContentOf, c)| && |d| == |Map(DemandContentOf, d)|;
    forall k | 0 <= k < |a| ensures a[k].memberId == b[k].memberId {
      assert Map(MemberContentOf, a)[k].fixed.memberId == Map(MemberContentOf, b)[k].fixed.memberId;
    }
    forall k | 0 <= k < |c| ensures c[k].demandId == d[k].demandId {
      assert Map(DemandContentOf, c)[k].fixed.demandId == Map(DemandContentOf, d)[k].fixed.demandId;
    }
  }

  method CanonicalSnapshot(s: Snapshot) returns (c: Snapshot)
    ensures CanonicalFormOf(c, s)
  {
    OrdersAreStrict();
    var ordered := SortSlice(s.members, MemberLess);
    var listed := SortSlice(s.demands, DemandLess);
    MapPermutes(MemberContentOf, ordered, s.members);
    MapPermutes(DemandContentOf, listed, s.demands);
    var members := CanonicalMembers(ordered);
    var demands := CanonicalDemands(listed);
    SameContentsSameOrder(ordered, members, listed, demands);
    c := s.(members := members, demands := demands);
  }

  // ---------------------------------------------------------------- a normal form

  function ContentMemberId(m: MemberContent): int { m.fixed.memberId }
  function ContentCandidate(m: MemberContent): string { m.fixed.candidateRef }
  function ContentDemandId(d: DemandContent): int { d.fixed.demandId }
  predicate MemberContentLess(x: MemberContent, y: MemberContent) { x.fixed.memberId < y.fixed.memberId }
  predicate DemandContentLess(x: DemandContent, y: DemandContent) { x.fixed.demandId < y.fixed.demandId }

  /** Keys are part of the content. */
  lemma KeysAreContent(s: Snapshot)
    ensures Map(MemberId, s.members) == Map(ContentMemberId, Map(MemberContentOf, s.members))
    ensures Map(CandidateOf, s.members) == Map(ContentCandidate, Map(MemberContentOf, s.members))
    ensures Map(DemandId, s.demands) == Map(ContentDemandId, Map(DemandContentOf, s.demands))
  {
  }

  lemma UniqueKeysAreContent(s: Snapshot, t: Snapshot)
    requires Content(s) == Content(t) && UniqueKeys(s)
    ensures UniqueKeys(t) && DemandIds(s) == DemandIds(t)
  {
    KeysAreContent(s);
    KeysAreContent(t);
    var sm, tm := Map(MemberContentOf, s.members), Map(MemberContentOf, t.members);
    var sd, td := Map(DemandContentOf, s.demands), Map(DemandContentOf, t.demands);
    MapPermutes(ContentMemberId, sm, tm);
    MapPermutes(ContentCandidate, sm, tm);
    MapPermutes(ContentDemandId, sd, td);
    DistinctPermutes(Map(MemberId, s.members), Map(MemberId, t.members));
    DistinctPermutes(Map(CandidateOf, s.members), Map(CandidateOf, t.members));
    DistinctPermutes(Map(DemandId, s.demands), Map(DemandId, t.demands));
    SameElements(Map(DemandId, s.demands), Map(DemandId, t.demands));
  }

  /** Two lists in key order with the same contents and unique keys agree place by place. */
  lemma SameContentsAligned<A, C(!new)>(content: A -> C, a: seq<A>, b: seq<A>, less: (C, C) -> bool)
    requires StrictOrder(less)
    requires multiset(Map(content, a)) == multiset(Map(content, b))
    requires Ascending(Map(content, a), less) && Ascending(Map(content, b), less)
    requires Separated(Map(content, a), less)
    ensures |a| == |b| && forall i | 0 <= i < |a| :: content(a[i]) == content(b[i])
  {
    SortedIsUnique(Map(content, a), Map(content, b), less);
    assert |a| == |Map(content, a)| && |b| == |Map(content, b)|;
    forall i | 0 <= i < |a| ensures content(a[i]) == content(b[i]) {
      assert Map(content, a)[i] == Map(content, b)[i];
    }
  }

  /** Items that differ have different keys, when keys do not repeat. */
  lemma KeysSeparate<A, K>(key: A -> K, s: seq<A>)
    requires Distinct(Map(key, s))
    ensures forall x, y | x in s && y in s && x != y :: key(x) != key(y)
  {
    forall x, y | x in s && y in s && x != y ensures key(x) != key(y) {
      var i :| 0 <= i < |s| && s[i] == x;
      var j :| 0 <= j < |s| && s[j] == y;
      assert Map(key, s)[i] != Map(key, s)[j];
    }
  }

  /** No two different entries tie where a list is sorted: members or demands of one id
      say the same, and so do one member's tags of one code. */
  ghost predicate Unambiguous(s: Snapshot) {
    && ClearMembers(s.members) && ClearDemands(s.demands) && forall m | m in s.members :: Separated(m.tags, TagLess)
  }

  ghost predicate ClearMembers(ms: seq<Member>) {
    forall m, n | m in ms && n in ms && m.memberId == n.memberId :: MemberContentOf(m) == MemberContentOf(n)
  }

  ghost predicate ClearDemands(ds: seq<Demand>) {
    forall d, e | d in ds && e in ds && d.demandId == e.demandId :: DemandContentOf(d) == DemandContentOf(e)
  }

  lemma MemberContentsSeparated(a: seq<Member>)
    requires ClearMembers(a)
    ensures Separated(Map(MemberContentOf, a), MemberContentLess)
  {
    var contents := Map(MemberContentOf, a);
    forall x, y | x in contents && y in contents && x != y ensures MemberContentLess(x, y) || MemberContentLess(y, x) {
      var i :| 0 <= i < |a| && contents[i] == x;
      var j :| 0 <= j < |a| && contents[j] == y;
      assert a[i].memberId != a[j].memberId;
    }
  }

  lemma MembersAligned(a: seq<Member>, b: seq<Member>)
    requires multiset(Map(MemberContentOf, a)) == multiset(Map(MemberContentOf, b))
    requires ClearMembers(a) && Ascending(a, MemberLess) && Ascending(b, MemberLess)
    ensures |a| == |b| && forall i | 0 <= i < |a| :: MemberContentOf(a[i]) == MemberContentOf(b[i])
  {
    MemberContentsSeparated(a);
    SameContentsAligned(MemberContentOf, a, b, MemberContentLess);
  }

  lemma DemandsAligned(a: seq<Demand>, b: seq<Demand>)
    requires multiset(Map(DemandContentOf, a)) == multiset(Map(DemandContentOf, b))
    requires ClearDemands(a) && Ascending(a, DemandLess) && Ascending(b, DemandLess)
    ensures |a| == |b| && forall i | 0 <= i < |a| :: DemandContentOf(a[i]) == DemandContentOf(b[i])
  {
    var contents := Map(DemandContentOf, a);
    forall x, y | x in contents && y in contents && x != y ensures DemandContentLess(x, y) || DemandContentLess(y, x) {
      var i :| 0 <= i < |a| && contents[i] == x;
      var j :| 0 <= j < |a| && contents[j] == y;
      assert a[i].demandId != a[j].demandId;
    }
    SameContentsAligned(DemandContentOf, a, b, DemandContentLess);
  }

  lemma CanonicalMemberUnique(x: Member, y: Member)
    requires MemberContentOf(x) == MemberContentOf(y) && CanonicalMember(x) && CanonicalMember(y)
    requires Separated(x.tags, TagLess)
    ensures x == y
  {
    OrdersAreStrict();
    SortedIsUnique(x.tags, y.tags, TagLess);
    SortedIsUnique(x.allowed, y.allowed, IntLess);
    SortedIsUnique(x.counted, y.counted, IntLess);
    assert x == MemberContentOf(x).fixed.(tags := x.tags, allowed := x.allowed, counted := x.counted);
    assert y == MemberContentOf(y).fixed.(tags := y.tags, allowed := y.allowed, counted := y.counted);
  }

  lemma CanonicalDemandUnique(x: Demand, y: Demand)
    requires DemandContentOf(x) == DemandContentOf(y) && CanonicalDemand(x) && CanonicalDemand(y)
    ensures x == y
  {
    StringLessTotal();
    SortedIsUnique(x.requiredTags, y.requiredTags, StringLess);
    SortedIsUnique(x.preferredTags, y.preferredTags, StringLess);
    assert x == DemandContentOf(x).fixed.(requiredTags := x.requiredTags, preferredTags := x.preferredTags);
    assert y == DemandContentOf(y).fixed.(requiredTags := y.requiredTags, preferredTags := y.preferredTags);
  }

  /** What makes the sorts total: no id, and no tag code of one member, repeats. */
  ghost predicate SortableKeys(s: Snapshot) {
    UniqueKeys(s) && forall m | m in s.members :: Distinct(Map(CodeOf, m.tags))
  }

  lemma ValidIsSortable(s: Snapshot)
    requires Valid(s)
    ensures SortableKeys(s)
  {
  }

  /** Members of equal content correspond across snapshots of equal content. */
  lemma MemberCounterpart(s: Snapshot, t: Snapshot, n: Member) returns (m: Member)
    requires Content(s) == Content(t) && n in t.members
    ensures m in s.members && MemberContentOf(m) == MemberContentOf(n)
  {
    SameElements(Map(MemberContentOf, s.members), Map(MemberContentOf, t.members));
    var j :| 0 <= j < |t.members| && t.members[j] == n;
    assert Map(MemberContentOf, t.members)[j] in Map(MemberContentOf, s.members);
    var i :| 0 <= i < |s.members| && Map(MemberContentOf, s.members)[i] == MemberContentOf(n);
    m := s.members[i];
  }

  lemma DemandCounterpart(s: Snapshot, t: Snapshot, e: Demand) returns (d: Demand)
    requires Content(s) == Content(t) && e in t.demands
    ensures d in s.demands && DemandContentOf(d) == DemandContentOf(e)
  {
    SameElements(Map(DemandContentOf, s.demands), Map(DemandContentOf, t.demands));
    var j :| 0 <= j < |t.demands| && t.demands[j] == e;
    assert Map(DemandContentOf, t.demands)[j] in Map(DemandContentOf, s.demands);
    var i :| 0 <= i < |s.demands| && Map(DemandContentOf, s.demands)[i] == DemandContentOf(e);
    d := s.demands[i];
  }

  /** Unique keys leave nothing ambiguous. */
  lemma SortableIsUnambiguous(s: Snapshot)
    requires SortableKeys(s)
    ensures Unambiguous(s)
  {
    KeysSeparate(MemberId, s.members);
    KeysSeparate(DemandId, s.demands);
    forall m | m in s.members ensures Separated(m.tags, TagLess) { TagsSeparated(m.tags); }
  }

  lemma UnambiguousIsContent(s: Snapshot, t: Snapshot)
    requires Content(s) == Content(t) && Unambiguous(s)
    ensures Unambiguous(t)
  {
    forall m, n | m in t.members && n in t.members && m.memberId == n.memberId
      ensures MemberContentOf(m) == MemberContentOf(n)
    {
      var x := MemberCounterpart(s, t, m);
      var y := MemberCounterpart(s, t, n);
      assert x.memberId == MemberContentOf(x).fixed.memberId && y.memberId == MemberContentOf(y).fixed.memberId;
    }
    forall d, e | d in t.demands && e in t.demands && d.demandId == e.demandId
      ensures DemandContentOf(d) == DemandContentOf(e)
    {
      var x := DemandCounterpart(s, t, d);
      var y := DemandCounterpart(s, t, e);
      assert x.demandId == DemandContentOf(x).fixed.demandId && y.demandId == DemandContentOf(y).fixed.demandId;
    }
    forall n | n in t.members ensures Separated(n.tags, TagLess) {
      var m := MemberCounterpart(s, t, n);
      SameElements(m.tags, n.tags);
    }
  }

  lemma CanonicalListsUnique(c: Snapshot, d: Snapshot)
    requires Content(c) == Content(d) && Unambiguous(c) && Canonical(c) && Canonical(d)
    ensures c.members == d.members && c.demands == d.demands
  {
    MembersAligned(c.members, d.members);
    DemandsAligned(c.demands, d.demands);
    forall i | 0 <= i < |c.members| ensures c.members[i] == d.members[i] {
      assert c.members[i] in c.members && d.members[i] in d.members;
      CanonicalMemberUnique(c.members[i], d.members[i]);
    }
    forall i | 0 <= i < |c.demands| ensures c.demands[i] == d.demands[i] {
      assert c.demands[i] in c.demands && d.demands[i] in d.demands;
      CanonicalDemandUnique(c.demands[i], d.demands[i]);
    }
  }

  /** The canonical form is a normal form: on snapshots in which nothing ties, unique
      keys being enough, two of them canonicalise alike exactly when they differ only in
      transport order. */
  lemma CanonicalIsNormalForm(s: Snapshot, t: Snapshot, c: Snapshot, d: Snapshot)
    requires Unambiguous(s) && CanonicalFormOf(c, s) && CanonicalFormOf(d, t)
    ensures c == d <==> Content(s) == Content(t)
  {
    if Content(s) == Content(t) {
      UnambiguousIsContent(s, c);
      CanonicalListsUnique(c, d);
      assert c == Content(c).fixed.(members := c.members, demands := c.demands);
      assert d == Content(d).fixed.(members := d.members, demands := d.demands);
    }
  }

  /** Canonicalising a canonical form changes nothing, whatever the sorts do with ties,
      if and only if nothing in the snapshot ties. */
  lemma CanonicalIsIdempotent(s: Snapshot, c: Snapshot)
    requires CanonicalFormOf(c, s)
    ensures (forall d | CanonicalFormOf(d, c) :: d == c) <==> Unambiguous(s)
  {
    if Unambiguous(s) {
      forall d | CanonicalFormOf(d, c) ensures d == c { CanonicalIsNormalForm(s, c, c, d); }
    } else {
      if Unambiguous(c) { UnambiguousIsContent(c, s); }
      var d := AnotherForm(c);
    }
  }

  /** Two tied entries of a sorted list may change places. */
  lemma TiedMayChangePlaces<T(!new)>(s: seq<T>, less: (T, T) -> bool, i: nat, j: nat) returns (d: seq<T>)
    requires StrictOrder(less) && Ascending(s, less) && i < j < |s| && s[i] != s[j] && !less(s[i], s[j])
    ensures d != s && |d| == |s| && multiset(d) == multiset(s) && Ascending(d, less)
    ensures d == s[i := s[j]][j := s[i]]
  {
    d := s[i := s[j]][j := s[i]];
    assert d[i] != s[i];
    forall p, q | 0 <= p < q < |d| ensures !less(d[q], d[p]) {
      assert forall k | i <= k <= j :: !less(s[k], s[i]) && !less(s[j], s[k]);
      assert forall k | i <= k <= j :: !less(s[k], s[j]) && !less(s[i], s[k]);
    }
  }

  lemma OtherOrder<T(!new)>(s: seq<T>, less: (T, T) -> bool, x: T, y: T) returns (d: seq<T>)
    requires StrictOrder(less) && Ascending(s, less)
    requires x in s && y in s && x != y && !less(x, y) && !less(y, x)
    ensures d != s && |d| == |s| && multiset(d) == multiset(s) && Ascending(d, less)
  {
    var p :| 0 <= p < |s| && s[p] == x;
    var q :| 0 <= q < |s| && s[q] == y;
    d := TiedMayChangePlaces(s, less, if p < q then p else q, if p < q then q else p);
  }

  lemma OtherMembers(c: Snapshot, members: seq<Member>)
    requires Canonical(c) && members != c.members && multiset(members) == multiset(c.members)
    requires Ascending(members, MemberLess)
    ensures CanonicalFormOf(c.(members := members), c)
  {
    MapPermutes(MemberContentOf, members, c.members);
    SameElements(members, c.members);
  }

  lemma OtherDemands(c: Snapshot, demands: seq<Demand>)
    requires Canonical(c) && demands != c.demands && multiset(demands) == multiset(c.demands)
    requires Ascending(demands, DemandLess)
    ensures CanonicalFormOf(c.(demands := demands), c)
  {
    MapPermutes(DemandContentOf, demands, c.demands);
    SameElements(demands, c.demands);
  }

  lemma OtherTags(c: Snapshot, i: nat, tags: seq<Tag>)
    requires Canonical(c) && i < |c.members|
    requires multiset(tags) == multiset(c.members[i].tags) && Ascending(tags, TagLess)
    ensures CanonicalFormOf(c.(members := c.members[i := c.members[i].(tags := tags)]), c)
  {
    var m, n := c.members[i], c.members[i].(tags := tags);
    var members := c.members[i := n];
    assert MemberContentOf(n) == MemberContentOf(m);
    assert Map(MemberContentOf, members) == Map(MemberContentOf, c.members);
    assert CanonicalMember(m) && CanonicalMember(n);
  }

  /** Where something ties, there is another canonical form. */
  lemma AnotherForm(c: Snapshot) returns (d: Snapshot)
    requires Canonical(c) && !Unambiguous(c)
    ensures CanonicalFormOf(d, c) && d != c
  {
    hide CanonicalFormOf, CanonicalMember, CanonicalDemand, MemberContentOf, DemandContentOf;
    OrdersAreStrict();
    if !ClearMembers(c.members) {
      var x, y :| x in c.members && y in c.members && x.memberId == y.memberId && MemberContentOf(x) != MemberContentOf(y);
      var members := OtherOrder(c.members, MemberLess, x, y);
      OtherMembers(c, members);
      d := c.(members := members);
    } else if !ClearDemands(c.demands) {
      var x, y :| x in c.demands && y in c.demands && x.demandId == y.demandId && DemandContentOf(x) != DemandContentOf(y);
      var demands := OtherOrder(c.demands, DemandLess, x, y);
      OtherDemands(c, demands);
      d := c.(demands := demands);
    } else {
      var m :| m in c.members && !Separated(m.tags, TagLess);
      d := TagsInAnotherOrder(c, m);
    }
  }

  lemma TagsInAnotherOrder(c: Snapshot, m: Member) returns (d: Snapshot)
    requires Canonical(c) && m in c.members && !Separated(m.tags, TagLess)
    ensures CanonicalFormOf(d, c) && d != c
  {
    OrdersAreStrict();
    var i :| 0 <= i < |c.members| && c.members[i] == m;
    assert CanonicalMember(m);
    var x, y :| x in m.tags && y in m.tags && x != y && !TagLess(x, y) && !TagLess(y, x);
    var tags := OtherOrder(m.tags, TagLess, x, y);
    OtherTags(c, i, tags);
    d := c.(members := c.members[i := c.members[i].(tags := tags)]);
    assert d.members[i].tags != c.members[i].tags;
  }

  // ---------------------------------------------------------------- validity is content

  lemma ValidTagsAreContent(m: Member, n: Member)
    requires MemberContentOf(m) == MemberContentOf(n) && ValidTags(m)
    ensures ValidTags(n)
  {
    assert m.tagsHash == MemberContentOf(m).fixed.tagsHash == n.tagsHash;
    MapPermutes(CodeOf, m.tags, n.tags);
    MapPermutes(RefOf, m.tags, n.tags);
    DistinctPermutes(Map(CodeOf, m.tags), Map(CodeOf, n.tags));
    DistinctPermutes(Map(RefOf, m.tags), Map(RefOf, n.tags));
    SameElements(m.tags, n.tags);
  }

  lemma ValidMemberIsContent(m: Member, n: Member, ids: set<int>)
    requires MemberContentOf(m) == MemberContentOf(n) && ValidMember(m, ids)
    ensures ValidMember(n, ids)
  {
    var f := MemberContentOf(m).fixed;
    assert f.memberId == n.memberId && f.admitted == n.admitted && f.createdAt == n.createdAt;
    SameElements(m.allowed, n.allowed);
    SameElements(m.counted, n.counted);
    DistinctPermutes(m.allowed, n.allowed);
    DistinctPermutes(m.counted, n.counted);
    ValidTagsAreContent(m, n);
  }

  /** Arrival order decides nothing about acceptance. */
  lemma ValidityIsContent(s: Snapshot, t: Snapshot)
    requires Content(s) == Content(t) && Valid(s)
    ensures Valid(t)
  {
    UniqueKeysAreContent(s, t);
    assert s.snapshotAt == Content(s).fixed.snapshotAt == t.snapshotAt;
    assert s.nextSequence == Content(s).fixed.nextSequence == t.nextSequence;
    forall e | e in t.demands ensures ValidDemand(e, t.nextSequence) {
      var d := DemandCounterpart(s, t, e);
      var f := DemandContentOf(d).fixed;
      assert f.demandId == e.demandId && f.lastSequence == e.lastSequence;
      DistinctPermutes(d.requiredTags, e.requiredTags);
      DistinctPermutes(d.preferredTags, e.preferredTags);
    }
    forall n | n in t.members ensures ValidMember(n, DemandIds(t)) {
      var m := MemberCounterpart(s, t, n);
      ValidMemberIsContent(m, n, DemandIds(t));
    }
  }
}
