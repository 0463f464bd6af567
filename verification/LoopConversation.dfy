/** The conversation of an agent loop: what has been called and read, the rounds still
    held, the messages sent, and compaction.  Contents are structured values; their
    JSON is not modelled. */
module LoopConversation {
  import opened Wrappers
  import opened Ordering
  import opened AgentEvidence
  import opened AgentSubmissions
  import opened AgentCollector
  import opened ModelTokens
  import opened LoopBudget

  // ---------------------------------------------------------------- calls and messages

  datatype Arguments =
    | ReadArgs(start: int, end: int)
    | EvidenceArgs(evidence: seq<Evidence>)
    | ProfileArgs(profile: Profile)
    | MatchArgs(batch: seq<JobMatch>)
    | StatusArgs(status: string)
    | OtherArgs(json: string)

  datatype CallId = CallId(turn: int, index: int)

  datatype ToolCall = ToolCall(id: CallId, name: string, arguments: Arguments)

  /** What a tool returned, and the lines in it if it reads as lines. */
  datatype Payload = Payload(text: string, lines: Option<seq<Line>>)

  datatype Answer = Answered(payload: Payload) | Refused(problem: Problem, repeated: bool)

  datatype Range = Range(first: int, last: int)

  /** The part of the runtime state that changes during a run. */
  datatype View = View(final: bool, remainingTokens: nat, remainingTurns: int, remainingCalls: int, missing: seq<string>,
                       ranges: seq<Range>, noProgress: int, profile: Option<Profile>, matches: seq<JobMatch>,
                       jobs: seq<Job>)

  datatype Content =
    | Said(text: string)
    | Instructions(final: bool)
    | State(view: View)
    | Calls(calls: seq<ToolCall>)
    | Result(id: CallId, answer: Answer)
    | Repair

  type Msg = Message<Content>
  type Round = seq<Msg>

  function Flatten(rounds: seq<Round>): seq<Msg> {
    if rounds == [] then [] else Flatten(rounds[..|rounds|-1]) + rounds[|rounds|-1]
  }

  lemma {:induction false} FlattenAppend(a: seq<Round>, b: seq<Round>)
    ensures Flatten(a + b) == Flatten(a) + Flatten(b)
  {
    if b == [] {
      assert a + b == a;
    } else {
      assert (a + b)[..|a + b|-1] == a + b[..|b|-1];
      FlattenAppend(a, b[..|b|-1]);
    }
  }

  // ---------------------------------------------------------------- integrity

  /** One reply and the results of exactly its calls, in call order; or a request to
      repair the format. */
  predicate GoodRound(r: Round) {
    || r == [Message("user", Repair)]
    || (&& r != [] && r[0].role == "assistant" && r[0].content.Calls?
        && var calls := r[0].content.calls;
           && calls != [] && |r| == |calls| + 1
           && (forall i | 0 <= i < |calls| :: calls[i].id == CallId(calls[0].id.turn, i + 1))
           && (forall i | 0 <= i < |calls| :: Answers(r[i+1], calls[i].id)))
  }

  predicate Answers(m: Msg, id: CallId) { m.role == "user" && m.content.Result? && m.content.id == id }

  predicate IsCall(r: Round) { r != [] && r[0].content.Calls? && r[0].content.calls != [] }

  function TurnOf(r: Round): int
    requires IsCall(r)
  {
    r[0].content.calls[0].id.turn
  }

  /** Whole rounds of different turns, in order, all before `turn`. */
  predicate Orderly(rounds: seq<Round>, turn: int) {
    && (forall i | 0 <= i < |rounds| :: GoodRound(rounds[i]) && (IsCall(rounds[i]) ==> TurnOf(rounds[i]) <= turn))
    && (forall i, j | 0 <= i < j < |rounds| && IsCall(rounds[i]) && IsCall(rounds[j]) :: TurnOf(rounds[i]) < TurnOf(rounds[j]))
  }

  lemma SuffixIsOrderly(rounds: seq<Round>, turn: int, k: nat)
    requires Orderly(rounds, turn) && k <= |rounds|
    ensures Orderly(rounds[k..], turn)
  {
  }

  /** Across orderly rounds no two calls share an identifier. */
  lemma IdsAreUnique(rounds: seq<Round>, turn: int, i: nat, j: nat, x: nat, y: nat)
    requires Orderly(rounds, turn) && i < |rounds| && j < |rounds| && IsCall(rounds[i]) && IsCall(rounds[j])
    requires x < |rounds[i][0].content.calls| && y < |rounds[j][0].content.calls|
    requires rounds[i][0].content.calls[x].id == rounds[j][0].content.calls[y].id
    ensures i == j && x == y
  {
    assert GoodRound(rounds[i]) && GoodRound(rounds[j]);
    assert TurnOf(rounds[i]) == TurnOf(rounds[j]);
  }

  // ---------------------------------------------------------------- resident lines

  function LinesShown(p: Payload): seq<int> {
    if p.lines.Some? then Map((l: Line) => l.number, p.lines.value) else []
  }

  /** The line numbers a message still shows. */
  function NumbersIn(m: Msg): set<int> {
    if m.role == "user" && m.content.Result? && m.content.answer.Answered? then
      Elements(LinesShown(m.content.answer.payload))
    else {}
  }

  function Shown(messages: seq<Msg>): set<int> {
    if messages == [] then {} else Shown(messages[..|messages|-1]) + NumbersIn(messages[|messages|-1])
  }

  lemma {:induction false} ShownAppend(a: seq<Msg>, b: seq<Msg>)
    ensures Shown(a + b) == Shown(a) + Shown(b)
  {
    if b == [] {
      assert a + b == a;
    } else {
      assert (a + b)[..|a + b|-1] == a + b[..|b|-1];
      ShownAppend(a, b[..|b|-1]);
    }
  }

  // ---------------------------------------------------------------- ranges

  predicate Spans(r: Range, n: int) { r.first <= n <= r.last }

  /** Non-empty ranges in ascending order, no two of them touching, that cover
      exactly the lines read. */
  ghost predicate Covering(rs: seq<Range>, read: set<int>) {
    && (forall i | 0 <= i < |rs| :: rs[i].first <= rs[i].last)
    && (forall i, j | 0 <= i < j < |rs| :: rs[i].last + 1 < rs[j].first)
    && (forall n :: n in read <==> exists i | 0 <= i < |rs| :: Spans(rs[i], n))
  }

  /** There is only one such list. */
  lemma {:induction false} CoveringIsUnique(a: seq<Range>, b: seq<Range>, read: set<int>)
    requires Covering(a, read) && Covering(b, read)
    ensures a == b
    decreases |a|
  {
    if a == [] || b == [] {
      NothingReadNothingCovered(a, read);
      NothingReadNothingCovered(b, read);
    } else {
      SameFirstRange(a, b, read);
      var rest := set n | n in read && n > a[0].last;
      RestIsCovered(a, read, rest);
      RestIsCovered(b, read, rest);
      CoveringIsUnique(a[1..], b[1..], rest);
      assert a == [a[0]] + a[1..] && b == [b[0]] + b[1..];
    }
  }

  lemma SameFirstRange(a: seq<Range>, b: seq<Range>, read: set<int>)
    requires Covering(a, read) && Covering(b, read) && a != [] && b != []
    ensures a[0] == b[0]
  {
    StartsAtLeast(a, b, read);
    StartsAtLeast(b, a, read);
    EndsAtMost(a, b, read);
    EndsAtMost(b, a, read);
  }

  lemma StartsAtLeast(a: seq<Range>, b: seq<Range>, read: set<int>)
    requires Covering(a, read) && Covering(b, read) && a != [] && b != []
    ensures a[0].first >= b[0].first
  {
    assert Spans(a[0], a[0].first);
    assert a[0].first in read;
    var i :| 0 <= i < |b| && Spans(b[i], a[0].first);
  }

  lemma EndsAtMost(a: seq<Range>, b: seq<Range>, read: set<int>)
    requires Covering(a, read) && Covering(b, read) && a != [] && b != [] && a[0].first == b[0].first
    ensures a[0].last <= b[0].last
  {
    forall i | 0 <= i < |b| ensures !Spans(b[i], b[0].last + 1) { }
    assert b[0].last + 1 !in read;
    assert !Spans(a[0], b[0].last + 1);
  }

  lemma NothingReadNothingCovered(rs: seq<Range>, read: set<int>)
    requires Covering(rs, read)
    ensures rs == [] <==> read == {}
  {
    forall n | n in read ensures rs != [] {
      var i :| 0 <= i < |rs| && Spans(rs[i], n);
    }
    if rs != [] {
      assert Spans(rs[0], rs[0].first);
      assert rs[0].first in read;
    }
  }

  lemma RestIsCovered(a: seq<Range>, read: set<int>, rest: set<int>)
    requires Covering(a, read) && a != [] && rest == set n | n in read && n > a[0].last
    ensures Covering(a[1..], rest)
  {
    forall n ensures n in rest <==> exists i | 0 <= i < |a[1..]| :: Spans(a[1..][i], n) {
      if n in rest {
        var i :| 0 <= i < |a| && Spans(a[i], n);
        assert i > 0 && Spans(a[1..][i-1], n);
      }
      if i :| 0 <= i < |a[1..]| && Spans(a[1..][i], n) {
        assert Spans(a[i+1], n) && a[0].last + 1 < a[i+1].first;
      }
    }
  }

  lemma WidenLast(rs: seq<Range>, read: set<int>, n: int)
    requires Covering(rs, read) && rs != [] && rs[|rs|-1].last + 1 == n
    ensures Covering(rs[|rs|-1 := Range(rs[|rs|-1].first, n)], read + {n})
  {
    var k := |rs| - 1;
    var out := rs[k := Range(rs[k].first, n)];
    forall x ensures x in read + {n} <==> exists i | 0 <= i < |out| :: Spans(out[i], x) {
      if x == n { assert Spans(out[k], x); }
      if x in read {
        var i :| 0 <= i < |rs| && Spans(rs[i], x);
        assert Spans(out[i], x);
      }
      if i :| 0 <= i < |out| && Spans(out[i], x) {
        if x != n { assert Spans(rs[i], x); }
      }
    }
  }

  lemma AddRange(rs: seq<Range>, read: set<int>, n: int)
    requires Covering(rs, read) && (rs != [] ==> rs[|rs|-1].last + 1 < n)
    ensures Covering(rs + [Range(n, n)], read + {n})
  {
    var out := rs + [Range(n, n)];
    forall x ensures x in read + {n} <==> exists i | 0 <= i < |out| :: Spans(out[i], x) {
      if x == n { assert Spans(out[|rs|], x); }
      if x in read {
        var i :| 0 <= i < |rs| && Spans(rs[i], x);
        assert Spans(out[i], x);
      }
      if i :| 0 <= i < |out| && Spans(out[i], x) {
        if x != n { assert Spans(rs[i], x); }
      }
    }
  }

  // ---------------------------------------------------------------- progress

  const PROFILE_SUBMIT := "candidate_profile.submit"
  const MATCH_SUBMIT := "job_match.submit"
  const TASK_DONE := "task_done"
  const READ_SECTIONS := "resume.read_sections"
  const SEARCH_EVIDENCE := "resume.search_evidence"
  const VERIFY_QUOTES := "evidence.verify_quotes"

  predicate FinalTool(name: string) { name in {PROFILE_SUBMIT, MATCH_SUBMIT, TASK_DONE, VERIFY_QUOTES, READ_SECTIONS} }

  predicate Reads(name: string) { name == READ_SECTIONS || name == SEARCH_EVIDENCE }
  predicate Submits(name: string) { name == PROFILE_SUBMIT || name == MATCH_SUBMIT || name == TASK_DONE }

  function CollectorProgress(c: Collector): nat
    reads c
  {
    |c.matches| + (if c.profile.Some? then 1 else 0) + (if c.done then 1 else 0)
  }

  /** The lines of an answer that exist. */
  function Existing(p: Payload, n: nat): set<int> { set k | k in LinesShown(p) && 1 <= k <= n }

  /** What counts as progress: new or no longer resident lines for a reading tool, a
      collector that moved for a submitting one, a call not made before otherwise. */
  predicate Advances(name: string, payload: Payload, lines: nat, read: set<int>, resident: set<int>, moved: bool,
                     repeated: bool)
  {
    if Reads(name) then exists k :: k in Existing(payload, lines) && (k !in read || k !in resident)
    else if Submits(name) then moved
    else !repeated
  }

  // ---------------------------------------------------------------- what is sent

  /** What the runtime state message is made from. */
  datatype Scene = Scene(final: bool, tokens: nat, turns: int, calls: int, jobs: map<string, Job>,
                         matches: map<string, JobMatch>, profile: Option<Profile>, read: set<int>, noProgress: int)

  function JobsIn(refs: seq<string>, jobs: map<string, Job>): seq<Job>
    requires Elements(refs) <= jobs.Keys
  {
    seq(|refs|, i requires 0 <= i < |refs| => assert refs[i] in Elements(refs); jobs[refs[i]])
  }

  function MissingMatches(refs: seq<string>, done: set<string>): seq<string> {
    if refs == [] then []
    else MissingMatches(refs[..|refs|-1], done) + if refs[|refs|-1] in done then [] else [MATCH_SUBMIT]
  }

  ghost predicate Pictures(v: View, s: Scene) {
    var refs := Enumeration(s.jobs.Keys);
    && v.final == s.final && v.remainingTokens == s.tokens && v.remainingTurns == s.turns && v.remainingCalls == s.calls
    && v.missing == (if s.profile.None? then [PROFILE_SUBMIT] else []) + MissingMatches(refs, s.matches.Keys) + [TASK_DONE]
    && Covering(v.ranges, s.read) && v.noProgress == s.noProgress && v.profile == s.profile
    && Ranking(s.matches, v.matches) && v.jobs == JobsIn(refs, s.jobs)
  }

  /** The instructions, the state, and every round still held, whole and in order. */
  ghost predicate Sends(messages: seq<Msg>, s: Scene, rounds: seq<Round>) {
    && |messages| >= 2 && messages[0] == Message("system", Instructions(s.final))
    && messages[1].role == "user" && messages[1].content.State? && Pictures(messages[1].content.view, s)
    && messages[2..] == Flatten(rounds)
  }

  /** However maps are iterated, the same state is sent as the same messages. */
  lemma MessagesAreDetermined(a: seq<Msg>, b: seq<Msg>, s: Scene, x: seq<Round>, y: seq<Round>)
    requires Keyed(s.matches) && Sends(a, s, x) && Sends(b, s, y)
    ensures a == a[..2] + Flatten(x) && b == a[..2] + Flatten(y)
  {
    var v, w := a[1].content.view, b[1].content.view;
    CoveringIsUnique(v.ranges, w.ranges, s.read);
    RankingIsUnique(s.matches, v.matches, w.matches);
    assert a[..2] == b[..2];
    assert a == a[..2] + a[2..] && b == b[..2] + b[2..];
  }

  /** Compaction never raises the estimate of what is sent, on the same counter. */
  lemma CompactionNeverCosts(text: Content -> nat, ratio: real, a: seq<Msg>, b: seq<Msg>, s: Scene,
                             rounds: seq<Round>, k: nat)
    requires ratio >= 0.0 && Keyed(s.matches) && k <= |rounds| && Sends(a, s, rounds) && Sends(b, s, rounds[k..])
    ensures EstimateOf(text, ratio, b) <= EstimateOf(text, ratio, a)
  {
    MessagesAreDetermined(a, b, s, rounds, rounds[k..]);
    FewerRoundsNeverCost(text, ratio, a[..2], rounds, k);
  }

  lemma FewerRoundsNeverCost(text: Content -> nat, ratio: real, head: seq<Msg>, rounds: seq<Round>, k: nat)
    requires ratio >= 0.0 && k <= |rounds|
    ensures EstimateOf(text, ratio, head + Flatten(rounds[k..])) <= EstimateOf(text, ratio, head + Flatten(rounds))
  {
    DroppedRounds(head, rounds, k);
    DroppingNeverCosts(text, ratio, head, Flatten(rounds[..k]), Flatten(rounds[k..]));
  }

  lemma DroppedRounds(head: seq<Msg>, rounds: seq<Round>, k: nat)
    requires k <= |rounds|
    ensures head + Flatten(rounds) == head + Flatten(rounds[..k]) + Flatten(rounds[k..])
  {
    FlattenSplit(rounds, k);
    Regroup(head, Flatten(rounds[..k]), Flatten(rounds[k..]));
  }

  lemma FlattenSplit(rounds: seq<Round>, k: nat)
    requires k <= |rounds|
    ensures Flatten(rounds) == Flatten(rounds[..k]) + Flatten(rounds[k..])
  {
    FlattenAppend(rounds[..k], rounds[k..]);
    assert rounds[..k] + rounds[k..] == rounds;
  }

  lemma Regroup<T>(a: seq<T>, b: seq<T>, c: seq<T>)
    ensures a + (b + c) == a + b + c
  {
  }

  class Conversation {
    var rounds: seq<Round>
    var seen: set<(string, Arguments)>
    var read: set<int>
    var noProgress: nat

    constructor ()
      ensures rounds == [] && seen == {} && read == {} && noProgress == 0
    {
      rounds, seen, read, noProgress := [], {}, {}, 0;
    }

    method ResidentLines() returns (resident: set<int>)
      ensures resident == Shown(Flatten(rounds))
    {
      resident := {};
      for i := 0 to |rounds|
        invariant resident == Shown(Flatten(rounds[..i]))
      {
        assert rounds[..i+1][..i] == rounds[..i];
        var round := rounds[i];
        for k := 0 to |round|
          invariant resident == Shown(Flatten(rounds[..i])) + Shown(round[..k])
        {
          assert round[..k+1][..k] == round[..k];
          resident := resident + NumbersIn(round[k]);
        }
        assert round[..|round|] == round;
        ShownAppend(Flatten(rounds[..i]), round);
      }
      assert rounds[..|rounds|] == rounds;
    }

    /** `answer` is the tool's, when the call did not fail; `before` the collector's
        progress before it. */
    method Observe(call: ToolCall, answer: Option<Payload>, before: nat, c: Collector) returns (advanced: bool,
                   repeated: bool)
      modifies this`seen, this`read
      ensures repeated <==> (call.name, call.arguments) in old(seen)
      ensures seen == old(seen) + {(call.name, call.arguments)}
      ensures read == old(read) + if answer.Some? && Reads(call.name) then Existing(answer.value, |c.lines|) else {}
      ensures advanced <==> answer.Some? && Advances(call.name, answer.value, |c.lines|, old(read), Shown(Flatten(rounds)),
                                                     CollectorProgress(c) > before, repeated)
    {
      repeated := (call.name, call.arguments) in seen;
      seen := seen + {(call.name, call.arguments)};
      if answer.None? { return false, repeated; }
      if call.name == READ_SECTIONS || call.name == SEARCH_EVIDENCE {
        advanced := ReadLines(LinesShown(answer.value), |c.lines|);
        assert Existing(answer.value, |c.lines|) == set k | k in LinesShown(answer.value) && 1 <= k <= |c.lines|;
        return advanced, repeated;
      }
      if call.name == PROFILE_SUBMIT || call.name == MATCH_SUBMIT || call.name == TASK_DONE {
        return CollectorProgress(c) > before, repeated;
      }
      return !repeated, repeated;
    }

    method ReadLines(numbers: seq<int>, n: nat) returns (progress: bool)
      modifies this`read
      ensures read == old(read) + set k | k in numbers && 1 <= k <= n
      ensures progress <==> exists k :: k in (set k | k in numbers && 1 <= k <= n)
                                        && (k !in old(read) || k !in Shown(Flatten(rounds)))
    {
      progress := false;
      var resident := ResidentLines();
      for i := 0 to |numbers|
        invariant read == old(read) + set k | k in numbers[..i] && 1 <= k <= n
        invariant progress <==>
                  exists k | 0 <= k < i :: 1 <= numbers[k] <= n && (numbers[k] !in old(read) || numbers[k] !in resident)
      {
        var line := numbers[i];
        assert numbers[..i+1] == numbers[..i] + [line];
        if 1 <= line <= n && (line !in read || line !in resident) {
          read := read + {line};
          progress := true;
        }
      }
      assert numbers[..|numbers|] == numbers;
    }

    method ReadSorted() returns (lines: seq<int>)
      ensures Elements(lines) == read && forall i, j | 0 <= i < j < |lines| :: lines[i] < lines[j]
    {
      lines := Listing(read);
      ghost var unsorted := lines;
      lines := SortSlice(lines, IntLess);
      DistinctPermutes(unsorted, lines);
      SameElements(unsorted, lines);
    }

    /** The lines read, as the fewest ranges. */
    method Ranges() returns (rs: seq<Range>)
      ensures Covering(rs, read)
    {
      var lines := ReadSorted();
      rs := [];
      for i := 0 to |lines|
        invariant Covering(rs, Elements(lines[..i]))
        invariant rs == [] <==> i == 0
        invariant i > 0 ==> rs[|rs|-1].last == lines[i-1]
      {
        assert lines[..i+1] == lines[..i] + [lines[i]];
        assert Elements(lines[..i+1]) == Elements(lines[..i]) + {lines[i]};
        if |rs| > 0 && rs[|rs|-1].last + 1 == lines[i] {
          WidenLast(rs, Elements(lines[..i]), lines[i]);
          rs := rs[|rs|-1 := Range(rs[|rs|-1].first, lines[i])];
        } else {
          AddRange(rs, Elements(lines[..i]), lines[i]);
          rs := rs + [Range(lines[i], lines[i])];
        }
      }
      assert lines[..|lines|] == lines;
    }

    ghost function SceneOf(c: Collector, b: Budget, t: Trace, final: bool): Scene
      reads this, c, t
    {
      Scene(final, Positive(b.maxTokens - t.Spent()), b.maxTurns - t.turns, b.maxToolCalls - t.toolCallCount,
            c.jobs, c.matches, c.profile, read, noProgress)
    }

    method Messages(c: Collector, b: Budget, t: Trace, final: bool) returns (messages: seq<Msg>)
      requires Keyed(c.matches)
      ensures Sends(messages, SceneOf(c, b, t, final), rounds)
    {
      var refs := SortedMembers(c.jobs.Keys);
      var missing, jobs := Missing(c, refs);
      var ranges := Ranges();
      var ranked := c.Ranked();
      var tokens := Positive(b.maxTokens - t.inputTokens - t.outputTokens);
      var view := View(final, tokens, b.maxTurns - t.turns, b.maxToolCalls - t.toolCallCount, missing, ranges, noProgress,
                       c.profile, ranked, jobs);
      var kept := Replay();
      messages := [Message("system", Instructions(final)), Message("user", State(view))] + kept;
      assert messages[2..] == kept;
    }

    method Missing(c: Collector, refs: seq<string>) returns (missing: seq<string>, jobs: seq<Job>)
      requires Elements(refs) == c.jobs.Keys
      ensures jobs == JobsIn(refs, c.jobs)
      ensures missing == (if c.profile.None? then [PROFILE_SUBMIT] else []) + MissingMatches(refs, c.matches.Keys) + [TASK_DONE]
    {
      jobs, missing := [], [];
      for i := 0 to |refs|
        invariant |jobs| == i && forall k | 0 <= k < i :: refs[k] in c.jobs && jobs[k] == c.jobs[refs[k]]
        invariant missing == MissingMatches(refs[..i], c.matches.Keys)
      {
        assert refs[i] in Elements(refs) && refs[..i+1][..i] == refs[..i];
        jobs := jobs + [c.jobs[refs[i]]];
        if refs[i] !in c.matches { missing := missing + [MATCH_SUBMIT]; }
      }
      assert refs[..|refs|] == refs;
      missing := (if c.profile.None? then [PROFILE_SUBMIT] else []) + missing + [TASK_DONE];
    }

    method Replay() returns (messages: seq<Msg>)
      ensures messages == Flatten(rounds)
    {
      messages := [];
      for i := 0 to |rounds|
        invariant messages == Flatten(rounds[..i])
      {
        assert rounds[..i+1][..i] == rounds[..i];
        messages := messages + rounds[i];
      }
      assert rounds[..|rounds|] == rounds;
    }

    /** Keeps only the last rounds, whole, and says whether any were dropped. */
    method Compact(keep: nat) returns (dropped: bool)
      modifies this`rounds
      ensures dropped <==> |old(rounds)| > keep
      ensures rounds == if dropped then old(rounds)[|old(rounds)|-keep..] else old(rounds)
    {
      if |rounds| <= keep { return false; }
      rounds := rounds[|rounds|-keep..];
      return true;
    }
  }
}
