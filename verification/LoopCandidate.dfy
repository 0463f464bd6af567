/** The agent loop: plan a call within the budget, make it, charge it, run the tools
    it asks for, and stop for a reason that is always recorded. */
module LoopCandidate {
  import opened Wrappers
  import opened AgentEvidence
  import opened AgentSubmissions
  import opened AgentCollector
  import opened ModelTokens
  import opened ModelClient
  import opened LoopBudget
  import opened LoopConversation
  import opened LoopTools

  datatype WireCall = WireCall(name: string, arguments: Arguments)

  datatype Ending =
    | Completed
    | MaterialsIncomplete
    | Stopped(reason: string)
    | InvalidOutput
    | ModelError(failure: Failure)
    | ContextEnded

  type Counter = TokenCounter<Content>

  /** Everything outside the loop, by turn and by call: the tokenizer, whether the
      context has ended or is about to, what the client replies, how a reply parses,
      what hosts a call. */
  datatype World = World(text: Content -> nat, ended: int -> bool, late: int -> bool, reply: int -> Reply,
                         parse: string -> seq<WireCall>, host: CallId -> Host, offered: set<string>)

  ghost predicate IsSuffix(a: seq<Round>, b: seq<Round>) {
    exists k | 0 <= k <= |b| :: b[k..] == a
  }

  lemma SuffixOfItself(a: seq<Round>)
    ensures IsSuffix(a, a)
  {
    SuffixAt(a, 0);
    assert a[0..] == a;
  }

  lemma SuffixAt(a: seq<Round>, k: nat)
    requires k <= |a|
    ensures IsSuffix(a[k..], a)
  {
  }

  lemma SuffixOfSuffix(a: seq<Round>, b: seq<Round>, c: seq<Round>)
    requires IsSuffix(a, b) && IsSuffix(b, c)
    ensures IsSuffix(a, c)
  {
    var k :| 0 <= k <= |b| && b[k..] == a;
    var l :| 0 <= l <= |c| && c[l..] == b;
    assert c[l+k..] == a;
  }

  /** A counter that only grows, and never past the limit. */
  predicate Climbs(before: int, now: int, limit: int) { before <= now && (now <= limit || now == before) }

  // ---------------------------------------------------------------- planning

  predicate MustFinalize(b: Budget, turns: int, calls: int, noProgress: int) {
    b.maxTurns - turns <= 2 || b.maxToolCalls - calls <= 3 || noProgress >= 2
  }

  /** An analysis round could not be followed by a final submission and a correction. */
  predicate Tight(b: Budget, remaining: int, attempts: nat, estimated: nat, reserve: nat) {
    remaining < reserve + (estimated + FULL_OUTPUT) * attempts || estimated + 2 * FULL_OUTPUT > b.maxContextTokens
  }

  predicate KeepsCorrection(b: Budget, turns: int, remaining: int, attempts: nat, attempted: bool, estimated: nat) {
    !attempted && b.maxTurns - turns >= 2 && remaining >= 2 * (estimated + FULL_OUTPUT) * attempts
  }

  /** What the reserve guarantees before a plan is fitted to it. */
  predicate Backed(b: Budget, turns: int, remaining: int, attempts: nat, attempted: bool, final: bool,
                   estimated: nat, reserve: nat)
  {
    if !final then
      && reserve >= 2 * SUBMISSION * attempts && remaining >= reserve + (estimated + FULL_OUTPUT) * attempts
      && estimated + 2 * FULL_OUTPUT <= b.maxContextTokens
    else
      reserve > 0 ==>
        && !attempted && b.maxTurns - turns >= 2 && reserve >= (estimated + FULL_OUTPUT) * attempts
        && remaining >= reserve + (estimated + FULL_OUTPUT) * attempts
  }

  /** A smaller estimate is backed by the same reserve. */
  lemma BackedBySame(b: Budget, turns: int, remaining: int, attempts: nat, attempted: bool, final: bool,
                     estimated: nat, less: nat, reserve: nat)
    requires Backed(b, turns, remaining, attempts, attempted, final, estimated, reserve) && less <= estimated
    ensures Backed(b, turns, remaining, attempts, attempted, final, less, reserve)
  {
    Monotone(attempts, less + FULL_OUTPUT, estimated + FULL_OUTPUT);
  }

  function KeptBack(b: Budget, turns: int, remaining: int, attempts: nat, attempted: bool, estimated: nat): int {
    if KeepsCorrection(b, turns, remaining, attempts, attempted, estimated) then
      CorrectionReserve(remaining, estimated, attempts)
    else 0
  }

  lemma KeptBackIsBacked(b: Budget, turns: int, remaining: int, attempts: nat, attempted: bool, estimated: nat)
    requires attempts > 0
    ensures KeptBack(b, turns, remaining, attempts, attempted, estimated) >= 0
    ensures Backed(b, turns, remaining, attempts, attempted, true, estimated,
                   KeptBack(b, turns, remaining, attempts, attempted, estimated))
  {
    if KeepsCorrection(b, turns, remaining, attempts, attempted, estimated) {
      CorrectionIsPaidFor(remaining, estimated, attempts);
    }
  }

  method Survey(h: Conversation, counter: Counter, c: Collector, b: Budget, t: Trace, attempts: nat, final: bool)
      returns (messages: seq<Msg>, estimated: nat, reserve: nat, compacted: bool)
    requires counter.Valid() && Keyed(c.matches) && attempts > 0
    modifies h`rounds
    ensures IsSuffix(h.rounds, old(h.rounds)) && (compacted <==> h.rounds != old(h.rounds))
    ensures Sends(messages, h.SceneOf(c, b, t, final), h.rounds)
    ensures estimated == EstimateOf(counter.text, counter.ratio, messages)
    ensures exists last: seq<Msg> :: Sends(last, h.SceneOf(c, b, t, true), h.rounds)
              && reserve == 2 * (EstimateOf(counter.text, counter.ratio, last) + SUBMISSION) * attempts
    ensures reserve >= 2 * SUBMISSION * attempts
  {
    hide Sends;
    var remaining := b.maxTokens - t.inputTokens - t.outputTokens;
    compacted := false;
    messages := h.Messages(c, b, t, final);
    estimated := counter.Estimate(messages);
    SuffixOfItself(h.rounds);
    if estimated > Quotient(b.maxContextTokens * 3, 5) || estimated * 3 > remaining {
      compacted := h.Compact(2);
      messages := h.Messages(c, b, t, final);
      estimated := counter.Estimate(messages);
    }
    var last := h.Messages(c, b, t, true);
    var lastEstimated := counter.Estimate(last);
    reserve := 2 * (lastEstimated + SUBMISSION) * attempts;
    Monotone(attempts, 2 * SUBMISSION, 2 * (lastEstimated + SUBMISSION));
  }

  /** Decides whether this round is final, and what to keep back from it. */
  method Settle(h: Conversation, counter: Counter, c: Collector, b: Budget, t: Trace, attempts: nat, wasFinal: bool,
                attempted: bool, surveyed: seq<Msg>, surveyEstimate: nat, surveyReserve: nat)
      returns (final: bool, messages: seq<Msg>, estimated: nat, reserve: nat, compacted: bool)
    requires counter.Valid() && Keyed(c.matches) && attempts > 0 && surveyReserve >= 2 * SUBMISSION * attempts
    requires Sends(surveyed, h.SceneOf(c, b, t, wasFinal), h.rounds)
    requires surveyEstimate == EstimateOf(counter.text, counter.ratio, surveyed)
    modifies h`rounds
    ensures IsSuffix(h.rounds, old(h.rounds)) && (compacted <==> h.rounds != old(h.rounds))
    ensures final <==> wasFinal || Tight(b, b.maxTokens - t.Spent(), attempts, surveyEstimate, surveyReserve)
    ensures Sends(messages, h.SceneOf(c, b, t, final), h.rounds)
    ensures estimated == EstimateOf(counter.text, counter.ratio, messages)
    ensures !final ==> reserve == surveyReserve
    ensures final ==> reserve == KeptBack(b, t.turns, b.maxTokens - t.Spent(), attempts, attempted, estimated)
    ensures Backed(b, t.turns, b.maxTokens - t.Spent(), attempts, attempted, final, estimated, reserve)
  {
    hide Sends;
    var remaining := b.maxTokens - t.inputTokens - t.outputTokens;
    final, messages, estimated, reserve, compacted := wasFinal, surveyed, surveyEstimate, surveyReserve, false;
    SuffixOfItself(h.rounds);
    if !final && Tight(b, remaining, attempts, estimated, reserve) {
      final := true;
      compacted := h.Compact(2);
      messages := h.Messages(c, b, t, true);
      estimated := counter.Estimate(messages);
    }
    if final {
      KeptBackIsBacked(b, t.turns, remaining, attempts, attempted, estimated);
      reserve := 0;
      if KeepsCorrection(b, t.turns, remaining, attempts, attempted, estimated) {
        reserve := CorrectionReserve(remaining, estimated, attempts);
      }
    }
  }

  /** Only completion remains. */
  predicate Covered(c: Collector)
    reads c
  {
    c.profile.Some? && |c.matches| == |c.jobs|
  }

  function MinimumOutput(c: Collector): nat
    reads c
  {
    if Covered(c) then SMALL_OUTPUT else FULL_OUTPUT
  }

  function StopReason(b: Budget, estimated: nat, minimum: nat): string {
    if b.maxContextTokens - estimated < minimum then "context_limit" else "next_request"
  }

  /** What a plan guarantees: an affordable call with room for a useful output, or a
      stop because there is no such room, which happens only in a final round. */
  predicate Fitted(b: Budget, turns: int, remaining: int, attempts: nat, attempted: bool, final: bool, minimum: nat,
                   plan: Plan, stop: Option<string>)
    requires attempts > 0
  {
    && Backed(b, turns, remaining, attempts, attempted, final, plan.estimated, plan.reserve)
    && (stop.None? ==> Affordable(b, remaining, attempts, plan) && plan.limit >= minimum)
    && (!final ==> stop.None? && plan.limit >= FULL_OUTPUT)
    && (stop.Some? ==>
          && Available(b, remaining, plan.reserve, attempts, plan.estimated) < minimum
          && stop.value == StopReason(b, plan.estimated, minimum))
  }

  lemma PlanIsFitted(b: Budget, turns: int, remaining: int, attempts: nat, attempted: bool, final: bool, minimum: nat,
                     estimated: nat, reserve: nat)
    requires attempts > 0 && remaining > 0 && minimum <= FULL_OUTPUT
    requires Backed(b, turns, remaining, attempts, attempted, final, estimated, reserve)
    ensures var available := Available(b, remaining, reserve, attempts, estimated);
      if available < minimum then
        Fitted(b, turns, remaining, attempts, attempted, final, minimum, Plan(estimated, reserve, 0),
               Some(StopReason(b, estimated, minimum)))
      else
        Fitted(b, turns, remaining, attempts, attempted, final, minimum,
               Plan(estimated, reserve, Min(available, OUTPUT_CAP)), None)
  {
    var available := Available(b, remaining, reserve, attempts, estimated);
    if !final { RoomForOutput(remaining, reserve, attempts, estimated); }
    if available >= minimum {
      Monotone(attempts, 0, estimated + FULL_OUTPUT);
      AvailableIsAffordable(b, remaining, reserve, attempts, estimated, Min(available, OUTPUT_CAP));
    }
  }

  /** Drops all but the last round; what is then sent never costs more. */
  method Squeeze(h: Conversation, counter: Counter, c: Collector, b: Budget, t: Trace, final: bool,
                 drafted: seq<Msg>, draftEstimate: nat)
      returns (messages: seq<Msg>, estimated: nat, dropped: bool)
    requires counter.Valid() && Keyed(c.matches)
    requires Sends(drafted, h.SceneOf(c, b, t, final), h.rounds)
    requires draftEstimate == EstimateOf(counter.text, counter.ratio, drafted)
    modifies h`rounds
    ensures IsSuffix(h.rounds, old(h.rounds)) && (dropped <==> h.rounds != old(h.rounds))
    ensures Sends(messages, h.SceneOf(c, b, t, final), h.rounds)
    ensures estimated == EstimateOf(counter.text, counter.ratio, messages)
    ensures estimated <= draftEstimate
  {
    hide Sends, EstimateOf, IsSuffix, Keyed;
    ghost var before := h.rounds;
    messages, estimated := drafted, draftEstimate;
    dropped := h.Compact(1);
    if dropped {
      SuffixAt(before, |before| - 1);
      messages := h.Messages(c, b, t, final);
      estimated := counter.Estimate(messages);
      CompactionNeverCosts(counter.text, counter.ratio, drafted, messages, h.SceneOf(c, b, t, final), before, |before| - 1);
    } else {
      SuffixOfItself(h.rounds);
    }
  }

  /** Fits the output of the round into what is available, dropping all but the last
      round if that is too little. */
  method Fit(h: Conversation, counter: Counter, c: Collector, b: Budget, t: Trace, attempts: nat, final: bool,
             attempted: bool, drafted: seq<Msg>, draftEstimate: nat, reserve: nat)
      returns (messages: seq<Msg>, plan: Plan, stop: Option<string>, compacted: bool)
    requires counter.Valid() && Keyed(c.matches) && attempts > 0 && b.maxTokens > t.Spent()
    requires Sends(drafted, h.SceneOf(c, b, t, final), h.rounds)
    requires draftEstimate == EstimateOf(counter.text, counter.ratio, drafted)
    requires Backed(b, t.turns, b.maxTokens - t.Spent(), attempts, attempted, final, draftEstimate, reserve)
    modifies h`rounds
    ensures IsSuffix(h.rounds, old(h.rounds)) && (compacted <==> h.rounds != old(h.rounds))
    ensures Sends(messages, h.SceneOf(c, b, t, final), h.rounds)
    ensures plan.estimated == EstimateOf(counter.text, counter.ratio, messages)
    ensures plan.reserve == reserve
    ensures Fitted(b, t.turns, b.maxTokens - t.Spent(), attempts, attempted, final, MinimumOutput(c), plan, stop)
  {
    hide Sends, Backed, Fitted, EstimateOf, Quotient, IsSuffix;
    var remaining := b.maxTokens - t.inputTokens - t.outputTokens;
    messages, compacted := drafted, false;
    var estimated := draftEstimate;
    var available := Available(b, remaining, reserve, attempts, estimated);
    SuffixOfItself(h.rounds);
    if available < FULL_OUTPUT {
      messages, estimated, compacted := Squeeze(h, counter, c, b, t, final, drafted, draftEstimate);
      BackedBySame(b, t.turns, remaining, attempts, attempted, final, draftEstimate, estimated, reserve);
      available := Available(b, remaining, reserve, attempts, estimated);
    }
    var minimum := MinimumOutput(c);
    PlanIsFitted(b, t.turns, remaining, attempts, attempted, final, minimum, estimated, reserve);
    if available < minimum {
      plan := Plan(estimated, reserve, 0);
      stop := Some(StopReason(b, estimated, minimum));
    } else {
      plan := Plan(estimated, reserve, Min(available, OUTPUT_CAP));
      stop := None;
    }
  }

  /** Everything before the call: what to send, what it may cost, or why to stop. */
  method Preflight(h: Conversation, counter: Counter, c: Collector, b: Budget, t: Trace, attempts: nat,
                   wasFinal: bool, attempted: bool)
      returns (final: bool, messages: seq<Msg>, plan: Plan, stop: Option<string>, compacted: bool)
    requires counter.Valid() && Keyed(c.matches) && attempts > 0 && b.maxTokens > t.Spent()
    modifies h`rounds, t`budget
    ensures wasFinal ==> final
    ensures IsSuffix(h.rounds, old(h.rounds))
    ensures Sends(messages, h.SceneOf(c, b, t, final), h.rounds)
    ensures plan.estimated == EstimateOf(counter.text, counter.ratio, messages)
    ensures Fitted(b, t.turns, b.maxTokens - t.Spent(), attempts, attempted, final, MinimumOutput(c), plan, stop)
    ensures t.budget == old(t.budget).(nextInput := plan.estimated, reserved := plan.reserve,
                                       stopReason := if stop.Some? then stop.value else old(t.budget).stopReason)
  {
    hide Sends, Backed, Fitted, IsSuffix, KeptBack, Tight, Quotient, EstimateOf, Keyed, Covered;
    ghost var r0 := h.rounds;
    var surveyed, surveyEstimate, surveyReserve, c1 := Survey(h, counter, c, b, t, attempts, wasFinal);
    ghost var r1 := h.rounds;
    var drafted, estimated, reserve, c2;
    final, drafted, estimated, reserve, c2 :=
      Settle(h, counter, c, b, t, attempts, wasFinal, attempted, surveyed, surveyEstimate, surveyReserve);
    ghost var r2 := h.rounds;
    var c3;
    messages, plan, stop, c3 := Fit(h, counter, c, b, t, attempts, final, attempted, drafted, estimated, reserve);
    SuffixOfSuffix(r2, r1, r0);
    SuffixOfSuffix(h.rounds, r2, r0);
    compacted := c1 || c2 || c3;
    t.budget := t.budget.(nextInput := plan.estimated, reserved := plan.reserve);
    if stop.Some? { t.Stop(stop.value); }
  }

  // ---------------------------------------------------------------- charging

  /** The round a call leaves in the trace: charged for every attempt, against what
      had been spent before. */
  predicate Charged(r: RoundTrace, u: Usage, measured: Option<nat>, plan: Plan, final: bool) {
    && r.estimated == plan.estimated && r.outputLimit == plan.limit && r.reserved == plan.reserve
    && r.phase == (if final then Finalize else Analysis)
    && r.input == ChargedInput(u, plan.estimated) && r.output == ChargedOutput(u, measured, plan.limit)
    && r.source == SourceOf(u) && r.attempts == Transports(u) && !r.progress
  }

  function Measured(text: Content -> nat, content: string): Option<nat> {
    if content == "" then None else Some(text(Said(content)))
  }

  method Charge(counter: Counter, b: Budget, t: Trace, messages: seq<Msg>, content: string, u: Usage, plan: Plan,
                final: bool, compacted: bool)
      returns (r: RoundTrace)
    requires counter.Valid() && plan.estimated == EstimateOf(counter.text, counter.ratio, messages)
    modifies counter, t`turns, t`inputTokens, t`outputTokens, t`rounds, t`budget
    ensures counter.Valid()
    ensures Charged(r, u, Measured(counter.text, content), plan, final) && r.compacted == compacted
    ensures t.rounds == old(t.rounds) + [r] && t.turns == r.turn == old(t.turns) + 1
    ensures t.inputTokens == old(t.inputTokens) + r.input && t.outputTokens == old(t.outputTokens) + r.output
    ensures r.remaining == t.budget.remaining == Positive(b.maxTokens - t.Spent())
    ensures t.budget.formatRepairs == old(t.budget.formatRepairs) && t.budget.stopReason == old(t.budget.stopReason)
    ensures t.budget.transportRetries == old(t.budget.transportRetries) + r.attempts - 1
    ensures t.budget.source == Estimated <==> forall x | x in t.rounds :: x.source == Estimated
    ensures t.budget.source == Reported <==> forall x | x in t.rounds :: x.source == Reported
  {
    var input, output, source :=
      RecordUsage(counter, messages, if content == "" then None else Some(Said(content)), u, plan.limit);
    t.turns := t.turns + 1;
    t.inputTokens := t.inputTokens + input;
    t.outputTokens := t.outputTokens + output;
    var remaining := Positive(b.maxTokens - t.inputTokens - t.outputTokens);
    r := RoundTrace(t.turns, if final then Finalize else Analysis, plan.estimated, input, output, plan.limit, remaining,
                    plan.reserve, source, Transports(u), false, compacted);
    t.rounds := t.rounds + [r];
    assert t.rounds != [];
    var merged := MergeUsageSource(t.rounds);
    t.budget := t.budget.(remaining := remaining, source := merged,
                          transportRetries := t.budget.transportRetries + Positive(u.attempts - 1));
  }

  /** A planned and charged round belongs in the ledger. */
  lemma ChargedFits(b: Budget, turns: int, spent: nat, attempts: nat, attempted: bool, final: bool, plan: Plan,
                    minimum: nat,
                    u: Usage, measured: Option<nat>, r: RoundTrace)
    requires attempts > 0 && minimum >= SMALL_OUTPUT
    requires Fitted(b, turns, b.maxTokens - spent, attempts, attempted, final, minimum, plan, None)
    requires Charged(r, u, measured, plan, final) && r.remaining == Positive(b.maxTokens - (spent + r.input + r.output))
    ensures RoundFits(b, attempts, spent, r)
    ensures r.reserved > 0 && final ==> !attempted
  {
  }

  // ---------------------------------------------------------------- running the calls

  const FINALIZE_ONLY := Problem("finalize_only", [Field("name")])

  /** How a collector may change: nothing stored is lost, and nothing changes after
      the end. */
  predicate Onward(a: Standing, b: Standing) {
    && (a.profile.Some? ==> b.profile == a.profile)
    && (forall ref | ref in a.matches :: ref in b.matches && b.matches[ref] == a.matches[ref])
    && (a.done ==> b == a)
  }

  lemma OnwardFromItself(a: Standing)
    ensures Onward(a, a)
  {
  }

  lemma OnwardComposes(a: Standing, b: Standing, c: Standing)
    requires Onward(a, b) && Onward(b, c)
    ensures Onward(a, c)
  {
  }

  function TraceName(name: string, offered: set<string>): string {
    if name in offered then name else "unregistered_tool"
  }

  lemma SubmissionMovesOn(c: Collector, call: ToolCall, r: ToolOutcome, was: Standing)
    requires if r.Ok? && Submits(call.name) then Submitted(c, call, was) else StandingOf(c) == was
    ensures Onward(was, StandingOf(c))
    ensures r.Ok? && Submits(call.name) ==> CollectorProgress(c) > ProgressOf(was)
  {
    if r.Ok? && Submits(call.name) { AcceptedIsProgress(c, call, was); }
  }

  predicate Allowed(final: bool, call: ToolCall) { !final || FinalTool(call.name) }

  /** A final round may still submit. */
  lemma AllFinal(call: ToolCall)
    ensures Submits(call.name) ==> FinalTool(call.name)
  {
  }

  method Dispatch(c: Collector, final: bool, call: ToolCall, host: Host) returns (r: ToolOutcome)
    requires c.Valid()
    modifies c`profile, c`matches, c`done, c`failed
    ensures c.Valid() && Onward(old(StandingOf(c)), StandingOf(c))
    ensures r.Ok? && Submits(call.name) ==> CollectorProgress(c) > old(CollectorProgress(c))
    ensures !(r.Ok? && Submits(call.name)) ==> StandingOf(c) == old(StandingOf(c))
    ensures final && !FinalTool(call.name) ==> r == Bad(FINALIZE_ONLY)
    ensures Allowed(final, call) && Reaches(host) && Submits(call.name) ==>
              !r.Ended? && (r.Ok? <==> Accepts(c, old(StandingOf(c)), call))
    ensures r.Ok? && Submits(call.name) ==> Submitted(c, call, old(StandingOf(c)))
  {
    hide Submitted, Accepts;
    AllFinal(call);
    if final && !FinalTool(call.name) {
      r := Bad(FINALIZE_ONLY);
    } else {
      r := Execute(c, call, host);
      SubmissionMovesOn(c, call, r, old(StandingOf(c)));
    }
  }

  predicate Repeats(h: Conversation, call: ToolCall)
    reads h
  {
    (call.name, call.arguments) in h.seen
  }

  /** One call: counted, run unless the phase forbids it, observed, traced and answered. */
  method RunCall(h: Conversation, c: Collector, t: Trace, final: bool, call: ToolCall, host: Host, offered: set<string>)
      returns (ended: bool, message: Msg, advanced: bool)
    requires c.Valid()
    modifies c`profile, c`matches, c`done, c`failed, h`seen, h`read, t`toolCallCount, t`toolCalls
    ensures c.Valid() && Onward(old(StandingOf(c)), StandingOf(c))
    ensures t.toolCallCount == old(t.toolCallCount) + 1
    ensures ended ==> t.toolCalls == old(t.toolCalls)
    ensures !ended ==> Answers(message, call.id)
    ensures !ended ==>
              t.toolCalls == old(t.toolCalls) + [ToolTrace(TraceName(call.name, offered), message.content.answer.Answered?,
                                                           old(Repeats(h, call)))]
    ensures !advanced ==> StandingOf(c) == old(StandingOf(c))
    ensures final && !FinalTool(call.name) ==>
              !ended && !advanced && message.content.answer == Refused(FINALIZE_ONLY, old(Repeats(h, call)))
    ensures Repeats(h, call) && old(h.seen) <= h.seen && old(h.read) <= h.read
    ensures Allowed(final, call) && Reaches(host) && Submits(call.name) ==>
              !ended && (message.content.answer.Answered? <==> Accepts(c, old(StandingOf(c)), call))
    ensures !ended && message.content.answer.Answered? && Submits(call.name) ==> Submitted(c, call, old(StandingOf(c)))
  {
    hide Submitted, Accepts, Onward, Collector.Valid, Shown, Flatten, Existing;
    t.toolCallCount := t.toolCallCount + 1;
    var before := CollectorProgress(c);
    var outcome := Dispatch(c, final, call, host);
    var repeated;
    advanced, repeated := h.Observe(call, if outcome.Ok? then Some(outcome.payload) else None, before, c);
    match outcome {
      case Ended => return true, Message("user", Repair), advanced;
      case Ok(payload) => message := Message("user", Result(call.id, Answered(payload)));
      case Bad(problem) => message := Message("user", Result(call.id, Refused(problem, repeated)));
    }
    t.toolCalls := t.toolCalls + [ToolTrace(TraceName(call.name, offered), outcome.Ok?, repeated)];
    ended := false;
  }

  /** Why a batch of calls may end the run. */
  predicate CallsEnding(e: Ending) { e == InvalidOutput || e == Stopped("tool_limit") || e == ContextEnded }

  /** The calls of one reply, in order.  Unless the run ends, the round holds the
      reply and exactly its results; if no call advanced, the collector is as it was. */
  method RunCalls(h: Conversation, c: Collector, b: Budget, t: Trace, final: bool, calls: seq<ToolCall>,
                  host: CallId -> Host,
                  offered: set<string>)
      returns (ending: Option<Ending>, round: Round, progress: bool)
    requires c.Valid()
    modifies c`profile, c`matches, c`done, c`failed, h`seen, h`read, t`toolCallCount, t`toolCalls, t`budget
    ensures c.Valid() && Onward(old(StandingOf(c)), StandingOf(c))
    ensures ending.Some? ==> CallsEnding(ending.value)
    ensures ending == Some(Stopped("tool_limit")) ==> t.toolCallCount >= b.maxToolCalls
    ensures ending == Some(InvalidOutput) ==> c.done
    ensures Climbs(old(t.toolCallCount), t.toolCallCount, b.maxToolCalls)
    ensures old(t.toolCalls) <= t.toolCalls
    ensures |t.toolCalls| - |old(t.toolCalls)| ==
            t.toolCallCount - old(t.toolCallCount) - if ending == Some(ContextEnded) then 1 else 0
    ensures ending.None? ==> t.toolCallCount == old(t.toolCallCount) + |calls|
    ensures ending.None? ==> |round| == |calls| + 1 && round[0] == Message("assistant", Calls(calls))
    ensures ending.None? ==> forall i | 0 <= i < |calls| :: Answers(round[i+1], calls[i].id)
    ensures ending.None? && final ==> forall i | 0 <= i < |calls| && !FinalTool(calls[i].name) :: IsRefusal(round[i+1])
    ensures ending.None? && !progress ==> StandingOf(c) == old(StandingOf(c))
    ensures ending.None? && calls != [] ==> !old(c.done)
    ensures t.budget == old(t.budget).(stopReason := match ending
                                                       case Some(InvalidOutput) => "invalid_output"
                                                       case Some(Stopped(reason)) => reason
                                                       case _ => old(t.budget).stopReason)
  {
    hide Collector.Valid;
    progress := false;
    round := [Message("assistant", Calls(calls))];
    for i := 0 to |calls|
      invariant c.Valid() && Onward(old(StandingOf(c)), StandingOf(c))
      invariant t.toolCallCount == old(t.toolCallCount) + i
      invariant (i > 0 ==> t.toolCallCount <= b.maxToolCalls && !old(c.done))
      invariant old(t.toolCalls) <= t.toolCalls && |t.toolCalls| == |old(t.toolCalls)| + i
      invariant |round| == i + 1 && round[0] == Message("assistant", Calls(calls))
      invariant forall k | 0 <= k < i :: Answers(round[k+1], calls[k].id)
      invariant final ==> forall k | 0 <= k < i && !FinalTool(calls[k].name) :: IsRefusal(round[k+1])
      invariant !progress ==> StandingOf(c) == old(StandingOf(c))
      invariant t.budget == old(t.budget)
    {
      if c.done {
        t.Stop("invalid_output");
        return Some(InvalidOutput), round, progress;
      }
      if t.toolCallCount >= b.maxToolCalls {
        t.Stop("tool_limit");
        return Some(Stopped("tool_limit")), round, progress;
      }
      var ended, message, advanced := RunCall(h, c, t, final, calls[i], host(calls[i].id), offered);
      progress := progress || advanced;
      if ended { return Some(ContextEnded), round, progress; }
      round := round + [message];
    }
    ending := None;
  }

  predicate IsRefusal(m: Msg) {
    m.content.Result? && m.content.answer.Refused? && m.content.answer.problem == FINALIZE_ONLY
  }

  // ---------------------------------------------------------------- one turn

  /** The model's own identifiers are dropped: calls are numbered by turn and place. */
  method AssignIds(turn: int, wire: seq<WireCall>) returns (calls: seq<ToolCall>)
    ensures |calls| == |wire|
    ensures forall i | 0 <= i < |calls| :: calls[i] == ToolCall(CallId(turn, i + 1), wire[i].name, wire[i].arguments)
  {
    calls := [];
    for i := 0 to |wire|
      invariant |calls| == i
      invariant forall k | 0 <= k < i :: calls[k] == ToolCall(CallId(turn, k + 1), wire[k].name, wire[k].arguments)
    {
      calls := calls + [ToolCall(CallId(turn, i + 1), wire[i].name, wire[i].arguments)];
    }
  }

  /** The stop reason an ending leaves in the trace. */
  predicate Recorded(e: Ending, reason: string) {
    match e
    case Stopped(r) => reason == r
    case ModelError(_) => reason == "model_error"
    case InvalidOutput => reason == "invalid_output"
    case MaterialsIncomplete => reason == "materials_incomplete"
    case _ => true
  }

  predicate Unusable(reply: Reply, w: World) { reply.error.Some? || w.parse(reply.content) == [] }

  /** The round holds the reply's calls as numbered here, and an answer to each. */
  predicate RoundOf(round: Round, turn: int, wire: seq<WireCall>) {
    && GoodRound(round) && IsCall(round) && TurnOf(round) == turn && |round[0].content.calls| == |wire|
    && forall i | 0 <= i < |wire| ::
         round[0].content.calls[i].name == wire[i].name && round[0].content.calls[i].arguments == wire[i].arguments
  }

  const MAX_REPAIRS := 2

  /** The reply is unusable: ask once more for the format, at most twice in a run. */
  method AskForRepair(h: Conversation, b: Budget, t: Trace) returns (ending: Option<Ending>)
    requires Orderly(h.rounds, t.turns)
    modifies h`rounds, h`noProgress, t`budget
    ensures Orderly(h.rounds, t.turns)
    ensures ending.None? <==> old(t.budget).formatRepairs < MAX_REPAIRS && t.turns < b.maxTurns
    ensures ending.None? ==>
              && h.rounds == old(h.rounds) + [[Message("user", Repair)]] && h.noProgress == old(h.noProgress) + 1
              && t.budget == old(t.budget).(formatRepairs := old(t.budget).formatRepairs + 1)
    ensures ending.Some? ==>
              && ending.value == InvalidOutput && h.rounds == old(h.rounds) && h.noProgress == old(h.noProgress)
              && t.budget == old(t.budget).(stopReason := "invalid_output")
  {
    if t.budget.formatRepairs >= MAX_REPAIRS || t.turns >= b.maxTurns {
      t.Stop("invalid_output");
      return Some(InvalidOutput);
    }
    t.budget := t.budget.(formatRepairs := t.budget.formatRepairs + 1);
    h.noProgress := h.noProgress + 1;
    h.rounds := h.rounds + [[Message("user", Repair)]];
    ending := None;
  }

  lemma CallsMakeGoodRound(calls: seq<ToolCall>, turn: int, round: Round, rounds: seq<Round>)
    requires calls != [] && forall i | 0 <= i < |calls| :: calls[i].id == CallId(turn, i + 1)
    requires |round| == |calls| + 1 && round[0] == Message("assistant", Calls(calls))
    requires forall i | 0 <= i < |calls| :: Answers(round[i+1], calls[i].id)
    requires Orderly(rounds, turn - 1)
    ensures Orderly(rounds + [round], turn) && GoodRound(round) && IsCall(round) && TurnOf(round) == turn
  {
    assert GoodRound(round) && IsCall(round) && TurnOf(round) == turn;
  }

  /** Runs the calls of a usable reply and closes its round. */
  method RunReply(h: Conversation, c: Collector, b: Budget, t: Trace, final: bool, wire: seq<WireCall>, w: World)
      returns (ending: Option<Ending>, progress: bool)
    requires c.Valid() && Orderly(h.rounds, t.turns - 1) && wire != []
    requires t.rounds != [] && !t.rounds[|t.rounds|-1].progress
    modifies c`profile, c`matches, c`done, c`failed, h, t`toolCallCount, t`toolCalls, t`budget, t`rounds
    ensures c.Valid() && Onward(old(StandingOf(c)), StandingOf(c))
    ensures t.rounds == old(t.rounds)[|old(t.rounds)|-1 := old(t.rounds)[|old(t.rounds)|-1].(progress := progress)]
    ensures ending.None? ==> Orderly(h.rounds, t.turns) && h.noProgress == if progress then 0 else old(h.noProgress) + 1
    ensures ending.None? ==>
              && |h.rounds| > 0 && h.rounds[..|h.rounds|-1] == old(h.rounds)
              && RoundOf(h.rounds[|h.rounds|-1], t.turns, wire)
    ensures Climbs(old(t.toolCallCount), t.toolCallCount, b.maxToolCalls)
    ensures ending.None? ==> !c.done && t.toolCallCount == old(t.toolCallCount) + |wire|
    ensures ending.None? && !progress ==> StandingOf(c) == old(StandingOf(c))
    ensures ending.Some? ==>
              && (CallsEnding(ending.value) || ending.value == Completed || ending.value == MaterialsIncomplete)
              && (ending.value == Completed ==> c.done && !c.failed)
              && (ending.value == MaterialsIncomplete ==> c.done && c.failed)
              && (ending.value == Stopped("tool_limit") ==> t.toolCallCount >= b.maxToolCalls)
              && (ending.value == InvalidOutput ==> c.done)
              && Recorded(ending.value, t.budget.stopReason)
    ensures t.budget == old(t.budget).(stopReason := t.budget.stopReason)
    ensures ending.None? ==> t.budget == old(t.budget)
  {
    hide Collector.Valid, Onward;
    var calls := AssignIds(t.turns, wire);
    var round;
    ghost var rounds := h.rounds;
    ending, round, progress := RunCalls(h, c, b, t, final, calls, w.host, w.offered);
    if ending.Some? {
      progress := false;
      return;
    }
    CallsMakeGoodRound(calls, t.turns, round, rounds);
    h.rounds := h.rounds + [round];
    var last := |t.rounds| - 1;
    t.rounds := t.rounds[last := t.rounds[last].(progress := progress)];
    h.noProgress := if progress then 0 else h.noProgress + 1;
    if c.done {
      if c.failed {
        t.budget := t.budget.(stopReason := "materials_incomplete");
        return Some(MaterialsIncomplete), progress;
      }
      return Some(Completed), progress;
    }
  }

  /** The round was charged what its reply used. */
  predicate FromReply(w: World, r: RoundTrace) {
    var u, measured := w.reply(r.turn - 1).usage, Measured(w.text, w.reply(r.turn - 1).content);
    && r.input == ChargedInput(u, r.estimated) && r.output == ChargedOutput(u, measured, r.outputLimit)
    && r.source == SourceOf(u) && r.attempts == Transports(u)
  }

  /** The round a call leaves behind, against what was spent before it. */
  ghost predicate RoundMade(w: World, b: Budget, attempts: nat, attempted: bool, spent: nat, final: bool,
                            r: RoundTrace)
  {
    && FromReply(w, r) && RoundFits(b, attempts, spent, r) && r.phase == (if final then Finalize else Analysis)
    && (final && r.reserved > 0 ==> !attempted)
  }

  /** A list of messages as sent, what it pictures, and the rounds it replays. */
  datatype Sent = Sent(messages: seq<Msg>, scene: Scene, rounds: seq<Round>)

  /** The messages are the head for their scene and, flattened, the last of the rounds
      held. */
  ghost predicate SentFrom(x: Sent, held: seq<Round>) {
    Sends(x.messages, x.scene, x.rounds) && IsSuffix(x.rounds, held)
  }

  /** Plans a call and, if it is affordable, makes and charges it. */
  method Call(h: Conversation, counter: Counter, c: Collector, b: Budget, t: Trace, attempts: nat, wasFinal: bool,
              attempted: bool, w: World)
      returns (final: bool, reply: Reply, made: Option<RoundTrace>, ghost sent: Sent)
    requires counter.Valid() && counter.text == w.text && c.Valid() && attempts > 0 && b.maxTokens > t.Spent()
    modifies h`rounds, counter, t`turns, t`inputTokens, t`outputTokens, t`rounds, t`budget
    ensures counter.Valid() && (wasFinal ==> final) && IsSuffix(h.rounds, old(h.rounds))
    ensures SentFrom(sent, old(h.rounds)) && sent.rounds == h.rounds
    ensures made.None? ==>
              && final && t.turns == old(t.turns) && t.inputTokens == old(t.inputTokens)
              && t.outputTokens == old(t.outputTokens)
              && t.rounds == old(t.rounds) && t.budget.stopReason in {"context_limit", "next_request"}
              && Available(b, b.maxTokens - t.Spent(), t.budget.reserved, attempts, t.budget.nextInput) < MinimumOutput(c)
              && t.budget.formatRepairs == old(t.budget).formatRepairs
              && t.budget.transportRetries == old(t.budget).transportRetries
    ensures made.Some? ==>
              && reply == w.reply(old(t.turns))
              && RoundMade(w, b, attempts, attempted, old(t.Spent()), final, made.value)
              && t.rounds == old(t.rounds) + [made.value] && !made.value.progress
              && t.turns == made.value.turn == old(t.turns) + 1
              && t.inputTokens == old(t.inputTokens) + made.value.input
              && t.outputTokens == old(t.outputTokens) + made.value.output
              && t.budget.formatRepairs == old(t.budget).formatRepairs
              && t.budget.remaining == Positive(b.maxTokens - t.Spent())
              && t.budget.transportRetries == old(t.budget).transportRetries + made.value.attempts - 1
              && made.value.attempts >= 1
  {
    hide Sends, Fitted, IsSuffix, EstimateOf, Collector.Valid, RoundFits, Ranking;
    ValidIsKeyed(c);
    var messages, plan, stop, compacted;
    final, messages, plan, stop, compacted := Preflight(h, counter, c, b, t, attempts, wasFinal, attempted);
    sent := Sent(messages, h.SceneOf(c, b, t, final), h.rounds);
    ghost var minimum := MinimumOutput(c);
    ghost var turns, spent := t.turns, t.Spent();
    StopIsFinal(b, turns, b.maxTokens - spent, attempts, attempted, final, minimum, plan, stop);
    reply := w.reply(t.turns);
    if stop.Some? {
      made := None;
      return;
    }
    ghost var measured := Measured(counter.text, reply.content);
    var r := Charge(counter, b, t, messages, reply.content, reply.usage, plan, final, compacted);
    ChargedFits(b, turns, spent, attempts, attempted, final, plan, minimum, reply.usage, measured, r);
    made := Some(r);
  }

  lemma ValidIsKeyed(c: Collector)
    requires c.Valid()
    ensures Keyed(c.matches)
  {
    forall ref | ref in c.matches ensures c.matches[ref].jobRef == ref && c.matches[ref].rank == 0 {
      assert GoodMatch(c.jobs, c.lines, c.Incomplete(), ref, c.matches[ref]);
    }
  }

  lemma StopIsFinal(b: Budget, turns: int, remaining: int, attempts: nat, attempted: bool, final: bool, minimum: nat,
                    plan: Plan, stop: Option<string>)
    requires attempts > 0 && Fitted(b, turns, remaining, attempts, attempted, final, minimum, plan, stop)
    ensures stop.Some? ==>
              && final && stop.value in {"context_limit", "next_request"}
              && Available(b, remaining, plan.reserve, attempts, plan.estimated) < minimum
  {
  }

  /** Every ending has its cause. */
  predicate Justified(e: Ending, b: Budget, t: Trace, c: Collector, attempts: nat, stall: nat, w: World)
    requires attempts > 0
    reads t, c
  {
    match e
    case Stopped(reason) =>
      && (reason == "token_limit" ==> t.Spent() >= b.maxTokens)
      && (reason == "tool_limit" ==> t.toolCallCount >= b.maxToolCalls)
      && (reason == "turn_limit" ==> t.turns >= b.maxTurns)
      && (reason == "no_progress" ==> stall >= 3)
      && (reason in {"context_limit", "next_request"} ==>
            Available(b, b.maxTokens - t.Spent(), t.budget.reserved, attempts, t.budget.nextInput) < MinimumOutput(c))
      && reason in {"token_limit", "tool_limit", "turn_limit", "no_progress", "context_limit", "next_request"}
    case ModelError(f) => w.reply(t.turns - 1).error == Some(f) && f != InvalidResponse
    case InvalidOutput => Unusable(w.reply(t.turns - 1), w) || c.done
    case Completed => c.done && !c.failed
    case MaterialsIncomplete => c.done && c.failed
    case ContextEnded => true
  }

  predicate GateEnding(e: Ending) {
    e == ContextEnded || (e.Stopped? && e.reason in {"token_limit", "tool_limit", "no_progress"})
  }

  /** The checks at the head of the loop, in order, and the final latch. */
  method Gate(h: Conversation, c: Collector, b: Budget, t: Trace, attempts: nat, wasFinal: bool, w: World)
      returns (ending: Option<Ending>, final: bool)
    requires attempts > 0
    modifies t`budget
    ensures wasFinal ==> final
    ensures ending.Some? ==> GateEnding(ending.value) && Recorded(ending.value, t.budget.stopReason)
    ensures ending.Some? ==> Justified(ending.value, b, t, c, attempts, h.noProgress, w)
    ensures ending == Some(ContextEnded) <==> w.ended(t.turns)
    ensures ending.None? <==>
              !w.ended(t.turns) && b.maxTokens > t.Spent() && t.toolCallCount < b.maxToolCalls && h.noProgress < 3
    ensures ending.None? ==> final == (wasFinal || MustFinalize(b, t.turns, t.toolCallCount, h.noProgress) || w.late(t.turns))
    ensures t.budget == old(t.budget).(remaining := t.budget.remaining, stopReason := t.budget.stopReason)
  {
    final := wasFinal;
    if w.ended(t.turns) { return Some(ContextEnded), final; }
    var remaining := b.maxTokens - t.inputTokens - t.outputTokens;
    t.budget := t.budget.(remaining := Positive(remaining));
    if remaining <= 0 {
      t.Stop("token_limit");
      return Some(Stopped("token_limit")), final;
    }
    if t.toolCallCount >= b.maxToolCalls {
      t.Stop("tool_limit");
      return Some(Stopped("tool_limit")), final;
    }
    if h.noProgress >= 3 {
      t.Stop("no_progress");
      return Some(Stopped("no_progress")), final;
    }
    final := final || MustFinalize(b, t.turns, t.toolCallCount, h.noProgress) || w.late(t.turns);
    ending := None;
  }

  /** How a run that made its call may end, and why. */
  predicate Closed(e: Ending, b: Budget, t: Trace, c: Collector, w: World)
    reads t, c
  {
    match e
    case Stopped(reason) =>
      (reason == "token_limit" && t.Spent() > b.maxTokens) || (reason == "tool_limit" && t.toolCallCount >= b.maxToolCalls)
    case ModelError(f) => w.reply(t.turns - 1).error == Some(f) && f != InvalidResponse
    case InvalidOutput => Unusable(w.reply(t.turns - 1), w) || c.done
    case Completed => c.done && !c.failed
    case MaterialsIncomplete => c.done && c.failed
    case ContextEnded => true
  }

  lemma ClosedIsJustified(e: Ending, b: Budget, t: Trace, c: Collector, attempts: nat, stall: nat, w: World)
    requires attempts > 0 && Closed(e, b, t, c, w)
    ensures Justified(e, b, t, c, attempts, stall, w)
    ensures e.Stopped? ==> e.reason in {"token_limit", "tool_limit"}
  {
  }

  lemma StopIsJustified(reason: string, b: Budget, t: Trace, c: Collector, attempts: nat, stall: nat, w: World)
    requires attempts > 0 && reason in {"context_limit", "next_request"}
    requires Available(b, b.maxTokens - t.Spent(), t.budget.reserved, attempts, t.budget.nextInput) < MinimumOutput(c)
    ensures Justified(Stopped(reason), b, t, c, attempts, stall, w)
  {
  }

  /** What follows a charged call: the overrun stop, a failed or unusable reply, or
      its calls. */
  method Answer(h: Conversation, c: Collector, b: Budget, t: Trace, final: bool, reply: Reply, w: World)
      returns (ending: Option<Ending>, progress: bool)
    requires c.Valid() && Orderly(h.rounds, t.turns - 1) && Orderly(h.rounds, t.turns) && reply == w.reply(t.turns - 1)
    requires t.rounds != [] && !t.rounds[|t.rounds|-1].progress
    modifies c`profile, c`matches, c`done, c`failed, h, t`toolCallCount, t`toolCalls, t`budget, t`rounds
    ensures c.Valid() && Onward(old(StandingOf(c)), StandingOf(c))
    ensures t.rounds == old(t.rounds)[|old(t.rounds)|-1 := old(t.rounds)[|old(t.rounds)|-1].(progress := progress)]
    ensures t.Spent() > b.maxTokens ==> ending == Some(Stopped("token_limit"))
    ensures ending.None? ==>
              && Orderly(h.rounds, t.turns) && h.noProgress == (if progress then 0 else old(h.noProgress) + 1)
              && (progress || StandingOf(c) == old(StandingOf(c)))
    ensures ending.None? ==>
              && |h.rounds| > 0 && h.rounds[..|h.rounds|-1] == old(h.rounds)
              && if Unusable(reply, w) then h.rounds[|h.rounds|-1] == [Message("user", Repair)]
                 else RoundOf(h.rounds[|h.rounds|-1], t.turns, w.parse(reply.content))
    ensures Climbs(old(t.toolCallCount), t.toolCallCount, b.maxToolCalls)
    ensures ending.Some? ==> Closed(ending.value, b, t, c, w) && Recorded(ending.value, t.budget.stopReason)
    ensures t.budget.transportRetries == old(t.budget).transportRetries
    ensures t.budget.formatRepairs == old(t.budget).formatRepairs
            || (t.budget.formatRepairs == old(t.budget).formatRepairs + 1 <= MAX_REPAIRS)
  {
    hide Collector.Valid, Onward, Orderly, RoundOf;
    OnwardFromItself(StandingOf(c));
    progress := false;
    assert t.rounds == t.rounds[|t.rounds|-1 := t.rounds[|t.rounds|-1].(progress := false)];
    if t.inputTokens + t.outputTokens > b.maxTokens {
      t.Stop("token_limit");
      return Some(Stopped("token_limit")), progress;
    }
    if reply.error.Some? && reply.error.value != InvalidResponse {
      t.budget := t.budget.(stopReason := "model_error");
      return Some(ModelError(reply.error.value)), progress;
    }
    var wire := w.parse(reply.content);
    if reply.error.Some? || |wire| == 0 {
      ending := AskForRepair(h, b, t);
    } else {
      ending, progress := RunReply(h, c, b, t, final, wire, w);
    }
  }

  /** The counters of a trace. */
  datatype Meter = Meter(rounds: seq<RoundTrace>, turns: int, input: nat, output: nat, calls: int, repairs: nat, retries: nat)

  function MeterOf(t: Trace): Meter
    reads t
  {
    Meter(t.rounds, t.turns, t.inputTokens, t.outputTokens, t.toolCallCount, t.budget.formatRepairs, t.budget.transportRetries)
  }

  /** The counters after one more round. */
  predicate Made(was: Meter, now: Meter, r: RoundTrace) {
    && now.rounds == was.rounds + [r] && now.turns == r.turn == was.turns + 1
    && now.input == was.input + r.input && now.output == was.output + r.output
    && now.retries == was.retries + Positive(r.attempts - 1)
    && (now.repairs == was.repairs || now.repairs == was.repairs + 1 <= MAX_REPAIRS)
  }

  /** What a turn changes, by value. */
  datatype Moment = Moment(meter: Meter, standing: Standing, rounds: seq<Round>, noProgress: nat)

  function MomentOf(h: Conversation, c: Collector, t: Trace): Moment
    reads h, c, t
  {
    Moment(MeterOf(t), StandingOf(c), h.rounds, h.noProgress)
  }

  datatype Move = Move(ending: Option<Ending>, final: bool, made: Option<RoundTrace>, sent: Option<Sent>)

  /** No call was made: only the budget diagnostics and the rounds held may differ. */
  ghost predicate Halted(was: Moment, now: Moment, x: Move) {
    x.made.None? && x.ending.Some? && x.sent.None? && now.meter == was.meter && now.standing == was.standing
  }

  /** A call was made, charged, and sent from the rounds held before. */
  ghost predicate Called(w: World, b: Budget, attempts: nat, attempted: bool, was: Moment, now: Moment, x: Move) {
    && x.made.Some? && x.sent.Some? && SentFrom(x.sent.value, was.rounds)
    && RoundMade(w, b, attempts, attempted, was.meter.input + was.meter.output, x.final, x.made.value)
    && Made(was.meter, now.meter, x.made.value)
    && (now.meter.input + now.meter.output > b.maxTokens ==> x.ending == Some(Stopped("token_limit")))
  }

  /** The run goes on: the turn added one whole round to some of those held, and
      without progress the collector is as it was. */
  ghost predicate Continues(w: World, was: Moment, now: Moment, x: Move) {
    && x.made.Some? && Orderly(now.rounds, now.meter.turns)
    && now.noProgress == (if x.made.value.progress then 0 else was.noProgress + 1)
    && (x.made.value.progress || now.standing == was.standing)
    && now.rounds != [] && IsSuffix(now.rounds[..|now.rounds|-1], was.rounds)
    && (var last, reply := now.rounds[|now.rounds|-1], w.reply(was.meter.turns);
        if Unusable(reply, w) then last == [Message("user", Repair)] else RoundOf(last, now.meter.turns, w.parse(reply.content)))
  }

  /** Which stops belong to a turn, and which of them to a turn without a call. */
  predicate StopsInTurn(e: Ending, final: bool, called: bool) {
    && (e == Completed ==> called)
    && (e.Stopped? ==>
          && e.reason != "turn_limit" && (e.reason == "no_progress" ==> !called)
          && (e.reason in {"context_limit", "next_request"} ==> final))
  }

  ghost predicate TurnTaken(w: World, b: Budget, attempts: nat, attempted: bool, was: Moment, now: Moment, x: Move) {
    && Onward(was.standing, now.standing) && Climbs(was.meter.calls, now.meter.calls, b.maxToolCalls)
    && (Halted(was, now, x) || Called(w, b, attempts, attempted, was, now, x))
    && (if x.ending.Some? then StopsInTurn(x.ending.value, x.final, x.made.Some?) else Continues(w, was, now, x))
  }

  /** The counters after the call's reply was answered. */
  predicate AfterAnswer(mid: Meter, now: Meter, progress: bool) {
    && mid.rounds != []
    && now == mid.(rounds := mid.rounds[|mid.rounds|-1 := mid.rounds[|mid.rounds|-1].(progress := progress)],
                   calls := now.calls, repairs := now.repairs)
    && (now.repairs == mid.repairs || now.repairs == mid.repairs + 1 <= MAX_REPAIRS)
  }

  lemma AnsweredIsCalled(w: World, b: Budget, attempts: nat, attempted: bool, was: Moment, mid: Moment, now: Moment,
                         r: RoundTrace, progress: bool, x: Move)
    requires x.made == Some(r.(progress := progress)) && x.sent.Some? && SentFrom(x.sent.value, was.rounds)
    requires RoundMade(w, b, attempts, attempted, was.meter.input + was.meter.output, x.final, r)
    requires Made(was.meter, mid.meter, r) && mid.meter.repairs == was.meter.repairs
    requires AfterAnswer(mid.meter, now.meter, progress)
    requires now.meter.input + now.meter.output > b.maxTokens ==> x.ending == Some(Stopped("token_limit"))
    ensures Called(w, b, attempts, attempted, was, now, x)
  {
    hide RoundMade, SentFrom;
    ProgressKeepsRound(w, b, attempts, attempted, was.meter.input + was.meter.output, x.final, r, progress);
    assert (was.meter.rounds + [r])[|was.meter.rounds| := r.(progress := progress)] ==
           was.meter.rounds + [r.(progress := progress)];
  }

  /** A call and what follows it, or a stop because no call is affordable. */
  method Exchange(h: Conversation, counter: Counter, c: Collector, b: Budget, t: Trace, attempts: nat, wasFinal: bool,
                  attempted: bool, w: World)
      returns (ending: Option<Ending>, final: bool, made: Option<RoundTrace>, ghost sent: Option<Sent>)
    requires counter.Valid() && counter.text == w.text && c.Valid() && attempts > 0 && b.maxTokens > t.Spent()
    requires Orderly(h.rounds, t.turns)
    modifies h, counter, c`profile, c`matches, c`done, c`failed, t
    ensures counter.Valid() && c.Valid() && (wasFinal ==> final)
    ensures TurnTaken(w, b, attempts, attempted, old(MomentOf(h, c, t)), MomentOf(h, c, t), Move(ending, final, made, sent))
    ensures ending.Some? ==> Recorded(ending.value, t.budget.stopReason)
    ensures ending.Some? ==> Justified(ending.value, b, t, c, attempts, old(h.noProgress), w)
  {
    hide Collector.Valid, Onward, Sends, Orderly, RoundMade, MustFinalize, IsSuffix, RoundOf, Unusable, SentFrom;
    hide GoodRound, Justified, Closed, Available, MinimumOutput, Called, Climbs;
    made, sent := None, None;
    OnwardFromItself(StandingOf(c));
    ghost var was := MomentOf(h, c, t);
    var reply;
    ghost var message;
    final, reply, made, message := Call(h, counter, c, b, t, attempts, wasFinal, attempted, w);
    ClimbsNot(t.toolCallCount, b.maxToolCalls);
    if made.None? {
      StopIsJustified(t.budget.stopReason, b, t, c, attempts, h.noProgress, w);
      ending := Some(Stopped(t.budget.stopReason));
      return;
    }
    SuffixKeepsOrder(h.rounds, was.rounds, was.meter.turns, t.turns);
    sent := Some(message);
    ghost var mid, r := MomentOf(h, c, t), made.value;
    var progress;
    ending, progress := Answer(h, c, b, t, final, reply, w);
    if ending.Some? { ClosedIsJustified(ending.value, b, t, c, attempts, was.noProgress, w); }
    made := Some(made.value.(progress := progress));
    AnsweredIsCalled(w, b, attempts, attempted, was, mid, MomentOf(h, c, t), r, progress, Move(ending, final, made, sent));
  }

  lemma ClimbsNot(n: int, limit: int)
    ensures Climbs(n, n, limit)
  {
  }

  /** One iteration: either it stops before any call, leaving everything but the
      budget diagnostics and dropped rounds as it was, or it makes exactly one. */
  method Turn(h: Conversation, counter: Counter, c: Collector, b: Budget, t: Trace, attempts: nat, wasFinal: bool,
              attempted: bool, w: World)
      returns (ending: Option<Ending>, final: bool, made: Option<RoundTrace>, ghost sent: Option<Sent>)
    requires counter.Valid() && counter.text == w.text && c.Valid() && attempts > 0 && t.turns < b.maxTurns
    requires Orderly(h.rounds, t.turns)
    modifies h, counter, c`profile, c`matches, c`done, c`failed, t
    ensures counter.Valid() && c.Valid() && (wasFinal ==> final)
    ensures TurnTaken(w, b, attempts, attempted, old(MomentOf(h, c, t)), MomentOf(h, c, t), Move(ending, final, made, sent))
    ensures ending.Some? ==> Recorded(ending.value, t.budget.stopReason)
    ensures ending.Some? ==> Justified(ending.value, b, t, c, attempts, old(h.noProgress), w)
    ensures made.Some? ==> old(h.noProgress) < 3
    ensures made.Some? && MustFinalize(b, old(t.turns), old(t.toolCallCount), old(h.noProgress)) ==> final
    ensures made.Some? && w.late(old(t.turns)) ==> final
  {
    hide Collector.Valid, Onward, Called, Continues, Orderly, MustFinalize, Justified;
    made, sent := None, None;
    OnwardFromItself(StandingOf(c));
    ending, final := Gate(h, c, b, t, attempts, wasFinal, w);
    if ending.Some? { return; }
    assert MomentOf(h, c, t) == old(MomentOf(h, c, t));
    ending, final, made, sent := Exchange(h, counter, c, b, t, attempts, final, attempted, w);
  }

  lemma SuffixKeepsOrder(a: seq<Round>, b: seq<Round>, turn: int, later: int)
    requires IsSuffix(a, b) && Orderly(b, turn) && turn <= later
    ensures Orderly(a, turn) && Orderly(a, later)
  {
    var k :| 0 <= k <= |b| && b[k..] == a;
    SuffixIsOrderly(b, turn, k);
  }

  lemma ProgressKeepsRound(w: World, b: Budget, attempts: nat, attempted: bool, spent: nat, final: bool,
                           r: RoundTrace, progress: bool)
    requires RoundMade(w, b, attempts, attempted, spent, final, r)
    ensures RoundMade(w, b, attempts, attempted, spent, final, r.(progress := progress))
  {
  }

  // ---------------------------------------------------------------- the whole run

  predicate HasFinal(rounds: seq<RoundTrace>) { exists i | 0 <= i < |rounds| :: rounds[i].phase == Finalize }

  /** What the rounds of a run add up to, from what had been spent before it. */
  predicate Record(w: World, b: Budget, attempts: nat, spent: nat, turns: int, rounds: seq<RoundTrace>) {
    && Ledger(b, attempts, spent, rounds) && Numbered(rounds, turns) && Latched(rounds) && Lively(rounds)
    && (forall i | 0 <= i < |rounds| :: FromReply(w, rounds[i]))
  }

  lemma StallGrows(rounds: seq<RoundTrace>, r: RoundTrace)
    ensures Stall(rounds + [r]) == if r.progress then 0 else Stall(rounds) + 1
  {
    assert (rounds + [r])[..|rounds|] == rounds;
  }

  lemma LivelyGrows(rounds: seq<RoundTrace>, r: RoundTrace)
    requires Lively(rounds) && Stall(rounds) < 3
    ensures Lively(rounds + [r])
  {
    hide Stall;
    var more := rounds + [r];
    forall i | 0 <= i < |more| ensures Stall(more[..i]) <= 2 {
      assert more[..i] == rounds[..i];
      if i == |rounds| { assert rounds[..i] == rounds; }
    }
  }

  lemma LatchGrows(rounds: seq<RoundTrace>, r: RoundTrace, final: bool, attempted: bool)
    requires Latched(rounds) && r.phase == (if final then Finalize else Analysis)
    requires final && r.reserved > 0 ==> !attempted
    requires HasFinal(rounds) ==> final && attempted
    ensures Latched(rounds + [r]) && (HasFinal(rounds + [r]) <==> HasFinal(rounds) || final)
  {
    var more := rounds + [r];
    if HasFinal(rounds) {
      var i :| 0 <= i < |rounds| && rounds[i].phase == Finalize;
      assert more[i].phase == Finalize;
    }
    if final { assert more[|rounds|].phase == Finalize; }
  }

  lemma RecordGrows(w: World, b: Budget, attempts: nat, spent: nat, turns: int, rounds: seq<RoundTrace>, r: RoundTrace,
                    final: bool, attempted: bool)
    requires Record(w, b, attempts, spent, turns, rounds) && Stall(rounds) < 3 && r.turn == turns + |rounds| + 1
    requires RoundMade(w, b, attempts, attempted, spent + SpentOn(rounds), final, r)
    requires HasFinal(rounds) ==> final && attempted
    ensures Record(w, b, attempts, spent, turns, rounds + [r])
    ensures Stall(rounds + [r]) == if r.progress then 0 else Stall(rounds) + 1
    ensures HasFinal(rounds + [r]) <==> HasFinal(rounds) || final
  {
    hide RoundFits, FromReply, HasFinal, Latched, Lively, Stall;
    assert (rounds + [r])[..|rounds|] == rounds;
    LivelyGrows(rounds, r);
    StallGrows(rounds, r);
    LatchGrows(rounds, r, final, attempted);
  }

  /** A successful run is a complete assessment: a profile, a match for every job, and
      evidence that verifies, all within the budget. */
  ghost predicate Complete(c: Collector, b: Budget, t: Trace)
    reads c, t
  {
    && c.done && !c.failed && c.profile.Some? && c.matches.Keys == c.jobs.Keys && t.Spent() <= b.maxTokens
    && GoodProfile(c.lines, c.tagCatalog, c.profile.value) && GoodMatches(c.jobs, c.lines, c.Incomplete(), c.matches)
  }

  /** The counters are those at the start plus the rounds since, and within the
      limits if they were. */
  predicate Sums(w: World, b: Budget, attempts: nat, from: Meter, now: Meter, rounds: seq<RoundTrace>) {
    && Record(w, b, attempts, from.input + from.output, from.turns, rounds)
    && now.rounds == from.rounds + rounds && now.turns == from.turns + |rounds|
    && now.input == from.input + InputOfAll(rounds) && now.output == from.output + OutputOfAll(rounds)
    && now.retries == from.retries + RetriesOf(rounds)
    && (now.repairs <= MAX_REPAIRS || now.repairs == from.repairs)
    && Climbs(from.turns, now.turns, b.maxTurns) && Climbs(from.calls, now.calls, b.maxToolCalls)
  }

  lemma SumsGrow(w: World, b: Budget, attempts: nat, from: Meter, was: Meter, now: Meter, rounds: seq<RoundTrace>,
                 made: Option<RoundTrace>, final: bool, attempted: bool)
    requires Sums(w, b, attempts, from, was, rounds) && was.turns < b.maxTurns
    requires Climbs(was.calls, now.calls, b.maxToolCalls)
    requires if made.Some? then Made(was, now, made.value) else now == was
    requires made.Some? ==> RoundMade(w, b, attempts, attempted, was.input + was.output, final, made.value)
    requires made.Some? ==> Stall(rounds) < 3
    requires HasFinal(rounds) ==> final && attempted
    ensures Sums(w, b, attempts, from, now, if made.Some? then rounds + [made.value] else rounds)
    ensures made.Some? ==> Stall(rounds + [made.value]) == if made.value.progress then 0 else Stall(rounds) + 1
    ensures made.Some? && HasFinal(rounds + [made.value]) ==> final
  {
    hide RoundMade, Record, HasFinal, Stall;
    if made.Some? {
      RecordGrows(w, b, attempts, from.input + from.output, from.turns, rounds, made.value, final, attempted);
      assert (rounds + [made.value])[..|rounds|] == rounds;
      assert from.rounds + rounds + [made.value] == from.rounds + (rounds + [made.value]);
    }
  }

  /** Only a stall depends on how many rounds brought no progress. */
  lemma StallAside(e: Ending, b: Budget, t: Trace, c: Collector, attempts: nat, stall: nat, other: nat, w: World)
    requires attempts > 0 && Justified(e, b, t, c, attempts, stall, w)
    requires e.Stopped? && e.reason == "no_progress" ==> stall == other
    ensures Justified(e, b, t, c, attempts, other, w)
  {
  }

  lemma TurnLimitIsJustified(b: Budget, t: Trace, c: Collector, attempts: nat, stall: nat, w: World)
    requires attempts > 0 && t.turns >= b.maxTurns
    ensures Justified(Stopped("turn_limit"), b, t, c, attempts, stall, w)
  {
  }

  /** Where a run starts: the trace so far, with fresh diagnostics. */
  function StartOf(t: Trace): Meter
    reads t
  {
    MeterOf(t).(repairs := 0, retries := 0)
  }

  /** Every round of the run, in order, and every list of messages sent: list i was
      sent when i rounds had been held, and replays the last of those, whole. */
  ghost predicate History(all: seq<Round>, sent: seq<Sent>, turn: int) {
    && Orderly(all, turn) && |sent| <= |all| + 1
    && forall i | 0 <= i < |sent| :: SentAt(all, sent, i)
  }

  ghost predicate SentAt(all: seq<Round>, sent: seq<Sent>, i: int)
    requires 0 <= i < |sent|
  {
    i <= |all| && SentFrom(sent[i], all[..i])
  }

  lemma HistorySends(all: seq<Round>, sent: seq<Sent>, turn: int, held: seq<Round>, x: Sent)
    requires History(all, sent, turn) && |sent| == |all| && IsSuffix(held, all) && SentFrom(x, held)
    ensures History(all, sent + [x], turn)
  {
    SuffixOfSuffix(x.rounds, held, all);
    assert all[..|all|] == all;
    forall i | 0 <= i < |sent + [x]| ensures SentAt(all, sent + [x], i) {
      if i < |sent| { assert SentAt(all, sent, i); }
    }
  }

  lemma LaterIsOrderly(all: seq<Round>, turn: int, later: int)
    requires Orderly(all, turn) && turn <= later
    ensures Orderly(all, later)
  {
  }

  lemma HistoryLater(all: seq<Round>, sent: seq<Sent>, turn: int, later: int)
    requires History(all, sent, turn) && turn <= later
    ensures History(all, sent, later)
  {
    hide SentAt;
    LaterIsOrderly(all, turn, later);
  }

  lemma OrderGrows(all: seq<Round>, r: Round, turn: int)
    requires Orderly(all, turn) && GoodRound(r) && (IsCall(r) ==> TurnOf(r) == turn + 1)
    ensures Orderly(all + [r], turn + 1)
  {
  }

  lemma HistoryGrows(all: seq<Round>, sent: seq<Sent>, turn: int, r: Round)
    requires History(all, sent, turn) && GoodRound(r) && (IsCall(r) ==> TurnOf(r) == turn + 1)
    ensures History(all + [r], sent, turn + 1)
  {
    OrderGrows(all, r, turn);
    forall i | 0 <= i < |sent| ensures SentAt(all + [r], sent, i) {
      assert SentAt(all, sent, i);
      if i <= |all| { assert (all + [r])[..i] == all[..i]; }
    }
  }

  lemma SuffixExtends(a: seq<Round>, b: seq<Round>, r: Round)
    requires IsSuffix(a, b)
    ensures IsSuffix(a + [r], b + [r])
  {
    var k :| 0 <= k <= |b| && b[k..] == a;
    assert (b + [r])[k..] == b[k..] + [r];
  }

  lemma SuffixGrows(all: seq<Round>, held: seq<Round>, now: seq<Round>)
    requires IsSuffix(held, all) && now != [] && IsSuffix(now[..|now|-1], held)
    ensures IsSuffix(now, all + [now[|now|-1]])
  {
    var kept, r := now[..|now|-1], now[|now|-1];
    SuffixOfSuffix(kept, held, all);
    SuffixExtends(kept, all, r);
    assert now == kept + [r];
  }

  lemma LastRoundIsNew(w: World, was: Moment, now: Moment, x: Move)
    requires Continues(w, was, now, x) && now.meter.turns == was.meter.turns + 1
    ensures now.rounds != [] && GoodRound(now.rounds[|now.rounds|-1])
    ensures IsCall(now.rounds[|now.rounds|-1]) ==> TurnOf(now.rounds[|now.rounds|-1]) == was.meter.turns + 1
  {
  }

  /** What a turn adds to the history of its run. */
  lemma TurnExtendsHistory(w: World, b: Budget, attempts: nat, attempted: bool, was: Moment, now: Moment, x: Move,
                           all: seq<Round>, sent: seq<Sent>)
    requires TurnTaken(w, b, attempts, attempted, was, now, x)
    requires IsSuffix(was.rounds, all) && History(all, sent, was.meter.turns) && |sent| == |all|
    ensures var sent' := if x.sent.Some? then sent + [x.sent.value] else sent;
      && History(all, sent', now.meter.turns)
      && (x.ending.None? ==>
            && now.rounds != [] && |sent'| == |all| + 1
            && IsSuffix(now.rounds, all + [now.rounds[|now.rounds|-1]])
            && History(all + [now.rounds[|now.rounds|-1]], sent', now.meter.turns))
  {
    hide History, SentFrom, IsSuffix, Orderly, GoodRound, RoundMade, RoundOf, Unusable, Onward, IsCall;
    if x.sent.Some? {
      HistorySends(all, sent, was.meter.turns, was.rounds, x.sent.value);
      HistoryLater(all, sent + [x.sent.value], was.meter.turns, now.meter.turns);
      if x.ending.None? {
        var r := now.rounds[|now.rounds|-1];
        LastRoundIsNew(w, was, now, x);
        HistoryGrows(all, sent + [x.sent.value], was.meter.turns, r);
        SuffixGrows(all, was.rounds, now.rounds);
      }
    }
  }

  /** Identifiers are unique over the run: two calls with one identifier, in any lists
      sent at any turns, are the same call of the same round, compaction or not. */
  lemma IdsAreUniqueOverTheRun(all: seq<Round>, sent: seq<Sent>, turn: int, i: nat, j: nat, x: nat, y: nat,
                               p: nat, q: nat)
    requires History(all, sent, turn) && i < |sent| && j < |sent| && x < |sent[i].rounds| && y < |sent[j].rounds|
    requires IsCall(sent[i].rounds[x]) && p < |sent[i].rounds[x][0].content.calls|
    requires IsCall(sent[j].rounds[y]) && q < |sent[j].rounds[y][0].content.calls|
    requires sent[i].rounds[x][0].content.calls[p].id == sent[j].rounds[y][0].content.calls[q].id
    ensures p == q && sent[i].rounds[x] == sent[j].rounds[y]
  {
    var k := PlaceInRun(all, sent, turn, i, x);
    var l := PlaceInRun(all, sent, turn, j, y);
    IdsAreUnique(all, turn, k, l, p, q);
  }

  lemma PlaceInRun(all: seq<Round>, sent: seq<Sent>, turn: int, i: nat, x: nat) returns (k: nat)
    requires History(all, sent, turn) && i < |sent| && x < |sent[i].rounds|
    ensures k < |all| && all[k] == sent[i].rounds[x] && k == i - |sent[i].rounds| + x
  {
    hide Orderly, Sends;
    assert SentAt(all, sent, i);
    var from :| 0 <= from <= |all[..i]| && all[..i][from..] == sent[i].rounds;
    k := from + x;
  }

  /** `retries` is the configured retry count of an HTTP client; other clients try once. */
  method RunCandidate(retries: Option<int>, c: Collector, budget: Budget, t: Trace, w: World)
      returns (ending: Ending, rounds: seq<RoundTrace>, ghost all: seq<Round>, ghost sent: seq<Sent>)
    requires c.Valid()
    modifies c`profile, c`matches, c`done, c`failed, t
    ensures c.Valid() && Onward(old(StandingOf(c)), StandingOf(c))
    ensures Sums(w, Effective(budget), AttemptsOf(retries), old(StartOf(t)), MeterOf(t), rounds)
    ensures Recorded(ending, t.budget.stopReason)
    ensures Justified(ending, Effective(budget), t, c, AttemptsOf(retries), Stall(rounds), w)
    ensures ending == Completed ==> Complete(c, budget, t)
    ensures History(all, sent, t.turns) && |sent| == |rounds|
  {
    hide Collector.Valid, Onward, Sums, History, Orderly, Complete;
    var b := t.InitBudget(budget);
    var counter: Counter := new TokenCounter(w.text);
    var h := new Conversation();
    NothingYet(w, b, AttemptsOf(retries), MeterOf(t));
    ending, rounds, all, sent := Loop(h, counter, c, b, t, if retries.Some? then MaxAttempts(retries.value) else 1, w);
    if ending == Completed { CompletedIsComplete(c, budget, t); }
  }

  method Loop(h: Conversation, counter: Counter, c: Collector, b: Budget, t: Trace, attempts: nat, w: World)
      returns (ending: Ending, rounds: seq<RoundTrace>, ghost all: seq<Round>, ghost sent: seq<Sent>)
    requires counter.Valid() && counter.text == w.text && c.Valid() && attempts > 0
    requires h.rounds == [] && h.noProgress == 0
    requires Sums(w, b, attempts, MeterOf(t), MeterOf(t), [])
    modifies h, counter, c`profile, c`matches, c`done, c`failed, t
    ensures c.Valid() && Onward(old(StandingOf(c)), StandingOf(c))
    ensures Sums(w, b, attempts, old(MeterOf(t)), MeterOf(t), rounds)
    ensures Recorded(ending, t.budget.stopReason)
    ensures Justified(ending, b, t, c, attempts, Stall(rounds), w)
    ensures ending == Completed ==> t.Spent() <= b.maxTokens
    ensures History(all, sent, t.turns) && |sent| == |rounds|
  {
    hide Collector.Valid, Onward, Sums, RoundMade, History, Orderly, HasFinal, Made, MustFinalize, Justified;
    hide RoundOf, Unusable, IsSuffix, SentFrom, Stall, Recorded;
    ghost var from := MeterOf(t);
    var final, attempted := false, false;
    rounds, all, sent := [], [], [];
    OnwardFromItself(StandingOf(c));
    NoRoundsYet(t.turns);
    while t.turns < b.maxTurns
      invariant counter.Valid() && c.Valid() && Onward(old(StandingOf(c)), StandingOf(c))
      invariant Sums(w, b, attempts, from, MeterOf(t), rounds)
      invariant Orderly(h.rounds, t.turns) && h.noProgress == Stall(rounds)
      invariant HasFinal(rounds) ==> final && attempted
      invariant IsSuffix(h.rounds, all) && History(all, sent, t.turns) && |sent| == |all| == |rounds|
      decreases b.maxTurns - t.turns
    {
      ghost var was, stall, before := MomentOf(h, c, t), Stall(rounds), attempted;
      var stopped, made;
      ghost var message;
      stopped, final, made, message := Turn(h, counter, c, b, t, attempts, final, attempted, w);
      ghost var now, move := MomentOf(h, c, t), Move(stopped, final, made, message);
      OnwardComposes(old(StandingOf(c)), was.standing, now.standing);
      TurnExtendsHistory(w, b, attempts, before, was, now, move, all, sent);
      SumsGrow(w, b, attempts, from, was.meter, now.meter, rounds, made, final, before);
      if message.Some? { sent := sent + [message.value]; }
      if made.Some? {
        OneTurnOn(was.meter, now.meter, made.value);
        rounds := rounds + [made.value];
        attempted := attempted || final;
      }
      if stopped.Some? {
        StallAside(stopped.value, b, t, c, attempts, stall, Stall(rounds), w);
        return stopped.value, rounds, all, sent;
      }
      all := all + [h.rounds[|h.rounds|-1]];
    }
    t.Stop("turn_limit");
    TurnLimitIsJustified(b, t, c, attempts, Stall(rounds), w);
    ending := Stopped("turn_limit");
    assert Recorded(ending, t.budget.stopReason) by { TurnLimitIsRecorded(); }
  }

  lemma OneTurnOn(was: Meter, now: Meter, r: RoundTrace)
    requires Made(was, now, r)
    ensures now.turns == was.turns + 1
  {
  }

  lemma TurnLimitIsRecorded()
    ensures Recorded(Stopped("turn_limit"), "turn_limit")
  {
  }

  lemma NoRoundsYet(turn: int)
    ensures !HasFinal([]) && Stall([]) == 0 && Orderly([], turn) && IsSuffix([], []) && History([], [], turn)
  {
    SuffixOfItself([]);
  }

  /** A reply charged no more than its attempts' estimates and caps.  A reply is
      measured here only if the provider did not report its output. */
  predicate WellBehaved(w: World, attempts: nat, r: RoundTrace) {
    var u, measured := w.reply(r.turn - 1).usage, Measured(w.text, w.reply(r.turn - 1).content);
    && (u.attempts > 0 ==> u.attempts <= attempts && Modest(u, r.estimated, r.outputLimit))
    && (u.attempts == 0 ==>
          u.unknownInput == 0 && u.input <= r.estimated && u.unknownOutput == 0 && u.output <= r.outputLimit)
    && (!OutputKnown(u) && measured.Some? ==> measured.value <= r.outputLimit)
  }

  lemma WellBehavedIsNotExcessive(w: World, attempts: nat, r: RoundTrace)
    requires attempts > 0 && FromReply(w, r) && WellBehaved(w, attempts, r)
    ensures !Excessive(attempts, r)
  {
    var u, measured := w.reply(r.turn - 1).usage, Measured(w.text, w.reply(r.turn - 1).content);
    ChargesFit(u, r.estimated, if OutputKnown(u) then None else measured, r.outputLimit);
    var n := Transports(u);
    Monotone(r.estimated, n, attempts);
    Monotone(r.outputLimit, n, attempts);
    if u.attempts == 0 {
      Monotone(r.estimated, 1, attempts);
      Monotone(r.outputLimit, 1, attempts);
    }
  }

  /** The usage of the reply is that of attempts each of which kept to the round's
      estimate and cap; what came back unreported is itself within the cap. */
  ghost predicate EachAttemptKept(w: World, attempts: nat, r: RoundTrace, script: nat -> Attempt) {
    var u, measured := w.reply(r.turn - 1).usage, Measured(w.text, w.reply(r.turn - 1).content);
    && 1 <= u.attempts <= attempts && Totals(u, script, u.attempts)
    && (forall k: nat | k < u.attempts :: Within(script(k), r.estimated, r.outputLimit))
    && (!OutputKnown(u) && measured.Some? ==> measured.value <= r.outputLimit)
  }

  lemma EachAttemptIsWellBehaved(w: World, attempts: nat, r: RoundTrace, script: nat -> Attempt)
    requires EachAttemptKept(w, attempts, r, script)
    ensures WellBehaved(w, attempts, r)
  {
    var u := w.reply(r.turn - 1).usage;
    WithinIsModest(u, script, u.attempts, r.estimated, r.outputLimit);
  }

  lemma WellBehavedKeepsTheReserve(w: World, b: Budget, attempts: nat, spent: nat, turns: int,
                                   rounds: seq<RoundTrace>, i: nat)
    requires attempts > 0 && Record(w, b, attempts, spent, turns, rounds) && i < |rounds|
    requires WellBehaved(w, attempts, rounds[i])
    ensures spent + SpentOn(rounds[..i+1]) + rounds[i].reserved <= b.maxTokens
  {
    WellBehavedIsNotExcessive(w, attempts, rounds[i]);
    ReserveRemains(b, attempts, spent, rounds, i);
  }

  /** If each attempt of a call keeps to its estimate and cap, retries and unreported
      usage included, then after its round the total is not overrun and the reserve of
      that round is still there. */
  lemma TheBudgetHolds(w: World, b: Budget, attempts: nat, spent: nat, turns: int, rounds: seq<RoundTrace>, i: nat,
                       script: nat -> Attempt)
    requires attempts > 0 && Record(w, b, attempts, spent, turns, rounds) && i < |rounds|
    requires EachAttemptKept(w, attempts, rounds[i], script)
    ensures spent + SpentOn(rounds[..i+1]) + rounds[i].reserved <= b.maxTokens
  {
    EachAttemptIsWellBehaved(w, attempts, rounds[i], script);
    WellBehavedKeepsTheReserve(w, b, attempts, spent, turns, rounds, i);
  }

  /** So the overrun stop is not reached: a run that ends for want of tokens after a
      call has a last round whose attempts did not keep to their estimate and cap. */
  lemma OverrunHasAnExcessiveRound(w: World, b: Budget, attempts: nat, from: Meter, now: Meter, rounds: seq<RoundTrace>,
                                   script: nat -> Attempt)
    requires attempts > 0 && Sums(w, b, attempts, from, now, rounds) && rounds != []
    requires now.input + now.output > b.maxTokens
    ensures !EachAttemptKept(w, attempts, rounds[|rounds|-1], script)
  {
    assert rounds[..|rounds|] == rounds;
    if EachAttemptKept(w, attempts, rounds[|rounds|-1], script) {
      TheBudgetHolds(w, b, attempts, from.input + from.output, from.turns, rounds, |rounds| - 1, script);
    }
  }

  function Effective(b: Budget): Budget {
    b.(maxContextTokens := if b.maxContextTokens == 0 then DEFAULT_CONTEXT else b.maxContextTokens)
  }

  function AttemptsOf(retries: Option<int>): (n: nat)
    ensures 1 <= n <= 6
  {
    if retries.Some? then MaxAttempts(retries.value) else 1
  }

  lemma NothingYet(w: World, b: Budget, attempts: nat, now: Meter)
    ensures Sums(w, b, attempts, now, now, [])
  {
  }

  lemma CompletedIsComplete(c: Collector, b: Budget, t: Trace)
    requires c.Valid() && c.done && !c.failed && t.Spent() <= b.maxTokens
    ensures Complete(c, b, t)
  {
  }
}
