/** The budget of an agent loop: what a call may cost, what a call did cost, and the
    ledger the rounds of a run add up to. */
module LoopBudget {
  import opened Wrappers
  import opened ModelTokens
  import opened ModelClient

  datatype Budget = Budget(maxTurns: int, maxToolCalls: int, maxTokens: int, maxContextTokens: int)

  datatype Phase = Analysis | Finalize
  datatype Source = Reported | Estimated | Mixed

  datatype RoundTrace = RoundTrace(turn: int, phase: Phase, estimated: nat, input: nat, output: nat, outputLimit: nat,
                                   remaining: nat, reserved: nat, source: Source, attempts: nat, progress: bool,
                                   compacted: bool)

  datatype ToolTrace = ToolTrace(name: string, ok: bool, repeated: bool)

  datatype BudgetTrace = BudgetTrace(maxTokens: int, maxContextTokens: int, maxTurns: int, maxToolCalls: int,
                                     remaining: nat, nextInput: nat, reserved: nat, stopReason: string, source: Source,
                                     formatRepairs: nat, transportRetries: nat)

  const DEFAULT_CONTEXT := 32768
  const OUTPUT_CAP := 8192
  const FULL_OUTPUT := 1024
  const SMALL_OUTPUT := 128
  const SUBMISSION := 4096

  function Positive(n: int): nat { if n > 0 then n else 0 }
  function Min(a: int, b: int): int { if a < b then a else b }

  /** Integer division as in Go, towards zero. */
  function Quotient(a: int, b: int): int
    requires b > 0
  {
    if a >= 0 then a / b else -((-a) / b)
  }

  class Trace {
    var turns: int
    var toolCallCount: int
    var inputTokens: nat
    var outputTokens: nat
    var toolCalls: seq<ToolTrace>
    var rounds: seq<RoundTrace>
    var budget: BudgetTrace

    constructor ()
      ensures turns == toolCallCount == 0 && inputTokens == outputTokens == 0 && toolCalls == [] && rounds == []
    {
      turns, toolCallCount, inputTokens, outputTokens, toolCalls, rounds := 0, 0, 0, 0, [], [];
    }

    function Spent(): nat
      reads this
    {
      inputTokens + outputTokens
    }

    /** Fills in the default context size and opens fresh budget diagnostics. */
    method InitBudget(b: Budget) returns (r: Budget)
      modifies this`budget
      ensures r == b.(maxContextTokens := if b.maxContextTokens == 0 then DEFAULT_CONTEXT else b.maxContextTokens)
      ensures budget == BudgetTrace(b.maxTokens, r.maxContextTokens, b.maxTurns, b.maxToolCalls,
                                    Positive(b.maxTokens - Spent()), 0, 0, "", Estimated, 0, 0)
    {
      r := b;
      if r.maxContextTokens == 0 { r := r.(maxContextTokens := DEFAULT_CONTEXT); }
      budget := BudgetTrace(r.maxTokens, r.maxContextTokens, r.maxTurns, r.maxToolCalls,
                            Positive(r.maxTokens - inputTokens - outputTokens), 0, 0, "", Estimated, 0, 0);
    }

    method Stop(reason: string)
      modifies this`budget
      ensures budget == old(budget).(stopReason := reason)
    {
      budget := budget.(stopReason := reason);
    }
  }

  // ---------------------------------------------------------------- what a call may cost

  datatype Plan = Plan(estimated: nat, reserve: nat, limit: nat)

  /** Every attempt of the call fits, input and full output, and the reserve stays. */
  predicate Affordable(b: Budget, remaining: int, attempts: nat, p: Plan) {
    && attempts * (p.estimated + p.limit) + p.reserve <= remaining
    && p.estimated + p.limit <= b.maxContextTokens && p.limit <= OUTPUT_CAP
  }

  /** What would be left to one attempt's output. */
  function Available(b: Budget, remaining: int, reserve: int, attempts: nat, estimated: nat): int
    requires attempts > 0
  {
    Min(Quotient(remaining - reserve, attempts) - estimated, b.maxContextTokens - estimated)
  }

  lemma QuotientBounds(n: int, a: nat, m: nat)
    requires a > 0
    ensures n >= 0 ==> a * Quotient(n, a) <= n
    ensures n >= m * a ==> Quotient(n, a) >= m
  {
    if n >= m * a && n >= 0 { Euclid(n, a, m); }
  }

  lemma Euclid(n: nat, a: nat, m: nat)
    requires a > 0 && n >= m * a
    ensures n / a >= m
  {
    if m > n / a { Monotone(a, n / a + 1, m); }
  }

  lemma SpreadOut(a: nat, x: int, y: int)
    ensures a * (x + y) == a * x + a * y && (x + y) * a == a * (x + y)
  {
  }

  /** A plan within what is available is affordable, as long as the reserve itself is
      within what remains. */
  lemma AvailableIsAffordable(b: Budget, remaining: int, reserve: nat, attempts: nat, estimated: nat, limit: nat)
    requires attempts > 0 && reserve <= remaining && limit <= OUTPUT_CAP
    requires limit <= Available(b, remaining, reserve, attempts, estimated)
    ensures Affordable(b, remaining, attempts, Plan(estimated, reserve, limit))
  {
    var q := Quotient(remaining - reserve, attempts);
    QuotientBounds(remaining - reserve, attempts, 0);
    assert attempts * (estimated + limit) <= attempts * q by { Monotone(attempts, estimated + limit, q); }
  }

  lemma Monotone(a: nat, x: int, y: int)
    requires x <= y
    ensures a * x <= a * y && x * a <= y * a
  {
  }

  /** Room for a full output next to the reserve leaves the token side with one. */
  lemma RoomForOutput(remaining: int, reserve: int, attempts: nat, estimated: nat)
    requires attempts > 0 && remaining >= reserve + (estimated + FULL_OUTPUT) * attempts
    ensures Quotient(remaining - reserve, attempts) - estimated >= FULL_OUTPUT
  {
    QuotientBounds(remaining - reserve, attempts, estimated + FULL_OUTPUT);
  }

  /** The reserve kept for one correction after a first final submission. */
  function CorrectionReserve(remaining: int, estimated: nat, attempts: nat): int {
    Min((estimated + SUBMISSION) * attempts, remaining - (estimated + FULL_OUTPUT) * attempts)
  }

  /** It pays for a whole correction, and leaves the submission before it its output. */
  lemma CorrectionIsPaidFor(remaining: int, estimated: nat, attempts: nat)
    requires attempts > 0 && remaining >= 2 * (estimated + FULL_OUTPUT) * attempts
    ensures var reserve := CorrectionReserve(remaining, estimated, attempts);
      && reserve >= (estimated + FULL_OUTPUT) * attempts > 0
      && remaining >= reserve + (estimated + FULL_OUTPUT) * attempts
  {
    var once := (estimated + FULL_OUTPUT) * attempts;
    assert 2 * (estimated + FULL_OUTPUT) * attempts == 2 * once;
    Monotone(attempts, estimated + FULL_OUTPUT, estimated + SUBMISSION);
    Monotone(attempts, 1, estimated + FULL_OUTPUT);
  }

  // ---------------------------------------------------------------- what a call did cost

  predicate InputKnown(u: Usage) { u.inputReported || u.input > 0 }
  predicate OutputKnown(u: Usage) { u.outputReported || u.output > 0 }

  /** A client that counts no attempts made one. */
  function UnknownInput(u: Usage): nat { if u.attempts == 0 && !InputKnown(u) then 1 else u.unknownInput }
  function UnknownOutput(u: Usage): nat { if u.attempts == 0 && !OutputKnown(u) then 1 else u.unknownOutput }

  /** What was reported, and one estimate for every attempt that did not report. */
  function ChargedInput(u: Usage, estimate: nat): nat { u.input + UnknownInput(u) * estimate }

  /** What was reported, and one cap for every attempt that did not, except that a
      reply whose usage is wholly unknown is itself measured. */
  function ChargedOutput(u: Usage, reply: Option<nat>, cap: nat): nat {
    var n := UnknownOutput(u);
    if n > 0 && !OutputKnown(u) && reply.Some? then u.output + reply.value + (n - 1) * cap else u.output + n * cap
  }

  function SourceOf(u: Usage): Source {
    if !InputKnown(u) && !OutputKnown(u) then Estimated
    else if u.unknownInput > 0 || u.unknownOutput > 0 || !InputKnown(u) || !OutputKnown(u) then Mixed
    else Reported
  }

  function Transports(u: Usage): (n: nat)
    ensures n >= 1
  {
    if u.attempts > 1 then u.attempts else 1
  }

  /** Nothing unknown is free, and a call that kept to its estimate and cap on every
      attempt is charged no more than that many estimates and caps. */
  lemma ChargesFit(u: Usage, estimate: nat, reply: Option<nat>, cap: nat)
    ensures u.attempts > 0 ==> ChargedInput(u, estimate) == u.input + u.unknownInput * estimate
    ensures u.attempts == 0 && !InputKnown(u) ==> ChargedInput(u, estimate) >= estimate
    ensures u.attempts > 0 && Modest(u, estimate, cap) ==> ChargedInput(u, estimate) <= u.attempts * estimate
    ensures u.attempts > 0 && Modest(u, estimate, cap) && (reply.Some? ==> reply.value <= cap) ==>
              ChargedOutput(u, reply, cap) <= u.attempts * cap
    ensures u.attempts == 0 && u.unknownInput == 0 && u.input <= estimate ==> ChargedInput(u, estimate) <= estimate
    ensures u.attempts == 0 && u.unknownOutput == 0 && u.output <= cap && (reply.Some? ==> reply.value <= cap) ==>
              ChargedOutput(u, reply, cap) <= cap
  {
    if u.attempts > 0 && Modest(u, estimate, cap) {
      SplitProduct(u.attempts, u.unknownInput, estimate);
      SplitProduct(u.attempts, u.unknownOutput, cap);
      if u.unknownOutput > 0 { SplitProduct(u.unknownOutput, 1, cap); }
    }
  }

  lemma SplitProduct(n: nat, k: nat, x: nat)
    requires k <= n
    ensures (n - k) * x + k * x == n * x
  {
  }

  method RecordUsage<C(!new)>(counter: TokenCounter<C>, messages: seq<Message<C>>, reply: Option<C>, u: Usage, cap: nat)
      returns (input: nat, output: nat, source: Source)
    requires counter.Valid()
    modifies counter
    ensures counter.Valid()
    ensures input == ChargedInput(u, old(EstimateOf(counter.text, counter.ratio, messages)))
    ensures output == ChargedOutput(u, if reply.Some? then Some(counter.text(reply.value)) else None, cap)
    ensures source == SourceOf(u)
    ensures !InputKnown(u) || UnknownInput(u) > 0 ==>
              counter.ratio == old(counter.ratio) && counter.observed == old(counter.observed)
  {
    input, output := u.input, u.output;
    var inputKnown, outputKnown := u.inputReported || input > 0, u.outputReported || output > 0;
    var unknownInput, unknownOutput := u.unknownInput, u.unknownOutput;
    if u.attempts == 0 {
      if !inputKnown { unknownInput := 1; }
      if !outputKnown { unknownOutput := 1; }
    }
    if inputKnown && unknownInput == 0 { counter.Observe(messages, input); }
    var estimate := counter.Estimate(messages);
    input := input + unknownInput * estimate;
    if unknownOutput > 0 {
      if !outputKnown && reply.Some? {
        output := output + counter.text(reply.value);
        unknownOutput := unknownOutput - 1;
      }
      output := output + unknownOutput * cap;
    }
    source := Reported;
    if !inputKnown && !outputKnown {
      source := Estimated;
    } else if u.unknownInput > 0 || u.unknownOutput > 0 || !inputKnown || !outputKnown {
      source := Mixed;
    }
  }

  method MergeUsageSource(rounds: seq<RoundTrace>) returns (source: Source)
    ensures source == Estimated <==> forall r | r in rounds :: r.source == Estimated
    ensures source == Reported <==> rounds != [] && forall r | r in rounds :: r.source == Reported
  {
    var seen: Option<Source> := None;
    for i := 0 to |rounds|
      invariant seen.None? <==> i == 0
      invariant seen.Some? ==> i > 0 && rounds[0].source == seen.value
      invariant seen.Some? ==> forall r | r in rounds[..i] :: r.source == seen.value
    {
      assert rounds[..i+1] == rounds[..i] + [rounds[i]];
      if seen.None? {
        seen := Some(rounds[i].source);
      } else if seen.value != rounds[i].source {
        assert rounds[0] in rounds && rounds[i] in rounds;
        return Mixed;
      }
    }
    assert rounds[..|rounds|] == rounds;
    assert seen.Some? ==> rounds[0] in rounds;
    return if seen.None? then Estimated else seen.value;
  }

  // ---------------------------------------------------------------- the ledger of a run

  function InputOfAll(rounds: seq<RoundTrace>): nat {
    if rounds == [] then 0 else InputOfAll(rounds[..|rounds|-1]) + rounds[|rounds|-1].input
  }

  function OutputOfAll(rounds: seq<RoundTrace>): nat {
    if rounds == [] then 0 else OutputOfAll(rounds[..|rounds|-1]) + rounds[|rounds|-1].output
  }

  function SpentOn(rounds: seq<RoundTrace>): nat { InputOfAll(rounds) + OutputOfAll(rounds) }

  function RetriesOf(rounds: seq<RoundTrace>): nat {
    if rounds == [] then 0 else RetriesOf(rounds[..|rounds|-1]) + Positive(rounds[|rounds|-1].attempts - 1)
  }

  /** One round against what had been spent before it. */
  predicate RoundFits(b: Budget, attempts: nat, spent: nat, r: RoundTrace) {
    && Affordable(b, b.maxTokens - spent, attempts, Plan(r.estimated, r.reserved, r.outputLimit))
    && r.outputLimit >= SMALL_OUTPUT
    && r.remaining == Positive(b.maxTokens - spent - r.input - r.output)
    && (r.phase == Analysis ==> r.outputLimit >= FULL_OUTPUT && r.reserved >= 2 * SUBMISSION * attempts)
    && (r.phase == Finalize && r.reserved > 0 ==>
          r.reserved >= (r.estimated + FULL_OUTPUT) * attempts
          && b.maxTokens - spent >= r.reserved + (r.estimated + FULL_OUTPUT) * attempts)
  }

  predicate Ledger(b: Budget, attempts: nat, spent: nat, rounds: seq<RoundTrace>) {
    rounds != [] ==>
      && Ledger(b, attempts, spent, rounds[..|rounds|-1])
      && RoundFits(b, attempts, spent + SpentOn(rounds[..|rounds|-1]), rounds[|rounds|-1])
  }

  /** Finalisation, once entered, is never left, and only its first round keeps a
      reserve. */
  predicate Latched(rounds: seq<RoundTrace>) {
    forall i, j | 0 <= i < j < |rounds| && rounds[i].phase == Finalize :: rounds[j].phase == Finalize && rounds[j].reserved == 0
  }

  predicate Numbered(rounds: seq<RoundTrace>, before: int) {
    forall i | 0 <= i < |rounds| :: rounds[i].turn == before + i + 1
  }

  /** How many rounds at the end brought no progress. */
  function Stall(rounds: seq<RoundTrace>): nat {
    if rounds == [] || rounds[|rounds|-1].progress then 0 else 1 + Stall(rounds[..|rounds|-1])
  }

  /** No round follows three in a row without progress. */
  predicate Lively(rounds: seq<RoundTrace>) { forall i | 0 <= i < |rounds| :: Stall(rounds[..i]) <= 2 }

  lemma {:induction false} LivelyHasProgress(rounds: seq<RoundTrace>, i: nat)
    requires Lively(rounds) && i + 3 < |rounds|
    ensures rounds[i].progress || rounds[i+1].progress || rounds[i+2].progress
  {
    assert Stall(rounds[..i+3]) <= 2;
    assert rounds[..i+3][..i+2] == rounds[..i+2];
    assert rounds[..i+2][..i+1] == rounds[..i+1];
    assert rounds[..i+1][..i] == rounds[..i];
  }

  predicate Excessive(attempts: nat, r: RoundTrace) {
    r.input > attempts * r.estimated || r.output > attempts * r.outputLimit
  }

  /** An affordable round overruns the total, or eats its reserve, only by charging
      more than every attempt's estimate or cap. */
  lemma OverrunIsExcessive(b: Budget, attempts: nat, spent: nat, r: RoundTrace)
    requires RoundFits(b, attempts, spent, r)
    ensures spent + r.input + r.output + r.reserved > b.maxTokens ==> Excessive(attempts, r)
  {
    SpreadOut(attempts, r.estimated, r.outputLimit);
  }

  lemma {:induction false} LedgerPrefix(b: Budget, attempts: nat, spent: nat, rounds: seq<RoundTrace>, i: nat)
    requires Ledger(b, attempts, spent, rounds) && i < |rounds|
    ensures RoundFits(b, attempts, spent + SpentOn(rounds[..i]), rounds[i])
  {
    var n := |rounds| - 1;
    if i < n {
      LedgerPrefix(b, attempts, spent, rounds[..n], i);
      assert rounds[..n][..i] == rounds[..i];
    }
  }

  /** If no round charges beyond its attempts' estimates and caps, then after every
      round the run is within its total and that round's reserve is still there. */
  lemma ReserveRemains(b: Budget, attempts: nat, spent: nat, rounds: seq<RoundTrace>, i: nat)
    requires Ledger(b, attempts, spent, rounds) && i < |rounds| && !Excessive(attempts, rounds[i])
    ensures spent + SpentOn(rounds[..i+1]) + rounds[i].reserved <= b.maxTokens
  {
    LedgerPrefix(b, attempts, spent, rounds, i);
    OverrunIsExcessive(b, attempts, spent + SpentOn(rounds[..i]), rounds[i]);
    assert rounds[..i+1][..i] == rounds[..i];
  }
}
