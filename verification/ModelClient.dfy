/** The model client: one logical call made of a bounded number of transport
    attempts, each of which is paid for whether or not it reported its usage. */
module ModelClient {
  import opened Wrappers

  datatype Usage = Usage(input: nat, output: nat, inputReported: bool, outputReported: bool,
                         attempts: nat, unknownInput: nat, unknownOutput: nat)

  const NO_USAGE := Usage(0, 0, false, false, 0, 0, 0)

  datatype Failure = Connection | RateLimited | InvalidResponse | TimedOut | Interrupted

  /** One HTTP exchange, whatever the network does: the usage fields of its reply,
      if it had any, and whether another attempt may follow an error. */
  datatype Attempt = Attempt(content: string, input: Option<int>, output: Option<int>, retryable: bool, error: Option<Failure>)

  predicate Told(n: Option<int>) { n.Some? && n.value >= 0 }

  function ReportedUsage(input: Option<int>, output: Option<int>): (u: Usage)
    ensures u.inputReported <==> Told(input)
    ensures u.outputReported <==> Told(output)
    ensures u.input == if Told(input) then input.value else 0
    ensures u.output == if Told(output) then output.value else 0
    ensures u.attempts == u.unknownInput == u.unknownOutput == 0
  {
    var u := if Told(input) then NO_USAGE.(input := input.value, inputReported := true) else NO_USAGE;
    if Told(output) then u.(output := output.value, outputReported := true) else u
  }

  function MaxAttempts(retryCount: int): (n: nat)
    ensures 1 <= n <= 6
    ensures 0 <= retryCount <= 5 ==> n == retryCount + 1
  {
    if retryCount + 1 < 1 then 1 else if retryCount + 1 > 6 then 6 else retryCount + 1
  }

  // ---------------------------------------------------------------- totals

  /** Sum of f over the first n attempts. */
  function Sum(f: Attempt -> nat, script: nat -> Attempt, n: nat): nat {
    if n == 0 then 0 else Sum(f, script, n - 1) + f(script(n - 1))
  }

  function InputOf(a: Attempt): nat { if Told(a.input) then a.input.value else 0 }
  function OutputOf(a: Attempt): nat { if Told(a.output) then a.output.value else 0 }
  function SilentInput(a: Attempt): nat { if Told(a.input) then 0 else 1 }
  function SilentOutput(a: Attempt): nat { if Told(a.output) then 0 else 1 }
  function ToldInput(a: Attempt): nat { 1 - SilentInput(a) }
  function ToldOutput(a: Attempt): nat { 1 - SilentOutput(a) }

  /** What n attempts of a script add up to. */
  ghost predicate Totals(u: Usage, script: nat -> Attempt, n: nat) {
    && u.attempts == n
    && u.input == Sum(InputOf, script, n) && u.output == Sum(OutputOf, script, n)
    && u.unknownInput == Sum(SilentInput, script, n) && u.unknownOutput == Sum(SilentOutput, script, n)
    && (u.inputReported <==> exists k | 0 <= k < n :: Told(script(k).input))
    && (u.outputReported <==> exists k | 0 <= k < n :: Told(script(k).output))
  }

  lemma OneMore(u: Usage, v: Usage, script: nat -> Attempt, n: nat)
    requires Totals(u, script, n)
    requires var a := script(n);
      v == Usage(u.input + InputOf(a), u.output + OutputOf(a), u.inputReported || Told(a.input),
                 u.outputReported || Told(a.output), n + 1, u.unknownInput + SilentInput(a), u.unknownOutput + SilentOutput(a))
    ensures Totals(v, script, n + 1)
  {
    if v.inputReported && !u.inputReported { assert Told(script(n).input); }
    if v.outputReported && !u.outputReported { assert Told(script(n).output); }
  }

  lemma {:induction false} SilentOrTold(script: nat -> Attempt, n: nat)
    ensures Sum(SilentInput, script, n) + Sum(ToldInput, script, n) == n
    ensures Sum(SilentOutput, script, n) + Sum(ToldOutput, script, n) == n
    ensures (exists k | 0 <= k < n :: Told(script(k).input)) <==> Sum(ToldInput, script, n) > 0
    ensures (exists k | 0 <= k < n :: Told(script(k).output)) <==> Sum(ToldOutput, script, n) > 0
  {
    if n > 0 { SilentOrTold(script, n - 1); }
  }

  /** No attempt is free: each either reported or is counted as unknown, for input
      and output apart, and something was reported exactly when not all are unknown. */
  lemma NoAttemptIsFree(u: Usage, script: nat -> Attempt, n: nat)
    requires Totals(u, script, n)
    ensures u.unknownInput + Sum(ToldInput, script, n) == u.attempts
    ensures u.unknownOutput + Sum(ToldOutput, script, n) == u.attempts
    ensures u.inputReported <==> u.unknownInput < u.attempts
    ensures u.outputReported <==> u.unknownOutput < u.attempts
  {
    SilentOrTold(script, n);
  }

  predicate Within(a: Attempt, input: nat, output: nat) {
    (Told(a.input) ==> a.input.value <= input) && (Told(a.output) ==> a.output.value <= output)
  }

  lemma {:induction false} WithinSums(script: nat -> Attempt, n: nat, input: nat, output: nat)
    requires forall k: nat | k < n :: Within(script(k), input, output)
    ensures Sum(InputOf, script, n) <= Sum(ToldInput, script, n) * input
    ensures Sum(OutputOf, script, n) <= Sum(ToldOutput, script, n) * output
  {
    if n > 0 {
      WithinSums(script, n - 1, input, output);
      assert Within(script(n - 1), input, output);
      assert (Sum(ToldInput, script, n - 1) + ToldInput(script(n - 1))) * input
          == Sum(ToldInput, script, n - 1) * input + ToldInput(script(n - 1)) * input;
      assert (Sum(ToldOutput, script, n - 1) + ToldOutput(script(n - 1))) * output
          == Sum(ToldOutput, script, n - 1) * output + ToldOutput(script(n - 1)) * output;
    }
  }

  /** What can be claimed of a total whose every attempt kept within an estimate and
      a cap: what is unknown and what was reported together fit the attempts. */
  predicate Modest(u: Usage, input: nat, output: nat) {
    && u.unknownInput <= u.attempts && u.input <= (u.attempts - u.unknownInput) * input
    && u.unknownOutput <= u.attempts && u.output <= (u.attempts - u.unknownOutput) * output
  }

  lemma WithinIsModest(u: Usage, script: nat -> Attempt, n: nat, input: nat, output: nat)
    requires Totals(u, script, n)
    requires forall k: nat | k < n :: Within(script(k), input, output)
    ensures Modest(u, input, output)
  {
    NoAttemptIsFree(u, script, n);
    WithinSums(script, n, input, output);
  }

  datatype Reply = Reply(content: string, usage: Usage, error: Option<Failure>)

  /** The first n attempts met errors worth another attempt, and the caller waited. */
  ghost predicate RetriedUpTo(script: nat -> Attempt, gone: nat -> bool, n: nat) {
    forall k: nat | k < n :: script(k).error.Some? && script(k).retryable && !gone(k)
  }

  predicate EndedBy(r: Reply, last: Attempt, gone: bool, more: bool) {
    if last.error.Some? && last.retryable && more then gone && r.content == "" && r.error == Some(Interrupted)
    else r.content == last.content && r.error == last.error
  }

  class HTTPClient {
    const retryCount: int

    constructor (retryCount: int)
      ensures this.retryCount == retryCount
    {
      this.retryCount := retryCount;
    }

    /** `script(k)` is what attempt k meets and `gone(k)` whether the caller's context
        ends during the pause after it.  Every attempt but the last met a retryable
        error; the last succeeded, was not retryable, exhausted the attempts, or the
        context ended. */
    method Complete(script: nat -> Attempt, gone: nat -> bool) returns (r: Reply)
      ensures 1 <= r.usage.attempts <= MaxAttempts(retryCount)
      ensures Totals(r.usage, script, r.usage.attempts)
      ensures RetriedUpTo(script, gone, r.usage.attempts - 1)
      ensures EndedBy(r, script(r.usage.attempts - 1), gone(r.usage.attempts - 1), r.usage.attempts < MaxAttempts(retryCount))
    {
      var attempts := MaxAttempts(retryCount);
      var total := NO_USAGE;
      var attempt := 0;
      while attempt < attempts
        invariant 0 <= attempt <= attempts && Totals(total, script, attempt)
        invariant RetriedUpTo(script, gone, attempt)
        invariant attempt < attempts
      {
        var met := script(attempt);
        var usage := ReportedUsage(met.input, met.output);
        ghost var before := total;
        total := Usage(total.input + usage.input, total.output + usage.output,
                       total.inputReported || usage.inputReported, total.outputReported || usage.outputReported,
                       total.attempts + 1,
                       total.unknownInput + (if usage.inputReported then 0 else 1),
                       total.unknownOutput + (if usage.outputReported then 0 else 1));
        OneMore(before, total, script, attempt);
        if met.error.None? { return Reply(met.content, total, None); }
        if !met.retryable || attempt + 1 >= attempts { return Reply(met.content, total, met.error); }
        if gone(attempt) { return Reply("", total, Some(Interrupted)); }
        attempt := attempt + 1;
      }
      assert false;
    }
  }
}
