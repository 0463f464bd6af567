/** The token counter: an offline tokenizer, here any function of a message's
    content, scaled by a ratio learnt from the usage a provider reports. */
module ModelTokens {

  datatype Message<C> = Message(role: string, content: C)

  const MESSAGE_OVERHEAD := 16
  const LIST_OVERHEAD := 8
  const LOWEST := 0.25
  const HIGHEST := 4.0
  const MARGIN := 1.1
  const DECAY := 0.9

  function Sizes<C>(text: C -> nat, messages: seq<Message<C>>): nat {
    if messages == [] then 0
    else Sizes(text, messages[..|messages|-1]) + text(messages[|messages|-1].content) + MESSAGE_OVERHEAD
  }

  function BaseOf<C>(text: C -> nat, messages: seq<Message<C>>): nat { LIST_OVERHEAD + Sizes(text, messages) }

  function Ceiling(x: real): int { -((-x).Floor) }

  function Scaled(base: nat, ratio: real): int { Ceiling(base as real * ratio * MARGIN) }

  function EstimateOf<C>(text: C -> nat, ratio: real, messages: seq<Message<C>>): int {
    Scaled(BaseOf(text, messages), ratio)
  }

  function Clamp(x: real): real { if x < LOWEST then LOWEST else if x > HIGHEST then HIGHEST else x }

  lemma {:induction false} SizesAppend<C>(text: C -> nat, a: seq<Message<C>>, b: seq<Message<C>>)
    ensures Sizes(text, a + b) == Sizes(text, a) + Sizes(text, b)
  {
    if b == [] {
      assert a + b == a;
    } else {
      assert (a + b)[..|a + b|-1] == a + b[..|b|-1];
      SizesAppend(text, a, b[..|b|-1]);
    }
  }

  lemma CeilingKeepsOrder(x: real, y: real)
    requires x <= y
    ensures Ceiling(x) <= Ceiling(y) && Ceiling(x) as real >= x
    ensures Ceiling(x) as real < x + 1.0
  {
  }

  lemma ScaleKeepsOrder(a: nat, b: nat, low: real, high: real)
    requires a <= b && 0.0 <= low <= high
    ensures Scaled(a, low) <= Scaled(b, high)
  {
    var x, y := a as real * low, b as real * high;
    assert x <= b as real * low <= y;
    assert x * MARGIN <= y * MARGIN;
    CeilingKeepsOrder(x * MARGIN, y * MARGIN);
  }

  lemma SmallerNeverCosts<C>(text: C -> nat, ratio: real, a: seq<Message<C>>, b: seq<Message<C>>)
    requires ratio >= 0.0 && BaseOf(text, a) <= BaseOf(text, b)
    ensures EstimateOf(text, ratio, a) <= EstimateOf(text, ratio, b)
  {
    ScaleKeepsOrder(BaseOf(text, a), BaseOf(text, b), ratio, ratio);
  }

  lemma DroppingShrinks<C>(text: C -> nat, a: seq<Message<C>>, dropped: seq<Message<C>>, b: seq<Message<C>>)
    ensures BaseOf(text, a + b) <= BaseOf(text, a + dropped + b)
  {
    SizesAppend(text, a, b);
    SizesAppend(text, a + dropped, b);
    SizesAppend(text, a, dropped);
  }

  /** On a counter that does not change, dropping messages never raises the estimate. */
  lemma DroppingNeverCosts<C>(text: C -> nat, ratio: real, a: seq<Message<C>>, dropped: seq<Message<C>>,
                              b: seq<Message<C>>)
    requires ratio >= 0.0
    ensures EstimateOf(text, ratio, a + b) <= EstimateOf(text, ratio, a + dropped + b)
  {
    DroppingShrinks(text, a, dropped, b);
    SmallerNeverCosts(text, ratio, a + b, a + dropped + b);
  }

  lemma EstimateIsPositive<C>(text: C -> nat, ratio: real, messages: seq<Message<C>>)
    requires ratio >= LOWEST
    ensures EstimateOf(text, ratio, messages) >= 1
  {
    assert Scaled(LIST_OVERHEAD, LOWEST) == 3;
    ScaleKeepsOrder(LIST_OVERHEAD, BaseOf(text, messages), LOWEST, ratio);
  }

  class TokenCounter<C(!new)> {
    const text: C -> nat
    var ratio: real
    var observed: bool

    predicate Valid()
      reads this
    {
      LOWEST <= ratio <= HIGHEST
    }

    constructor (text: C -> nat)
      ensures this.text == text && ratio == 1.0 && !observed && Valid()
    {
      this.text := text;
      ratio := 1.0;
      observed := false;
    }

    method Base(messages: seq<Message<C>>) returns (total: nat)
      ensures total == BaseOf(text, messages)
    {
      total := LIST_OVERHEAD;
      for i := 0 to |messages|
        invariant total == BaseOf(text, messages[..i])
      {
        assert messages[..i+1][..i] == messages[..i];
        total := total + text(messages[i].content) + MESSAGE_OVERHEAD;
      }
      assert messages[..|messages|] == messages;
    }

    method Estimate(messages: seq<Message<C>>) returns (n: nat)
      requires Valid()
      ensures n == EstimateOf(text, ratio, messages) && n >= 1
    {
      var base := Base(messages);
      EstimateIsPositive(text, ratio, messages);
      n := Scaled(base, ratio);
    }

    /** Learns from a report.  The new estimate of the same messages covers what was
        reported unless that was beyond any ratio allowed; a spike decays by at most a
        tenth with each later report. */
    method Observe(messages: seq<Message<C>>, input: int)
      requires Valid()
      modifies this
      ensures Valid()
      ensures input <= 0 ==> ratio == old(ratio) && observed == old(observed)
      ensures input > 0 ==> observed && ratio == Learnt(old(ratio), old(observed), Measured(BaseOf(text, messages), input))
      ensures input > 0 ==> (EstimateOf(text, ratio, messages) >= input <==> input <= EstimateOf(text, HIGHEST, messages))
      ensures input > 0 && old(observed) ==> ratio >= old(ratio) * DECAY
    {
      if input <= 0 { return; }
      var base := Base(messages);
      Covers(base, input, ratio, observed);
      var measured := Measured(base, input);
      if !observed {
        ratio := measured;
        observed := true;
      } else {
        ratio := if measured > ratio * DECAY then measured else ratio * DECAY;
      }
    }
  }

  /** Reported tokens for each estimated one, within the ratios allowed. */
  function Measured(base: nat, input: int): (r: real)
    requires base > 0
    ensures LOWEST <= r <= HIGHEST
  {
    Clamp(input as real / base as real)
  }

  function Learnt(ratio: real, observed: bool, measured: real): real {
    if !observed || measured > ratio * DECAY then measured else ratio * DECAY
  }

  /** The new ratio covers the report, or the report is beyond the highest ratio. */
  lemma Covers(base: nat, input: int, ratio: real, observed: bool)
    requires base >= LIST_OVERHEAD && input > 0 && LOWEST <= ratio <= HIGHEST
    ensures (Scaled(base, Learnt(ratio, observed, Measured(base, input))) >= input <==> input <= Scaled(base, HIGHEST))
  {
    var exact := input as real / base as real;
    var r := Learnt(ratio, observed, Measured(base, input));
    assert LOWEST <= r <= HIGHEST;
    ScaleKeepsOrder(base, base, r, HIGHEST);
    if exact <= HIGHEST {
      assert r >= exact;
      ScaleKeepsOrder(base, base, exact, r);
      CoversExactly(base, input);
    } else {
      assert r == HIGHEST;
    }
  }

  lemma CoversExactly(base: nat, input: int)
    requires base > 0 && input > 0
    ensures Scaled(base, input as real / base as real) >= input
  {
    var exact := input as real / base as real;
    assert base as real * exact == input as real;
    CeilingKeepsOrder(input as real, base as real * exact * MARGIN);
  }

  function Decayed(ratio: real, n: nat): real { if n == 0 then ratio else Decayed(ratio, n - 1) * DECAY }

  /** The ratio after a run of measured reports, one already having been observed. */
  function LearntAll(ratio: real, measured: seq<real>): real {
    if measured == [] then ratio
    else Learnt(LearntAll(ratio, measured[..|measured|-1]), true, measured[|measured|-1])
  }

  /** A changing message mix cannot erase a spike: n reports later at least 0.9 to
      the n of any ratio is left, and the ratio never leaves its bounds. */
  lemma {:induction false} SpikesDecaySlowly(ratio: real, measured: seq<real>)
    requires LOWEST <= ratio <= HIGHEST && forall i | 0 <= i < |measured| :: LOWEST <= measured[i] <= HIGHEST
    ensures LOWEST <= LearntAll(ratio, measured) <= HIGHEST
    ensures LearntAll(ratio, measured) >= Decayed(ratio, |measured|)
  {
    if measured != [] { SpikesDecaySlowly(ratio, measured[..|measured|-1]); }
  }
}
