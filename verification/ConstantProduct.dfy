// Integer arithmetic of a constant-product pool with reserves x and y: exact-input swaps, minting
// and burning of liquidity, all under floor division.

module ConstantProduct {
  import opened FixedPoint

  /** `calc_output_at_known_input` on a non-empty pool. */
  function Output(input: nat, x: nat, y: nat): nat
    requires x > 0
  {
    y * input / (input + x)
  }

  // ---------- one swap ----------

  /** A swap leaves some of the output reserve and does not lower the product of the reserves. */
  lemma SwapKeepsProduct(input: nat, x: nat, y: nat)
    requires x > 0 && y > 0
    ensures Output(input, x, y) < y
    ensures x * y <= (x + input) * (y - Output(input, x, y))
  {
    var d, out := input + x, Output(input, x, y);
    FloorBounds(y * input, d);
    // d * (y - out) >= d * y - y * input == x * y
    assert d * y == y * input + x * y;
    assert d * (y - out) == d * y - out * d;
    if y <= out {
      MulLe(y - out, 0, d);
      MulLt(0, x, y);
    }
  }

  /** The output is the largest amount that keeps the product. */
  lemma OutputIsGreatest(input: nat, x: nat, y: nat, out: nat)
    requires x > 0 && out <= y && x * y <= (x + input) * (y - out)
    ensures out <= Output(input, x, y)
  {
    var d := input + x;
    assert d * y == y * input + x * y;
    assert d * (y - out) == d * y - out * d;
    FloorAtLeast(y * input, d, out);
  }

  /** Swapping one way and the whole output back returns at most the input. */
  lemma RoundTripLoses(input: nat, x: nat, y: nat)
    requires x > 0 && y > 0
    ensures Output(input, x, y) < y
    ensures Output(Output(input, x, y), y - Output(input, x, y), x + input) <= input
  {
    var d, out := input + x, Output(input, x, y);
    SwapKeepsProduct(input, x, y);
    FloorBounds(y * input, d);
    // the denominator of the way back is y again
    FloorBounds(d * out, y);
    MulLe(d * out / y, d * out / y, y);
    assert d * out == out * d;
    CancelLe(d * out / y, input, y) by {
      assert y * input == input * y;
    }
  }

  /** Both hops on one pool, priced from the reserves before either: the paired reserve does not fall. */
  lemma SamePoolTwoHop(input: nat, h: nat, p: nat)
    requires h > 0 && p > 0
    ensures var mid := Output(input, p, h);
            Output(mid, h, p) <= input
  {
    var mid := Output(input, p, h);
    var out := Output(mid, h, p);
    FloorBounds(h * input, input + p);
    FloorBounds(p * mid, mid + h);
    // mid * (input + p) <= h * input, so mid * p <= h * input
    MulLe(0, mid, input);
    assert mid * (input + p) == mid * input + mid * p;
    assert out * (mid + h) == out * mid + out * h;
    MulLe(0, out, mid);
    assert p * mid == mid * p;
    CancelLe(out, input, h) by {
      assert h * input == input * h;
    }
  }

  // ---------- splitting a trade ----------

  function Total(inputs: seq<nat>): nat {
    if inputs == [] then 0 else Total(inputs[..|inputs| - 1]) + inputs[|inputs| - 1]
  }

  /** The output reserve after swapping the inputs one by one; the input reserve is x + Total. */
  function OutReserve(inputs: seq<nat>, x: nat, y: nat): nat
    requires x > 0
  {
    if inputs == [] then y
    else
      var front := inputs[..|inputs| - 1];
      var y' := OutReserve(front, x, y);
      var out := Output(inputs[|inputs| - 1], x + Total(front), y');
      if out <= y' then y' - out else 0
  }

  lemma OneMoreInput(inputs: seq<nat>, input: nat, x: nat, y: nat)
    requires x > 0
    ensures Total(inputs + [input]) == Total(inputs) + input
    ensures var y' := OutReserve(inputs, x, y);
            var out := Output(input, x + Total(inputs), y');
            OutReserve(inputs + [input], x, y) == if out <= y' then y' - out else 0
  {
    assert (inputs + [input])[..|inputs|] == inputs;
  }

  lemma {:induction false} SplitKeepsProduct(inputs: seq<nat>, x: nat, y: nat)
    requires x > 0 && y > 0
    ensures 0 < OutReserve(inputs, x, y) <= y
    ensures x * y <= (x + Total(inputs)) * OutReserve(inputs, x, y)
  {
    if inputs != [] {
      var front := inputs[..|inputs| - 1];
      SplitKeepsProduct(front, x, y);
      SwapKeepsProduct(inputs[|inputs| - 1], x + Total(front), OutReserve(front, x, y));
    }
  }

  /** However an input is split into same-direction swaps, together they return at most what one
      swap of the sum returns. */
  lemma SplittingNeverBeatsOneTrade(inputs: seq<nat>, x: nat, y: nat)
    requires x > 0 && y > 0
    ensures y - OutReserve(inputs, x, y) <= Output(Total(inputs), x, y)
  {
    SplitKeepsProduct(inputs, x, y);
    OutputIsGreatest(Total(inputs), x, y, y - OutReserve(inputs, x, y));
  }

  // ---------- liquidity ----------

  function Minted(total: nat, deposit: nat, reserve: nat): nat
    requires reserve > 0
  {
    total * deposit / reserve
  }

  function Burned(reserve: nat, liquidity: nat, total: nat): nat
    requires total > 0
  {
    reserve * liquidity / total
  }

  /** The mint is the greatest number of shares in proportion to the deposit. */
  lemma MintedIsGreatest(total: nat, deposit: nat, reserve: nat, n: nat)
    requires reserve > 0
    ensures n <= Minted(total, deposit, reserve) <==> n * reserve <= total * deposit
  {
    FloorIs(total * deposit, reserve, n);
  }

  /** A burn pays the greatest part of the reserve in proportion to the shares. */
  lemma BurnedIsGreatest(reserve: nat, liquidity: nat, total: nat, n: nat)
    requires total > 0
    ensures n <= Burned(reserve, liquidity, total) <==> n * total <= reserve * liquidity
  {
    FloorIs(reserve * liquidity, total, n);
  }

  /** Adding h and at once burning exactly the minted shares returns at most h. */
  lemma AddThenBurnLoses(total: nat, h: nat, reserve: nat)
    requires total > 0 && reserve > 0
    ensures Burned(reserve + h, Minted(total, h, reserve), total + Minted(total, h, reserve)) <= h
  {
    var m := Minted(total, h, reserve);
    FloorBounds(total * h, reserve);
    FloorBounds((reserve + h) * m, total + m);
    // (reserve + h) * m <= h * (total + m)
    assert (reserve + h) * m == m * reserve + h * m;
    assert h * (total + m) == total * h + h * m;
    FloorAtMost((reserve + h) * m, total + m, h) by {
      assert (h + 1) * (total + m) == h * (total + m) + (total + m);
    }
  }

  /** Reserve product per share squared, compared across two states without dividing. */
  predicate NotWorse(h: nat, p: nat, t: nat, h': nat, p': nat, t': nat) {
    h * p * (t' * t') <= h' * p' * (t * t)
  }

  lemma NotWorseTransitive(h: nat, p: nat, t: nat, h1: nat, p1: nat, t1: nat, h2: nat, p2: nat, t2: nat)
    requires t1 > 0
    requires NotWorse(h, p, t, h1, p1, t1) && NotWorse(h1, p1, t1, h2, p2, t2)
    ensures NotWorse(h, p, t, h2, p2, t2)
  {
    var k, k1, k2 := h * p, h1 * p1, h2 * p2;
    var s, s1, s2 := t * t, t1 * t1, t2 * t2;
    // k * s1 <= k1 * s and k1 * s2 <= k2 * s1
    MulLe(k * s1, k1 * s, s2);
    MulLe(k1 * s2, k2 * s1, s);
    assert k * s2 * s1 == k * s1 * s2 by { Reorder(k, s1, s2); }
    assert k1 * s * s2 == k1 * s2 * s by { Reorder(k1, s, s2); }
    assert k2 * s * s1 == k2 * s1 * s by { Reorder(k2, s, s1); }
    MulLt(0, t1, t1);
    CancelLe(k * s2, k2 * s, s1);
  }

  /** If each reserve keeps its share of the total, the share value does not fall. */
  lemma SharesKeepValue(h: nat, p: nat, t: nat, h': nat, p': nat, t': nat)
    requires h * t' <= h' * t && p * t' <= p' * t
    ensures NotWorse(h, p, t, h', p', t')
  {
    MulLe(h * t', h' * t, p * t');
    MulLe(p * t', p' * t, h' * t);
    Square(h, p, t');
    Square(h', p', t);
    assert (h * t') * (p * t') <= (h' * t) * (p' * t);
  }

  lemma Square(a: int, b: int, c: int)
    ensures (a * c) * (b * c) == a * b * (c * c)
  {
    assert (a * c) * (b * c) == a * (c * (b * c));
    assert c * (b * c) == b * (c * c);
    assert a * (b * (c * c)) == a * b * (c * c);
  }

  /** More shares on the same reserves are worth less each. */
  lemma MoreSharesOnly(h: nat, p: nat, t: nat, minted: nat)
    requires h > 0 && p > 0 && t > 0
    ensures NotWorse(h, p, t, h, p, t + minted) <==> minted == 0
  {
    MulLt(0, h, p);
    if minted > 0 {
      MulLt(t, t + minted, t);
      MulLt(t, t + minted, t + minted);
      MulLt(t * t, (t + minted) * (t + minted), h * p);
    }
  }

  lemma ProductKeepsValue(h: nat, p: nat, t: nat, h': nat, p': nat)
    requires h * p <= h' * p'
    ensures NotWorse(h, p, t, h', p', t)
  {
    MulLe(h * p, h' * p', t * t);
  }

  /** Burning floors what is paid out, so every remaining share keeps its reserves. */
  lemma BurnKeepsValue(h: nat, p: nat, t: nat, liquidity: nat)
    requires t > 0 && liquidity <= t
    ensures Burned(h, liquidity, t) <= h && Burned(p, liquidity, t) <= p
    ensures NotWorse(h, p, t, h - Burned(h, liquidity, t), p - Burned(p, liquidity, t), t - liquidity)
    ensures liquidity < t && h > 0 ==> Burned(h, liquidity, t) < h
    ensures liquidity < t && p > 0 ==> Burned(p, liquidity, t) < p
  {
    BurnShare(h, t, liquidity);
    BurnShare(p, t, liquidity);
    SharesKeepValue(h, p, t, h - Burned(h, liquidity, t), p - Burned(p, liquidity, t), t - liquidity);
  }

  lemma BurnShare(h: nat, t: nat, liquidity: nat)
    requires t > 0 && liquidity <= t
    ensures Burned(h, liquidity, t) <= h
    ensures h * (t - liquidity) <= (h - Burned(h, liquidity, t)) * t
    ensures liquidity < t && h > 0 ==> Burned(h, liquidity, t) < h
  {
    var b := Burned(h, liquidity, t);
    FloorBounds(h * liquidity, t);
    assert h * (t - liquidity) == h * t - h * liquidity;
    MulLe(liquidity, t, h);
    CancelLe(b, h, t);
    assert (h - b) * t == h * t - b * t;
    if liquidity < t && h > 0 {
      MulLt(liquidity, t, h);
      if h <= b {
        MulLe(h, b, t);
      }
    }
  }

  /** Minting floors the shares, so a deposit of at least the pool ratio dilutes nobody. */
  lemma MintKeepsValue(h: nat, p: nat, t: nat, dh: nat, dp: nat)
    requires h > 0 && dh * p <= dp * h
    ensures NotWorse(h, p, t, h + dh, p + dp, t + Minted(t, dh, h))
  {
    var m := Minted(t, dh, h);
    FloorBounds(t * dh, h);
    // m * h <= t * dh
    assert h * (t + m) <= (h + dh) * t by {
      assert h * (t + m) == h * t + m * h;
      assert (h + dh) * t == h * t + t * dh;
    }
    assert p * (t + m) <= (p + dp) * t by {
      // p * m * h <= p * t * dh == t * (dh * p) <= t * (dp * h), so p * m <= dp * t
      MulLe(m * h, t * dh, p);
      MulLe(dh * p, dp * h, t);
      assert p * m * h == m * h * p by { Reorder(m, h, p); }
      assert t * dh * p == t * (dh * p);
      assert dp * t * h == t * (dp * h) by { Reorder(dp, t, h); }
      CancelLe(p * m, dp * t, h);
      assert p * (t + m) == p * t + p * m;
      assert (p + dp) * t == p * t + dp * t;
    }
    SharesKeepValue(h, p, t, h + dh, p + dp, t + m);
  }

  // ---------- exact-output swaps ----------

  /** An exact-output swap charges as many units as it pays out. On a funded pool that keeps the
      reserve product exactly when nothing is paid out or the output reserve is the deeper one by
      at least the amount. */
  lemma ExactOutputKeepsProductIff(output: nat, x: nat, y: nat)
    requires output < y
    ensures x * y <= (x + output) * (y - output) <==> output == 0 || x + output <= y
  {
    assert (x + output) * (y - output) == x * y + output * (y - x - output);
    if output > 0 && y < x + output {
      MulLt(y - x - output, 0, output);
    } else if output > 0 {
      MulLe(0, y - x - output, output);
    }
  }
}
