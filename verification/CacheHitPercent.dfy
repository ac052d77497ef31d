/**
 * The cache-hit percentage: rounded half up to an integer, or, when a ratio
 * that is not full would round to 100, to just enough decimals to stay below.
 */
module CacheHitPercent {
  import opened Options

  // ----- What the display means -----

  function Pow10(k: nat): (p: nat)
    ensures p > 0
  {
    if k == 0 then 1 else 10 * Pow10(k - 1)
  }

  /** `n / d` rounded to the nearest integer, midpoints up. */
  function HalfUp(n: nat, d: nat): nat
    requires d > 0
  {
    (2 * n + d) / (2 * d)
  }

  /** The percentage of `hit` in `d`, in units of the `k`-th decimal. */
  function Share(k: nat, hit: nat, d: nat): nat
    requires d > 0
  {
    HalfUp(100 * Pow10(k) * hit, d)
  }

  /** `k` decimals are enough, and no fewer are, to keep the rounded share below 100. */
  ghost predicate LeastPlaces(k: nat, hit: nat, d: nat)
    requires d > 0
  {
    Share(k, hit, d) < 100 * Pow10(k) && forall j: nat :: j < k ==> Share(j, hit, d) >= 100 * Pow10(j)
  }

  /** The text is the share at the least number of decimals. */
  ghost predicate Displays(text: string, k: nat, hit: nat, d: nat)
    requires d > 0
  {
    LeastPlaces(k, hit, d) && text == Render(k, Share(k, hit, d))
  }

  ghost predicate Exact(text: string, hit: nat, d: nat)
    requires d > 0
  {
    exists k: nat :: Displays(text, k, hit, d)
  }

  function Digit(n: nat): char
    requires n < 10
  {
    '0' + n as char
  }

  function Digits(n: nat): string {
    if n < 10 then [Digit(n)] else Digits(n / 10) + [Digit(n % 10)]
  }

  /** The last `k` digits of `n`. */
  function Padded(n: nat, k: nat): string {
    if k == 0 then "" else Padded(n / 10, k - 1) + [Digit(n % 10)]
  }

  /** `v` units of the `k`-th decimal, written out. */
  function Render(k: nat, v: nat): string {
    if k == 0 then Digits(v)
    else
      var unit := Pow10(k);
      DivBounds(v, unit);
      Digits(v / unit) + "." + Padded(v % unit, k)
  }

  lemma DivBounds(v: nat, unit: nat)
    requires unit > 0
    ensures 0 <= v / unit && 0 <= v % unit < unit
  {
  }

  // ----- Arithmetic -----

  lemma HalfUpIs(n: nat, d: nat, v: nat)
    requires d > 0 && 2 * d * v <= 2 * n + d < 2 * d * (v + 1)
    ensures HalfUp(n, d) == v
  {
    var x, y := 2 * n + d, 2 * d;
    assert y * v <= x < y * (v + 1);
    DivIs(x, y, v);
  }

  lemma DivIs(x: nat, y: nat, v: nat)
    requires y > 0 && y * v <= x < y * v + y
    ensures x / y == v
  {
    var q := x / y;
    assert x == y * q + x % y;
    Apart(y, q - v);
    assert y * (q - v) == y * q - y * v;
  }

  lemma Apart(y: int, k: int)
    requires y >= 0
    ensures k >= 1 ==> y * k >= y
    ensures k <= -1 ==> y * k <= -y
  {
    if k >= 1 { assert y * k == y + y * (k - 1); } else if k <= -1 { assert y * k == -y + y * (k + 1); }
  }

  lemma CeilDivides(hit: nat, a: nat, b: nat)
    ensures hit >= a + (b + 199) / 200 <==> 200 * hit >= 200 * a + b
  {
  }

  lemma Bounded(factor: nat, n: nat)
    requires factor <= 199
    ensures factor * n <= 199 * n
  {
  }

  lemma Distribute(factor: nat, q: nat, r: nat)
    ensures factor * (200 * q + r) == 200 * (factor * q) + factor * r
  {
  }

  /** Comparing against a multiple of `d / 200` without forming `200 * hit`, every product at most `d` or 199 * 199. */
  lemma {:induction false} Threshold(hit: nat, d: nat, factor: nat)
    requires 1 <= factor <= 199
    ensures var t := factor * (d / 200) + (factor * (d % 200) + 199) / 200;
            (hit >= t <==> 200 * hit >= factor * d) && t <= d && factor * (d % 200) <= 199 * 199
  {
    var q, r := d / 200, d % 200;
    assert d == 200 * q + r;
    Distribute(factor, q, r);
    Bounded(factor, q);
    Bounded(factor, r);
    CeilDivides(hit, factor * q, factor * r);
  }

  /** The rounded share falls short of 100 by `loss` units exactly when the scaled gap lies between the midpoints. */
  lemma ShareIs(k: nat, hit: nat, missed: nat, loss: nat)
    requires hit + missed > 0 && loss <= 100 * Pow10(k)
    requires var d := hit + missed;
             2 * loss * d < 200 * Pow10(k) * missed + d && 200 * Pow10(k) * missed <= 2 * loss * d + d
    ensures Share(k, hit, hit + missed) == 100 * Pow10(k) - loss
  {
    var d, n := hit + missed, 100 * Pow10(k);
    Split(n, hit, missed);
    assert 2 * (n * missed) == 200 * Pow10(k) * missed;
    Times(d, n, loss);
    HalfUpIs(n * hit, d, n - loss);
  }

  lemma Split(n: nat, hit: nat, missed: nat)
    ensures n * (hit + missed) == n * hit + n * missed
  {
  }

  lemma Times(d: nat, n: nat, loss: nat)
    requires loss <= n
    ensures 2 * d * (n - loss) == 2 * (n * d) - 2 * loss * d
    ensures 2 * d * (n - loss + 1) == 2 * (n * d) - 2 * loss * d + 2 * d
  {
  }

  // ----- The binary search -----

  /** `roundedIntegerPercent`. */
  method RoundedIntegerPercent(cacheRead: nat, denominator: nat) returns (percent: nat)
    requires 0 < denominator && cacheRead <= denominator
    ensures percent == Share(0, cacheRead, denominator) && percent <= 100
  {
    var quotient := denominator / 200;
    var remainder := denominator % 200;
    var lower, upper := 0, 100;
    while lower < upper
      invariant 0 <= lower <= upper <= 100
      invariant (2 * lower - 1) * denominator <= 200 * cacheRead < (2 * upper + 1) * denominator
      decreases upper - lower
    {
      var candidate := (lower + upper + 1) / 2;
      var factor := candidate * 2 - 1;
      Threshold(cacheRead, denominator, factor);
      if cacheRead >= factor * quotient + (factor * remainder + 199) / 200 {
        lower := candidate;
      } else {
        upper := candidate - 1;
      }
    }
    Landed(cacheRead, denominator, lower);
    percent := lower;
  }

  lemma Landed(hit: nat, d: nat, p: nat)
    requires 0 < d && (2 * p - 1) * d <= 200 * hit < (2 * p + 1) * d
    ensures Share(0, hit, d) == p
  {
    assert Pow10(0) == 1;
    assert (2 * p - 1) * d == 2 * d * p - d && (2 * p + 1) * d == 2 * d * (p + 1) - d;
    HalfUpIs(100 * hit, d, p);
  }

  // ----- The decimals -----

  /** The least number of decimals is where ten times the scaled gap first exceeds the denominator. */
  lemma {:induction false} FewerRoundUp(j: nat, k: nat, hit: nat, missed: nat)
    requires hit + missed > 0 && j <= k && 200 * Pow10(k) * missed <= hit + missed
    ensures Share(j, hit, hit + missed) == 100 * Pow10(j)
  {
    if j < k {
      assert Pow10(k) == 10 * Pow10(k - 1);
      Scaled(Pow10(k - 1), missed);
      FewerRoundUp(j, k - 1, hit, missed);
    } else {
      ShareIs(j, hit, missed, 0);
    }
  }

  lemma Scaled(p: nat, missed: nat)
    ensures 200 * (10 * p) * missed == 10 * (200 * p * missed)
    ensures 200 * p * missed <= 200 * (10 * p) * missed
  {
    assert 200 * (10 * p) * missed == 10 * (200 * p * missed);
    assert 200 * p * missed >= 0;
  }

  function Nines(k: nat): string {
    if k == 0 then "" else Nines(k - 1) + "9"
  }

  lemma {:induction false} PaddedNines(k: nat)
    ensures Padded(Pow10(k) - 1, k) == Nines(k)
  {
    if k > 0 {
      assert (Pow10(k) - 1) / 10 == Pow10(k - 1) - 1 && (Pow10(k) - 1) % 10 == 9;
      PaddedNines(k - 1);
    }
  }

  /** What the display writes for a share that falls `loss` units short. */
  lemma RenderShort(k: nat, loss: nat)
    requires k >= 1 && 1 <= loss <= 5
    ensures Render(k, 100 * Pow10(k) - loss) == "99." + Nines(k - 1) + [Digit(10 - loss)]
  {
    var unit := Pow10(k);
    assert unit == 10 * Pow10(k - 1);
    SplitShort(unit, loss);
    PaddedShort(k, loss);
    NinetyNine();
    hide Digits, Padded;
  }

  lemma NinetyNine()
    ensures Digits(99) == "99"
  {
    assert Digits(99) == Digits(9) + [Digit(9)];
  }

  lemma PaddedShort(k: nat, loss: nat)
    requires k >= 1 && 1 <= loss <= 5 && Pow10(k) == 10 * Pow10(k - 1)
    ensures Padded(Pow10(k) - loss, k) == Nines(k - 1) + [Digit(10 - loss)]
  {
    assert (Pow10(k) - loss) / 10 == Pow10(k - 1) - 1 && (Pow10(k) - loss) % 10 == 10 - loss;
    PaddedNines(k - 1);
  }

  lemma SplitShort(unit: nat, loss: nat)
    requires loss <= unit && loss > 0
    ensures (100 * unit - loss) / unit == 99 && (100 * unit - loss) % unit == unit - loss
  {
    var v := 100 * unit - loss;
    DivIs(v, unit, 99);
    Remainder(v, unit);
  }

  lemma Remainder(v: nat, unit: nat)
    requires unit > 0 && v / unit == 99
    ensures v % unit == v - unit * 99
  {
    assert v == unit * (v / unit) + v % unit;
  }

  /** `cacheHitPercent`: exact for every count. */
  method Percent(uncachedInput: nat, cacheRead: nat, cacheWrite: nat) returns (shown: Option<string>)
    ensures shown.None? <==> uncachedInput + cacheRead + cacheWrite == 0
    ensures shown.Some? && uncachedInput + cacheWrite == 0 ==> shown == Some("100")
    ensures shown.Some? && uncachedInput + cacheWrite > 0 ==>
              var d := uncachedInput + cacheRead + cacheWrite;
              Exact(shown.value, cacheRead, d)
  {
    var denominator := uncachedInput + cacheRead + cacheWrite;
    if denominator == 0 { return None; }
    var missed := uncachedInput + cacheWrite;
    if missed == 0 { return Some("100"); }
    var percent := RoundedIntegerPercent(cacheRead, denominator);
    if percent < 100 {
      assert Displays(Digits(percent), 0, cacheRead, denominator);
      return Some(Digits(percent));
    }
    FullGap(cacheRead, missed);
    var places := 1;
    var gap := missed * 200;
    var tens := denominator / 10;
    while gap <= tens
      invariant places >= 1 && gap == 200 * Pow10(places - 1) * missed && 0 < gap <= denominator
      decreases denominator - gap
    {
      Scaled(Pow10(places - 1), missed);
      assert Pow10(places) == 10 * Pow10(places - 1);
      gap := gap * 10;
      places := places + 1;
    }
    var loss := RoundedLoss(gap, denominator);
    Scaled(Pow10(places - 1), missed);
    Least(places, cacheRead, missed, loss);
    RenderShort(places, loss);
    assert Displays("99." + Nines(places - 1) + [Digit(10 - loss)], places, cacheRead, denominator);
    return Some("99." + Nines(places - 1) + [Digit(10 - loss)]);
  }

  /** The least loss whose upper midpoint the gap does not pass. */
  method RoundedLoss(gap: nat, denominator: nat) returns (loss: nat)
    requires denominator / 10 < gap <= denominator
    ensures 1 <= loss <= 5
    ensures 2 * loss * denominator < 10 * gap + denominator && 10 * gap <= 2 * loss * denominator + denominator
  {
    var tens, ones := denominator / 10, denominator % 10;
    loss := 1;
    while loss < 5
      invariant 1 <= loss <= 5 && 2 * loss * denominator < 10 * gap + denominator
    {
      var factor := loss * 2 + 1;
      var threshold := factor * tens + factor * ones / 10;
      LossTest(gap, denominator, loss);
      if gap <= threshold { return; }
      loss := loss + 1;
    }
  }

  /** The threshold decides the midpoint without exceeding the denominator. */
  lemma {:induction false} LossTest(gap: nat, d: nat, loss: nat)
    requires 1 <= loss <= 4
    ensures var threshold := (loss * 2 + 1) * (d / 10) + (loss * 2 + 1) * (d % 10) / 10;
            threshold <= d && (gap <= threshold <==> 10 * gap <= 2 * loss * d + d)
    ensures 2 * (loss + 1) * d == 2 * loss * d + 2 * d
  {
    if loss == 1 {
    } else if loss == 2 {
    } else if loss == 3 {
    } else {
      assert loss == 4;
    }
  }

  lemma FullGap(hit: nat, missed: nat)
    requires hit + missed > 0 && Share(0, hit, hit + missed) >= 100
    ensures missed * 200 == 200 * Pow10(0) * missed <= hit + missed
  {
    var d := hit + missed;
    assert Pow10(0) == 1;
    var x, y := 2 * (100 * hit) + d, 2 * d;
    assert x / y >= 100;
    AtLeast(x, y);
  }

  lemma AtLeast(x: nat, y: nat)
    requires y > 0 && x / y >= 100
    ensures x >= 100 * y
  {
    assert x == y * (x / y) + x % y;
    Apart(y, x / y - 100);
    assert y * (x / y - 100) == y * (x / y) - 100 * y;
  }

  lemma Least(k: nat, hit: nat, missed: nat, loss: nat)
    requires hit + missed > 0 && k >= 1 && 1 <= loss <= 5 && 200 * Pow10(k - 1) * missed <= hit + missed
    requires var d := hit + missed; 2 * loss * d < 200 * Pow10(k) * missed + d && 200 * Pow10(k) * missed <= 2 * loss * d + d
    ensures LeastPlaces(k, hit, hit + missed) && Share(k, hit, hit + missed) == 100 * Pow10(k) - loss
  {
    assert Pow10(k) == 10 * Pow10(k - 1);
    ShareIs(k, hit, missed, loss);
    forall j: nat | j < k
      ensures Share(j, hit, hit + missed) >= 100 * Pow10(j)
    {
      FewerRoundUp(j, k - 1, hit, missed);
    }
  }

  // ----- Reading the display back -----

  predicate AllDigits(text: string) {
    forall i :: 0 <= i < |text| ==> '0' <= text[i] <= '9'
  }

  /** The number a run of digits denotes. */
  function Value(text: string): nat
    requires AllDigits(text)
  {
    if text == "" then 0 else 10 * Value(text[..|text| - 1]) + (text[|text| - 1] - '0') as nat
  }

  lemma {:induction false} DigitsRead(n: nat)
    ensures AllDigits(Digits(n)) && Value(Digits(n)) == n
  {
    if n >= 10 {
      DigitsRead(n / 10);
      assert Digits(n)[..|Digits(n)| - 1] == Digits(n / 10);
    } else {
      assert Digits(n)[..0] == "";
    }
  }

  lemma {:induction false} PaddedRead(n: nat, k: nat)
    requires n < Pow10(k)
    ensures |Padded(n, k)| == k && AllDigits(Padded(n, k)) && Value(Padded(n, k)) == n
  {
    if k > 0 {
      PaddedRead(n / 10, k - 1);
      assert Padded(n, k)[..k - 1] == Padded(n / 10, k - 1);
    }
  }

  /** The display denotes the share it was rendered from, to its last decimal. */
  lemma {:induction false} RenderReads(k: nat, v: nat)
    ensures k == 0 ==> AllDigits(Render(k, v)) && Value(Render(k, v)) == v
    ensures k > 0 ==> exists whole, fraction ::
              Render(k, v) == whole + "." + fraction && AllDigits(whole) && AllDigits(fraction)
              && |fraction| == k && Value(whole) * Pow10(k) + Value(fraction) == v
  {
    if k == 0 {
      DigitsRead(v);
    } else {
      var unit := Pow10(k);
      DivBounds(v, unit);
      DigitsRead(v / unit);
      PaddedRead(v % unit, k);
      Whole(v, unit);
      hide Value, Digits, Padded;
      var whole, fraction := Digits(v / unit), Padded(v % unit, k);
      assert Render(k, v) == whole + "." + fraction;
    }
  }

  lemma Whole(v: nat, unit: nat)
    requires unit > 0
    ensures (v / unit) * unit + v % unit == v
  {
  }

  /** A true full hit is the sole "100". */
  lemma HundredReads()
    ensures AllDigits("100") && Value("100") == 100
  {
    assert "100"[..2] == "10" && "10"[..1] == "1" && "1"[..0] == "";
    assert Value("1") == 1 && Value("10") == 10;
  }

  lemma {:induction false} OnlyFullShowsHundred(k: nat, hit: nat, d: nat)
    requires d > 0 && LeastPlaces(k, hit, d)
    ensures Render(k, Share(k, hit, d)) != "100"
  {
    var v := Share(k, hit, d);
    if k == 0 {
      DigitsRead(v);
      HundredReads();
      hide Digits, Share, Value;
      assert v < 100;
    } else {
      var unit := Pow10(k);
      DivBounds(v, unit);
      assert '.' in Render(k, v);
      assert '.' !in "100";
    }
  }
}
