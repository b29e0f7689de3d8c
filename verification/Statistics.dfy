/** Sliding-window statistics and the bandwidth estimator (multilink_stats.cpp). */
module Statistics {
  import opened Bytes

  const TRANSMIT_KEEP: nat := 400
  const BURST_TIMEOUT: nat := 60_000

  function Sum(s: seq<int>): (r: int) {
    if s == [] then 0 else Sum(s[..|s| - 1]) + s[|s| - 1]
  }

  function SumSquares(s: seq<int>): (r: int) {
    if s == [] then 0 else SumSquares(s[..|s| - 1]) + s[|s| - 1] * s[|s| - 1]
  }

  lemma SumSnoc(s: seq<int>, x: int)
    ensures Sum(s + [x]) == Sum(s) + x && SumSquares(s + [x]) == SumSquares(s) + x * x
  {
    assert (s + [x])[..|s|] == s;
  }

  lemma {:induction false} SumFront(s: seq<int>)
    requires s != []
    ensures Sum(s) == s[0] + Sum(s[1..]) && SumSquares(s) == s[0] * s[0] + SumSquares(s[1..])
  {
    if |s| > 1 {
      var init := s[..|s| - 1];
      SumFront(init);
      assert s[1..][..|s| - 2] == init[1..];
    }
  }

  /** The sum of (b x - a)^2 over the window. */
  function Spread(s: seq<int>, a: int, b: int): (r: int)
    ensures r >= 0
  {
    if s == [] then 0
    else
      var d := b * s[|s| - 1] - a;
      SquareNonNegative(d);
      Spread(s[..|s| - 1], a, b) + d * d
  }

  lemma SquareNonNegative(d: int)
    ensures d * d >= 0
  {
  }

  lemma {:induction false} SpreadExpands(s: seq<int>, a: int, b: int)
    ensures Spread(s, a, b) == b * b * SumSquares(s) - 2 * a * b * Sum(s) + |s| * a * a
  {
    if s != [] {
      var t, x := s[..|s| - 1], s[|s| - 1];
      SpreadExpands(t, a, b);
      Expand(a, b, x, SumSquares(t), Sum(t), |t|);
    }
  }

  lemma Expand(a: int, b: int, x: int, q: int, s: int, n: int)
    ensures b * b * q - 2 * a * b * s + n * a * a + (b * x - a) * (b * x - a)
         == b * b * (q + x * x) - 2 * a * b * (s + x) + (n + 1) * a * a
  {
    assert (b * x - a) * (b * x - a) == b * b * (x * x) - 2 * a * b * x + a * a;
    assert b * b * (q + x * x) == b * b * q + b * b * (x * x);
    assert 2 * a * b * (s + x) == 2 * a * b * s + 2 * a * b * x;
    assert (n + 1) * a * a == n * a * a + a * a;
  }

  /** n times the sum of squares less the square of the sum. */
  function Excess(s: seq<int>): int {
    |s| * SumSquares(s) - Sum(s) * Sum(s)
  }

  /** n times the sum of squares exceeds the square of the sum by n times the
      spread about the mean: the radicand of stddev is the variance. */
  lemma VarianceIdentity(s: seq<int>)
    requires s != []
    ensures |s| * Excess(s) == Spread(s, Sum(s), |s|)
    ensures Excess(s) >= 0
  {
    hide Spread, SumSquares, Sum;
    var n, q, t := |s|, SumSquares(s), Sum(s);
    SpreadExpands(s, t, n);
    Collect(n, q, t);
    Sign(n, n * q - t * t);
  }

  lemma Collect(n: int, q: int, t: int)
    ensures n * n * q - 2 * t * n * t + n * t * t == n * (n * q - t * t)
  {
    assert n * (n * q - t * t) == n * (n * q) - n * (t * t);
    assert n * (n * q) == n * n * q;
    assert n * (t * t) == n * t * t;
    assert t * n * t == n * t * t;
  }

  lemma Sign(n: int, x: int)
    requires n > 0 && n * x >= 0
    ensures x >= 0
  {
  }

  /** The last n of the values ever added. */
  function Last(s: seq<int>, n: nat): (r: seq<int>) {
    if |s| <= n then s else s[|s| - n..]
  }

  class Stats {
    const count: nat
    var values: seq<int>
    var sum: int
    var sumOfSquares: int
    ghost var history: seq<int>

    ghost predicate Valid()
      reads this
    {
      && count >= 1
      && values == Last(history, count)
      && sum == Sum(values) && sumOfSquares == SumSquares(values)
    }

    constructor (n: nat)
      requires n >= 1
      ensures Valid() && count == n && history == []
    {
      count, values, sum, sumOfSquares, history := n, [], 0, 0, [];
    }

    /** remove: the oldest value leaves. */
    method Remove()
      requires values != [] && sum == Sum(values) && sumOfSquares == SumSquares(values)
      modifies this`values, this`sum, this`sumOfSquares
      ensures values == old(values)[1..] && sum == Sum(values) && sumOfSquares == SumSquares(values)
    {
      SumFront(values);
      var val := values[0];
      values := values[1..];
      sumOfSquares := sumOfSquares - val * val;
      sum := sum - val;
    }

    method Add(val: int)
      requires sum == Sum(values) && sumOfSquares == SumSquares(values)
      modifies this`values, this`sum, this`sumOfSquares
      ensures values == old(values) + [val] && sum == Sum(values) && sumOfSquares == SumSquares(values)
    {
      SumSnoc(values, val);
      values := values + [val];
      sumOfSquares := sumOfSquares + val * val;
      sum := sum + val;
    }

    method AddAndRemoveBack(val: int)
      requires Valid()
      modifies this
      ensures Valid() && history == old(history) + [val]
      ensures values == (if |old(values)| < count then old(values) else old(values)[1..]) + [val]
    {
      if |values| >= count {
        Remove();
      }
      Add(val);
      history := history + [val];
    }

    method Mean() returns (m: real)
      requires Valid()
      ensures m * (|values| as real) == Sum(values) as real
      ensures values == [] ==> m == 0.0
    {
      if values == [] {
        return 0.0;
      }
      m := sum as real / |values| as real;
    }

    /** What stddev takes the square root of: never negative, and n^2 times it is
        n times the sum of squares less the square of the sum. */
    method Radicand() returns (v: real)
      requires Valid()
      ensures v >= 0.0
      ensures v * Square(|values| as real) == Excess(values) as real
    {
      hide SumSquares, Sum, RadicandOf, Square, Excess;
      if values == [] {
        NoValues();
        return 0.0;
      }
      v := RadicandOf(|values|, sum, sumOfSquares);
      VarianceIdentity(values);
      RadicandIsExcess(values);
    }
  }

  function Square(x: real): real {
    x * x
  }

  /** Mean of the squares less the square of the mean. */
  function RadicandOf(n: nat, sum: int, sumOfSquares: int): real
    requires n > 0
  {
    var m := sum as real / n as real;
    sumOfSquares as real / n as real - m * m
  }

  lemma NoValues()
    ensures 0.0 * Square(0.0) == Excess([]) as real
  {
  }

  lemma RadicandIsExcess(s: seq<int>)
    requires s != [] && Excess(s) >= 0
    ensures var v := RadicandOf(|s|, Sum(s), SumSquares(s));
            v >= 0.0 && v * Square(|s| as real) == Excess(s) as real
  {
    hide SumSquares, Sum, RadicandOf, Square;
    RadicandExact(|s|, Sum(s), SumSquares(s));
  }

  lemma RadicandExact(n: nat, s: int, q: int)
    requires n > 0 && n * q >= s * s
    ensures var v := RadicandOf(n, s, q);
            v >= 0.0 && v * Square(n as real) == (n * q - s * s) as real
  {
    var x, t, y := n as real, s as real, q as real;
    var v := RadicandOf(n, s, q);
    Divide(x, t, y, t / x, v);
    assert (n * q - s * s) as real == x * y - t * t;
    assert v * (x * x) == (v * x) * x;
    Quotient(v * x, x);
    Quotient(v, x);
  }

  lemma Divide(n: real, s: real, q: real, m: real, v: real)
    requires n > 0.0 && m * n == s && v == q / n - m * m
    ensures v * (n * n) == n * q - s * s
  {
    var r := q / n;
    assert r * n == q;
    calc {
      v * (n * n);
      (r - m * m) * (n * n);
      (r * n) * n - (m * n) * (m * n);
      q * n - s * s;
    }
  }

  lemma Quotient(y: real, n: real)
    requires n > 0.0 && y * n >= 0.0
    ensures y >= 0.0
  {
    assert (y * n) / n >= 0.0;
    assert (y * n) / n == y;
  }

  function AtLeastTenth(mean: real): real {
    if mean / 1000.0 > 0.1 then mean / 1000.0 else 0.1
  }

  lemma TenthMeaning(mean: real, n: nat, sum: int)
    requires mean * n as real == sum as real
    ensures var b := AtLeastTenth(mean);
            && b >= 0.1
            && (b > 0.1 ==> (b * 1000.0) * n as real == sum as real)
            && (b == 0.1 ==> sum as real <= 100.0 * n as real)
  {
    if mean / 1000.0 > 0.1 {
      assert (mean / 1000.0) * 1000.0 == mean;
    } else {
      AtMost(mean, 100.0, n as real);
    }
  }

  lemma AtMost(x: real, y: real, n: real)
    requires x <= y && n >= 0.0
    ensures x * n <= y * n
  {
    assert (y - x) * n >= 0.0;
    assert (y - x) * n == y * n - x * n;
  }

  // --------------------------------------------------------- bandwidth estimator

  datatype Sample = Sample(time: u64, bytes: nat)

  function TotalBytes(s: seq<Sample>): (r: nat) {
    if s == [] then 0 else s[0].bytes + TotalBytes(s[1..])
  }

  lemma {:induction false} TotalBytesSnoc(s: seq<Sample>, x: Sample)
    ensures TotalBytes(s + [x]) == TotalBytes(s) + x.bytes
  {
    if s == [] {
      assert s + [x] == [x];
      assert TotalBytes([x]) == x.bytes + TotalBytes([x][1..]);
    } else {
      TotalBytesSnoc(s[1..], x);
      assert (s + [x])[1..] == s[1..] + [x];
    }
  }

  /** The estimator as a value, with every estimate made so far. */
  datatype Estimate = Estimate(window: seq<Sample>, running: bool, endsAt: nat, history: seq<int>)

  predicate InBurst(e: Estimate, time: u64) {
    e.running || time < e.endsAt
  }

  /** The last samples, the new one included. */
  function Grown(window: seq<Sample>, x: Sample): (w: seq<Sample>)
    ensures 0 < |w| && w[|w| - 1] == x
  {
    var w := window + [x];
    if |w| > TRANSMIT_KEEP then w[1..] else w
  }

  /** data_written divides by the age of its full window: the clock has not gone back,
      and has moved since the oldest of 400 samples of a burst. */
  ghost predicate Defined(e: Estimate, time: u64) {
    && (forall i :: 0 <= i < |e.window| ==> e.window[i].time <= time)
    && (InBurst(e, time) && |e.window| >= TRANSMIT_KEEP - 1 ==> Grown(e.window, Sample(time, 0))[0].time != time)
  }

  /** One estimate was added: the bytes a millisecond, rounded down. */
  ghost predicate OneMore(before: seq<int>, after: seq<int>, bytes: nat, age: int) {
    var n := |before|;
    && |after| == n + 1 && after[..n] == before
    && after[n] * age <= 1000 * bytes < (after[n] + 1) * age
  }

  /** Bytes a millisecond, from an age in microseconds. */
  function Rate(bytes: nat, age: nat): (x: nat)
    requires age > 0
  {
    bytes * 1000 / age
  }

  lemma Quotients(n: nat, d: nat)
    requires d > 0
    ensures (n / d) * d <= n < (n / d + 1) * d
  {
  }

  lemma RateJoins(before: seq<int>, bytes: nat, age: nat)
    requires age > 0
    ensures OneMore(before, before + [Rate(bytes, age)], bytes, age)
  {
    Quotients(bytes * 1000, age);
  }

  lemma OutsideBurst(e: Estimate, time: u64, bytes: nat)
    requires Defined(e, time) && |e.window| <= TRANSMIT_KEEP && !InBurst(e, time)
    ensures Recorded(e, time, bytes) == e.(window := []) && TotalBytes([]) == 0
  {
  }

  lemma SameAge(window: seq<Sample>, time: u64, bytes: nat)
    ensures |Grown(window, Sample(time, bytes))| == |Grown(window, Sample(time, 0))|
    ensures |window| > 0 ==> Grown(window, Sample(time, bytes))[0].time == Grown(window, Sample(time, 0))[0].time
    ensures |Grown(window, Sample(time, 0))| == TRANSMIT_KEEP ==> |window| >= TRANSMIT_KEEP - 1
  {
  }

  /** data_written. */
  ghost function Recorded(e: Estimate, time: u64, bytes: nat): (r: Estimate)
    requires Defined(e, time) && |e.window| <= TRANSMIT_KEEP
  {
    if !InBurst(e, time) then e.(window := [])
    else
      var w := Grown(e.window, Sample(time, bytes));
      if |w| < TRANSMIT_KEEP then e.(window := w)
      else e.(window := w, history := e.history + [Rate(TotalBytes(w), time - w[0].time)])
  }

  /** What transport_write_ready tells the estimator after writing `bytes` bytes and
      keeping `left`. */
  ghost function Measured(e: Estimate, time: u64, bytes: nat, left: nat): (r: Estimate)
    requires Defined(e, time) && |e.window| <= TRANSMIT_KEEP
  {
    var r := Recorded(e, time, bytes);
    if left != 0 then r.(running := true)
    else if bytes == 0 && r.running then r.(running := false, endsAt := time + BURST_TIMEOUT)
    else r
  }

  class BandwidthEstimator {
    const overall: Stats
    var transmitted: seq<Sample>
    var transmitSize: nat
    var burstEndsAt: nat
    var burstRunning: bool

    ghost predicate Valid()
      reads this, overall
    {
      && overall.Valid()
      && transmitSize == TotalBytes(transmitted) && |transmitted| <= TRANSMIT_KEEP
      && (forall i, j :: 0 <= i < j < |transmitted| ==> transmitted[i].time <= transmitted[j].time)
    }

    constructor ()
      ensures Valid() && fresh(overall) && overall.history == [] && overall.count == 1000
      ensures transmitted == [] && !burstRunning && burstEndsAt == 0
    {
      overall := new Stats(1000);
      transmitted, transmitSize, burstEndsAt, burstRunning := [], 0, 0, false;
    }

    ghost function Value(): (e: Estimate)
      reads this, overall
    {
      Estimate(transmitted, burstRunning, burstEndsAt, overall.history)
    }

    method DataWritten(time: u64, bytes: nat)
      requires Valid() && Defined(Value(), time)
      modifies this`transmitted, this`transmitSize, overall
      ensures Valid() && Value() == Recorded(old(Value()), time, bytes)
      ensures burstRunning == old(burstRunning) && burstEndsAt == old(burstEndsAt)
      ensures !old(burstRunning || time < burstEndsAt) ==> transmitted == [] && overall.history == old(overall.history)
      ensures old(burstRunning || time < burstEndsAt) ==>
                && transmitted == (var all := old(transmitted) + [Sample(time, bytes)]; if |all| > 400 then all[1..] else all)
                && (|transmitted| < 400 ==> overall.history == old(overall.history))
                && (|transmitted| == 400 ==>
                      OneMore(old(overall.history), overall.history, TotalBytes(transmitted), time - transmitted[0].time))
    {
      hide Recorded, Grown, OneMore, TotalBytes, Sum, SumSquares, Last;
      if burstRunning || time < burstEndsAt {
        WrittenInBurst(time, bytes);
      } else {
        OutsideBurst(Value(), time, bytes);
        transmitSize := 0;
        transmitted := [];
      }
    }

    /** The first branch of data_written. */
    method WrittenInBurst(time: u64, bytes: nat)
      requires Valid() && Defined(Value(), time) && InBurst(Value(), time)
      modifies this`transmitted, this`transmitSize, overall
      ensures Valid() && Value() == Recorded(old(Value()), time, bytes)
      ensures transmitted == (var all := old(transmitted) + [Sample(time, bytes)]; if |all| > 400 then all[1..] else all)
      ensures |transmitted| < 400 ==> overall.history == old(overall.history)
      ensures |transmitted| == 400 ==>
                OneMore(old(overall.history), overall.history, TotalBytes(transmitted), time - transmitted[0].time)
    {
      hide Grown, OneMore, Rate, TotalBytes, Sum, SumSquares, Last;
      SameAge(transmitted, time, bytes);
      Remember(time, bytes);
      if |transmitted| < TRANSMIT_KEEP {
        return;
      }
      var delta := time - transmitted[0].time;
      AddEstimate(delta);
    }

    /** A full window adds an estimate. */
    method AddEstimate(delta: nat)
      requires Valid() && delta > 0
      modifies overall
      ensures Valid() && overall.history == old(overall.history) + [Rate(TotalBytes(transmitted), delta)]
      ensures OneMore(old(overall.history), overall.history, TotalBytes(transmitted), delta)
    {
      hide Rate, OneMore, TotalBytes, Sum, SumSquares;
      RateJoins(overall.history, transmitSize, delta);
      overall.AddAndRemoveBack(Rate(transmitSize, delta));
    }

    /** The new sample joins the window, and the oldest leaves a full one. */
    method Remember(time: u64, bytes: nat)
      requires Valid() && forall i :: 0 <= i < |transmitted| ==> transmitted[i].time <= time
      modifies this`transmitted, this`transmitSize
      ensures Valid() && transmitted == Grown(old(transmitted), Sample(time, bytes))
      ensures transmitted == (var all := old(transmitted) + [Sample(time, bytes)]; if |all| > 400 then all[1..] else all)
      ensures forall i :: 0 <= i < |transmitted| ==> transmitted[i].time <= time
    {
      TotalBytesSnoc(transmitted, Sample(time, bytes));
      transmitted := transmitted + [Sample(time, bytes)];
      transmitSize := transmitSize + bytes;
      if |transmitted| > TRANSMIT_KEEP {
        transmitSize := transmitSize - transmitted[0].bytes;
        transmitted := transmitted[1..];
      }
    }

    method OutputQueueFull()
      modifies this`burstRunning
      ensures burstRunning
    {
      burstRunning := true;
    }

    method InputQueueEmpty(time: u64)
      modifies this`burstRunning, this`burstEndsAt
      ensures !burstRunning
      ensures burstEndsAt == if old(burstRunning) then time + 60_000 else old(burstEndsAt)
    {
      if burstRunning {
        burstRunning := false;
        burstEndsAt := time + BURST_TIMEOUT;
      }
    }

    /** bandwidth_mbps: a thousandth of the mean, but never less than 0.1. */
    method BandwidthMbps() returns (b: real)
      requires Valid()
      ensures b >= 0.1
      ensures b > 0.1 ==> (b * 1000.0) * |overall.values| as real == Sum(overall.values) as real
      ensures b == 0.1 ==> Sum(overall.values) as real <= 100.0 * |overall.values| as real
    {
      hide Sum, AtLeastTenth;
      var m := overall.Mean();
      b := AtLeastTenth(m);
      TenthMeaning(m, |overall.values|, Sum(overall.values));
    }
  }

  /** A burst of 399 writes within one clock reading. */
  method WritesAtOnce(time: u64, bytes: nat) returns (e: BandwidthEstimator)
    ensures fresh(e) && e.Valid() && e.burstRunning && |e.transmitted| == 399
    ensures forall i :: 0 <= i < 399 ==> e.transmitted[i].time == time
  {
    hide Recorded, Grown, TotalBytes;
    e := new BandwidthEstimator();
    e.OutputQueueFull();
    for n := 0 to 399
      invariant fresh(e) && fresh(e.overall) && e.Valid() && e.burstRunning && |e.transmitted| == n
      invariant forall i :: 0 <= i < n ==> e.transmitted[i].time == time
    {
      e.DataWritten(time, bytes);
    }
  }

  /** The next write in it divides by zero. */
  method WritesWithinOneReading(time: u64, bytes: nat) returns (e: BandwidthEstimator)
    ensures fresh(e) && e.Valid() && (forall i :: 0 <= i < |e.transmitted| ==> e.transmitted[i].time <= time)
    ensures !Defined(e.Value(), time)
  {
    e := WritesAtOnce(time, bytes);
  }
}
