// Batch tuning and backpressure of the edge gateway (retikon_core/edge/policies.py).

module EdgePolicies {
  import opened Optionals

  // int() of a float: towards zero.
  function Truncate(x: real): int {
    if x >= 0.0 then x.Floor else -((-x).Floor)
  }

  function Between(r: real, low: int, high: int): real {
    low as real + r * (high - low) as real
  }

  function Clamp(low: int, high: int, x: int): int {
    var y := if x < high then x else high;
    if y > low then y else low
  }

  datatype AdaptiveBatchPolicy = AdaptiveBatchPolicy(
    minBatch: int, maxBatch: int, lowWatermark: int, highWatermark: int, minDelayMs: int, maxDelayMs: int)
  {
    // The share of the way from the low to the high watermark.
    function Ratio(backlog: int): real
      requires lowWatermark < backlog < highWatermark
    {
      (backlog - lowWatermark) as real / (highWatermark - lowWatermark) as real
    }

    // From `low` at the low watermark to `high` at the high one.
    function Interpolate(backlog: int, low: int, high: int): int {
      if backlog <= lowWatermark then low
      else if backlog >= highWatermark then high
      else Truncate(Between(Ratio(backlog), low, high))
    }

    // Batch size and delay for a backlog and, if known, an average latency.
    function Tune(backlog: int, avgLatencyMs: Option<real>): (r: (int, int))
      ensures minBatch <= maxBatch <==> minBatch <= r.0 <= maxBatch
      ensures minDelayMs <= maxDelayMs <==> minDelayMs <= r.1 <= maxDelayMs
    {
      var b := if backlog > 0 then backlog else 0;
      var batch := Interpolate(b, minBatch, maxBatch);
      var delay0 := Interpolate(b, minDelayMs, maxDelayMs);
      var delay := if avgLatencyMs.Some? && avgLatencyMs.value != 0.0 then
                     var slower := delay0 + Truncate(avgLatencyMs.value * 0.25);
                     if slower < maxDelayMs then slower else maxDelayMs
                   else delay0;
      (Clamp(minBatch, maxBatch, batch), Clamp(minDelayMs, maxDelayMs, delay))
    }
  }

  lemma TruncateMonotone(x: real, y: real)
    requires x <= y
    ensures Truncate(x) <= Truncate(y)
  {
  }

  lemma TruncateInt(n: int)
    ensures Truncate(n as real) == n
  {
  }

  lemma BetweenMonotone(r: real, s: real, low: int, high: int)
    requires r <= s && low <= high
    ensures Between(r, low, high) <= Between(s, low, high)
  {
    ProductNonNegative(s - r, (high - low) as real);
    assert (s - r) * (high - low) as real == s * (high - low) as real - r * (high - low) as real;
  }

  lemma ProductNonNegative(x: real, y: real)
    requires x >= 0.0 && y >= 0.0
    ensures x * y >= 0.0
  {
  }

  lemma RatioBounds(p: AdaptiveBatchPolicy, a: int, b: int)
    requires p.lowWatermark < a <= b < p.highWatermark
    ensures 0.0 <= p.Ratio(a) <= p.Ratio(b) <= 1.0
  {
    var span := (p.highWatermark - p.lowWatermark) as real;
    var x, y := (a - p.lowWatermark) as real, (b - p.lowWatermark) as real;
    assert x / span * span == x && y / span * span == y && span / span == 1.0;
    DivideMonotone(x, y, span);
    DivideMonotone(y, span, span);
    DivideMonotone(0.0, x, span);
  }

  lemma DivideMonotone(x: real, y: real, d: real)
    requires x <= y && d > 0.0
    ensures x / d <= y / d
  {
    var q := y / d - x / d;
    assert q * d == y - x;
    NonNegativeFactor(q, d);
  }

  lemma NonNegativeFactor(q: real, d: real)
    requires d > 0.0 && q * d >= 0.0
    ensures q >= 0.0
  {
  }

  // Between its ends the interpolation never leaves them and never falls.
  lemma InterpolateMonotone(p: AdaptiveBatchPolicy, a: int, b: int, low: int, high: int)
    requires a <= b && low <= high
    ensures low <= p.Interpolate(a, low, high) <= p.Interpolate(b, low, high) <= high
  {
    InterpolateInside(p, a, low, high);
    InterpolateInside(p, b, low, high);
    if p.lowWatermark < a && b < p.highWatermark {
      RatioBounds(p, a, b);
      BetweenMonotone(p.Ratio(a), p.Ratio(b), low, high);
      TruncateMonotone(Between(p.Ratio(a), low, high), Between(p.Ratio(b), low, high));
    }
  }

  lemma InterpolateInside(p: AdaptiveBatchPolicy, a: int, low: int, high: int)
    requires low <= high
    ensures low <= p.Interpolate(a, low, high) <= high
  {
    if p.lowWatermark < a < p.highWatermark {
      var x := Between(p.Ratio(a), low, high);
      RatioBounds(p, a, a);
      BetweenMonotone(0.0, p.Ratio(a), low, high);
      BetweenMonotone(p.Ratio(a), 1.0, low, high);
      assert Between(0.0, low, high) == low as real && Between(1.0, low, high) == high as real;
      TruncateInt(low);
      TruncateInt(high);
      TruncateMonotone(low as real, x);
      TruncateMonotone(x, high as real);
    }
  }

  // ---------------------------------------------------------------- exact values

  // Integer division towards zero.
  function Quotient(x: int, d: int): int
    requires d > 0
  {
    if x >= 0 then x / d else -((-x) / d)
  }

  lemma FloorQuotient(y: real, x: int, d: int)
    requires d > 0 && x >= 0 && y * d as real == x as real
    ensures y >= 0.0 && y.Floor == x / d
  {
    var q := x / d;
    QuotientBounds(x, d);
    NonNegativeFactor(y, d as real);
    Distance(y, x, d, q);
    NonNegativeFactor(y - q as real, d as real);
    Distance(y, x, d, q + 1);
    PositiveFactor((q + 1) as real - y, d as real);
  }

  lemma QuotientBounds(x: int, d: int)
    requires d > 0
    ensures x / d * d <= x < (x / d + 1) * d
  {
  }

  lemma Distance(y: real, x: int, d: int, q: int)
    requires y * d as real == x as real
    ensures (y - q as real) * d as real == (x - q * d) as real
    ensures (q as real - y) * d as real == (q * d - x) as real
  {
    var e, p := d as real, q as real;
    assert (y - p) * e == y * e - p * e;
    assert (p - y) * e == p * e - y * e;
    assert p * e == (q * d) as real;
  }

  lemma PositiveFactor(q: real, d: real)
    requires d > 0.0 && q * d > 0.0
    ensures q > 0.0
  {
  }

  lemma TruncateQuotient(y: real, x: int, d: int)
    requires d > 0 && y * d as real == x as real
    ensures Truncate(y) == Quotient(x, d)
  {
    if x >= 0 {
      FloorQuotient(y, x, d);
    } else {
      assert (-y) * d as real == (-x) as real;
      FloorQuotient(-y, -x, d);
    }
  }

  // The value up to the low watermark, from the high one, and on the straight line between them.
  lemma InterpolateExactly(p: AdaptiveBatchPolicy, backlog: int, low: int, high: int)
    ensures backlog <= p.lowWatermark ==> p.Interpolate(backlog, low, high) == low
    ensures backlog > p.lowWatermark && backlog >= p.highWatermark ==> p.Interpolate(backlog, low, high) == high
    ensures p.lowWatermark < backlog < p.highWatermark ==>
      var span := p.highWatermark - p.lowWatermark;
      p.Interpolate(backlog, low, high) ==
        Quotient(low * span + (backlog - p.lowWatermark) * (high - low), span)
  {
    if p.lowWatermark < backlog < p.highWatermark {
      var span, part := p.highWatermark - p.lowWatermark, backlog - p.lowWatermark;
      var r := p.Ratio(backlog);
      assert r * span as real == part as real;
      var y := Between(r, low, high);
      assert y * span as real == (low * span) as real + (r * span as real) * (high - low) as real;
      assert (part * (high - low)) as real == part as real * (high - low) as real;
      TruncateQuotient(y, low * span + part * (high - low), span);
    }
  }

  // What one of the two values is before it is kept within its limits.
  function Line(p: AdaptiveBatchPolicy, backlog: int, low: int, high: int): int {
    var b := if backlog > 0 then backlog else 0;
    if b <= p.lowWatermark then low
    else if b >= p.highWatermark then high
    else
      var span := p.highWatermark - p.lowWatermark;
      Quotient(low * span + (b - p.lowWatermark) * (high - low), span)
  }

  function Smaller(a: int, b: int): int {
    if a <= b then a else b
  }

  function Larger(a: int, b: int): int {
    if a >= b then a else b
  }

  // The tuner's results for all settings: a quarter of the latency is added to the delay, up to its limit.
  lemma TuneExactly(p: AdaptiveBatchPolicy, backlog: int, avgLatencyMs: Option<real>)
    ensures p.Tune(backlog, avgLatencyMs).0 ==
      Larger(p.minBatch, Smaller(p.maxBatch, Line(p, backlog, p.minBatch, p.maxBatch)))
    ensures var delay := Line(p, backlog, p.minDelayMs, p.maxDelayMs);
      p.Tune(backlog, avgLatencyMs).1 == Larger(p.minDelayMs, Smaller(p.maxDelayMs,
        if avgLatencyMs == None || avgLatencyMs == Some(0.0) then delay
        else Smaller(p.maxDelayMs, delay + Quarter(avgLatencyMs.value))))
  {
    var b := if backlog > 0 then backlog else 0;
    InterpolateExactly(p, b, p.minBatch, p.maxBatch);
    InterpolateExactly(p, b, p.minDelayMs, p.maxDelayMs);
    hide Quotient;
    if avgLatencyMs.Some? {
      assert avgLatencyMs.value * 0.25 == avgLatencyMs.value / 4.0;
    }
  }

  // A quarter, without the part behind the point.
  function Quarter(x: real): int {
    if x >= 0.0 then (x / 4.0).Floor else -((-x / 4.0).Floor)
  }

  // For a fixed latency a larger backlog never makes batches smaller or delays shorter, whatever the
  // limits and watermarks are.
  lemma TuneMonotone(p: AdaptiveBatchPolicy, a: int, b: int, avgLatencyMs: Option<real>)
    requires a <= b
    ensures p.Tune(a, avgLatencyMs).0 <= p.Tune(b, avgLatencyMs).0
    ensures p.Tune(a, avgLatencyMs).1 <= p.Tune(b, avgLatencyMs).1
  {
    var x, y := if a > 0 then a else 0, if b > 0 then b else 0;
    if p.minBatch <= p.maxBatch {
      InterpolateMonotone(p, x, y, p.minBatch, p.maxBatch);
    }
    if p.minDelayMs <= p.maxDelayMs {
      InterpolateMonotone(p, x, y, p.minDelayMs, p.maxDelayMs);
    }
  }

  datatype BackpressurePolicy = BackpressurePolicy(maxBacklog: int, hardLimit: int)
  {
    predicate ShouldAccept(backlog: int) {
      if backlog >= hardLimit then false else backlog < maxBacklog
    }

    // The backlog from which on nothing is accepted.
    function Limit(): (limit: int)
      ensures limit <= maxBacklog && limit <= hardLimit && (limit == maxBacklog || limit == hardLimit)
    {
      if maxBacklog < hardLimit then maxBacklog else hardLimit
    }
  }
}
