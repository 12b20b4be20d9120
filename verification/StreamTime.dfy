/** Instants on a stream's clock, durations between them, and the conversion of frame counts. */
module StreamTime {
  import opened Wrappers

  const U64: nat := 0x1_0000_0000_0000_0000
  const U128: nat := 0x1_0000_0000_0000_0000_0000_0000_0000_0000
  const U32: nat := 0x1_0000_0000

  datatype Time = Time(secs: nat, nanos: nat)

  /** A `u64` of seconds and less than a second of nanoseconds, which is what both an instant and a
      duration are. */
  type Stamp = t: Time | t.secs < 0x1_0000_0000_0000_0000 && t.nanos < 1_000_000_000 witness Time(0, 0)

  const ZERO: Stamp := Time(0, 0)

  function AsNanos(t: Stamp): (n: nat)
    ensures n < 18_446_744_073_709_551_616_000_000_000
  {
    t.secs * 1_000_000_000 + t.nanos
  }

  /** The order derived from the fields. */
  predicate Before(a: Stamp, b: Stamp) { a.secs < b.secs || (a.secs == b.secs && a.nanos < b.nanos) }

  /** The last step of every operation: split, and fail if the seconds do not fit. */
  function OfNanos(total: nat): Option<Stamp> {
    var secs := total / 1_000_000_000;
    if secs < U64 then Some(Time(secs, total % 1_000_000_000)) else None
  }

  /** The sums are taken in 128 bits, where they cannot overflow. */
  lemma SumFits(t: Stamp, d: Stamp)
    ensures AsNanos(t) + AsNanos(d) < U128
  {
  }

  function CheckedAdd(t: Stamp, d: Stamp): Option<Stamp> {
    SumFits(t, d);
    OfNanos(AsNanos(t) + AsNanos(d))
  }

  function CheckedSub(t: Stamp, d: Stamp): Option<Stamp> {
    if AsNanos(t) < AsNanos(d) then None else OfNanos(AsNanos(t) - AsNanos(d))
  }

  function CheckedDurationSince(t: Stamp, earlier: Stamp): Option<Stamp> {
    if Before(t, earlier) then None
    else
      OrderAgrees(t, earlier);
      OfNanos(AsNanos(t) - AsNanos(earlier))
  }

  /** `StreamInstant::new` and `Duration::new`: whole seconds in `nanos` are carried, and a carry that does
      not fit is a panic. */
  function New(secs: nat, nanos: nat): (t: Option<Stamp>)
    requires secs < U64 && nanos < U32
    ensures t.None? <==> secs + nanos / 1_000_000_000 >= U64
    ensures t.Some? ==> AsNanos(t.value) == secs * 1_000_000_000 + nanos
  {
    var total := secs + nanos / 1_000_000_000;
    if total < U64 then Some(Time(total, nanos % 1_000_000_000)) else None
  }

  function FromNanos(nanos: nat): Option<Stamp>
    requires nanos < U64
  {
    New(nanos / 1_000_000_000, nanos % 1_000_000_000)
  }

  function FromMicros(micros: nat): Option<Stamp>
    requires micros < U64
  {
    New(micros / 1_000_000, micros % 1_000_000 * 1_000)
  }

  function FromMillis(millis: nat): Option<Stamp>
    requires millis < U64
  {
    New(millis / 1_000, millis % 1_000 * 1_000_000)
  }

  // ---------------------------------------------------------------------------------------------
  // Stamps are the numbers below 2^64 seconds
  // ---------------------------------------------------------------------------------------------

  lemma OfNanosIsInverse(total: nat, t: Stamp)
    ensures OfNanos(total) == Some(t) <==> AsNanos(t) == total
    ensures OfNanos(total).None? <==> total >= 18_446_744_073_709_551_616_000_000_000
  {
  }

  lemma OrderAgrees(a: Stamp, b: Stamp)
    ensures Before(a, b) <==> AsNanos(a) < AsNanos(b)
    ensures a == b <==> AsNanos(a) == AsNanos(b)
  {
  }

  /** Addition is exact, and fails exactly if the sum is not an instant. */
  lemma AddIsExact(t: Stamp, d: Stamp, u: Stamp)
    ensures CheckedAdd(t, d) == Some(u) <==> AsNanos(t) + AsNanos(d) == AsNanos(u)
    ensures CheckedAdd(t, d).None? <==> AsNanos(t) + AsNanos(d) >= 18_446_744_073_709_551_616_000_000_000
  {
    hide AsNanos;
    hide OfNanos;
    OfNanosIsInverse(AsNanos(t) + AsNanos(d), u);
  }

  /** Subtraction is exact, and fails exactly if the difference is negative. */
  lemma SubIsExact(t: Stamp, d: Stamp, u: Stamp)
    ensures CheckedSub(t, d) == Some(u) <==> AsNanos(u) + AsNanos(d) == AsNanos(t)
    ensures CheckedSub(t, d).None? <==> AsNanos(t) < AsNanos(d)
  {
    hide AsNanos;
    hide OfNanos;
    if AsNanos(t) >= AsNanos(d) {
      OfNanosIsInverse(AsNanos(t) - AsNanos(d), u);
    }
  }

  lemma DurationIsExact(t: Stamp, earlier: Stamp, d: Stamp)
    ensures CheckedDurationSince(t, earlier) == Some(d) <==> AsNanos(earlier) + AsNanos(d) == AsNanos(t)
    ensures CheckedDurationSince(t, earlier).None? <==> Before(t, earlier)
  {
    hide AsNanos;
    hide OfNanos;
    OrderAgrees(t, earlier);
    if AsNanos(t) >= AsNanos(earlier) {
      OfNanosIsInverse(AsNanos(t) - AsNanos(earlier), d);
    }
  }

  /** Adding, subtracting and measuring are the same relation read in three directions. */
  lemma InstantArithmetic(t: Stamp, d: Stamp, u: Stamp)
    ensures CheckedAdd(t, d) == Some(u) <==> CheckedSub(u, d) == Some(t)
    ensures CheckedAdd(t, d) == Some(u) <==> CheckedDurationSince(u, t) == Some(d)
  {
    AddIsExact(t, d, u);
    SubIsExact(u, d, t);
    DurationIsExact(u, t, d);
  }

  /** What the constructors make is the instant they are asked for, in whatever unit. */
  lemma ConstructorsAreExact(secs: nat, nanos: nat, n: nat)
    requires secs < U64 && nanos < U32 && n < U64
    ensures New(secs, nanos).None? <==> secs * 1_000_000_000 + nanos >= 18_446_744_073_709_551_616_000_000_000
    ensures New(secs, nanos).Some? ==> AsNanos(New(secs, nanos).value) == secs * 1_000_000_000 + nanos
    ensures FromNanos(n).Some? && AsNanos(FromNanos(n).value) == n
    ensures FromMicros(n).Some? && AsNanos(FromMicros(n).value) == n * 1_000
    ensures FromMillis(n).Some? && AsNanos(FromMillis(n).value) == n * 1_000_000
  {
  }

  // ---------------------------------------------------------------------------------------------
  // Frames to durations
  // ---------------------------------------------------------------------------------------------

  // Division by a rate is not linear to the solver, so the proofs work with its bounds.

  function Quotient(n: nat, d: nat): nat
    requires d > 0
  {
    n / d
  }

  function Remainder(n: nat, d: nat): nat
    requires d > 0
  {
    n % d
  }

  /** The intermediate value that has to fit 64 bits. */
  function Scaled(frames: nat, rate: nat): nat
    requires rate > 0
  {
    Remainder(frames, rate) * 1_000_000_000 + rate / 2
  }

  function FramesToDuration(frames: nat, rate: nat): Stamp
    requires frames < U32 && rate < U32
  {
    if rate == 0 then ZERO
    else
      hide Quotient;
      hide Scaled;
      ScaledFits(frames, rate);
      New(Quotient(frames, rate), Quotient(Scaled(frames, rate), rate)).value
  }

  /** No step overflows its type: the scaled remainder fits 64 bits, the nanoseconds 32, and the carry
      that rounding up to a full second causes fits the seconds. */
  lemma ScaledFits(frames: nat, rate: nat)
    requires frames < U32 && 0 < rate < U32
    ensures Scaled(frames, rate) < U64
    ensures Quotient(frames, rate) < U32 && Quotient(Scaled(frames, rate), rate) <= 1_000_000_000
  {
    Euclid(frames, rate);
    hide Quotient;
    hide Remainder;
    DivideBelow(Scaled(frames, rate), rate, 1_000_000_001);
    DivideBelow(frames, rate, U32);
  }

  lemma Euclid(n: nat, d: nat)
    requires d > 0
    ensures Quotient(n, d) * d + Remainder(n, d) == n && Remainder(n, d) < d
  {
  }

  lemma Negative(x: int, d: nat)
    requires d > 0 && x * d < 0
    ensures x < 0
  {
  }

  lemma DivideBelow(n: nat, d: nat, q: nat)
    requires 0 < d && n < q * d
    ensures Quotient(n, d) < q
  {
    Euclid(n, d);
    hide Quotient;
    var p := Quotient(n, d);
    assert (p - q) * d == p * d - q * d;
    Negative(p - q, d);
  }

  lemma DivideUnique(n: nat, d: nat, q: nat)
    requires 0 < d && q * d <= n < q * d + d
    ensures Quotient(n, d) == q
  {
    Euclid(n, d);
    hide Quotient;
    hide Remainder;
    var p := Quotient(n, d);
    assert (p - q - 1) * d == p * d - q * d - d;
    assert (q - p - 1) * d == q * d - p * d - d;
    Negative(p - q - 1, d);
    Negative(q - p - 1, d);
  }

  /** Dividing `frames` seconds' worth in two parts. */
  lemma DivideInParts(frames: nat, rate: nat, secs: nat, rem: nat, nanos: nat, half: nat)
    requires rate > 0 && frames == secs * rate + rem
    requires nanos * rate <= rem * 1_000_000_000 + half < nanos * rate + rate
    ensures Quotient(frames * 1_000_000_000 + half, rate) == secs * 1_000_000_000 + nanos
  {
    hide Quotient;
    var q := secs * 1_000_000_000 + nanos;
    assert q * rate == secs * rate * 1_000_000_000 + nanos * rate;
    DivideUnique(frames * 1_000_000_000 + half, rate, q);
  }

  /** Splitting off whole seconds first does not change the result: it is the exact quotient rounded to
      the nearest nanosecond. */
  lemma FramesToDurationIsQuotient(frames: nat, rate: nat)
    requires frames < U32 && 0 < rate < U32
    ensures AsNanos(FramesToDuration(frames, rate)) == (frames * 1_000_000_000 + rate / 2) / rate
  {
    assert (frames * 1_000_000_000 + rate / 2) / rate == Quotient(frames * 1_000_000_000 + rate / 2, rate);
    hide AsNanos;
    hide New;
    hide Quotient;
    hide Scaled;
    ScaledFits(frames, rate);
    ScaledQuotient(frames, rate);
  }

  lemma ScaledQuotient(frames: nat, rate: nat)
    requires rate > 0
    ensures Quotient(frames, rate) * 1_000_000_000 + Quotient(Scaled(frames, rate), rate) ==
            Quotient(frames * 1_000_000_000 + rate / 2, rate)
  {
    hide Quotient;
    hide Remainder;
    Euclid(frames, rate);
    Euclid(Scaled(frames, rate), rate);
    DivideInParts(frames, rate, Quotient(frames, rate), Remainder(frames, rate), Quotient(Scaled(frames, rate), rate),
                  rate / 2);
  }

  /** So it is within half a nanosecond of frames over rate, */
  lemma FramesToDurationIsNearest(frames: nat, rate: nat)
    requires frames < U32 && rate < U32
    ensures rate == 0 ==> AsNanos(FramesToDuration(frames, rate)) == 0
    ensures rate > 0 ==>
            var error := AsNanos(FramesToDuration(frames, rate)) * rate - frames * 1_000_000_000;
            -(rate as int) <= 2 * error <= rate
  {
    if rate > 0 {
      FramesToDurationIsQuotient(frames, rate);
      Euclid(frames * 1_000_000_000 + rate / 2, rate);
    } else {
      assert FramesToDuration(frames, rate) == ZERO && AsNanos(ZERO) == 0;
    }
    hide FramesToDuration;
    hide AsNanos;
  }

  lemma DivideMonotone(n: nat, m: nat, d: nat)
    requires d > 0 && n <= m
    ensures n / d <= m / d
  {
    assert n / d == Quotient(n, d) && m / d == Quotient(m, d);
    hide Quotient;
    hide Remainder;
    Euclid(m, d);
    DivideBelow(n, d, Quotient(m, d) + 1);
  }

  /** and never decreases as frames pass. */
  lemma FramesToDurationIsMonotone(f: nat, g: nat, rate: nat)
    requires f <= g < U32 && rate < U32
    ensures !Before(FramesToDuration(g, rate), FramesToDuration(f, rate))
  {
    OrderAgrees(FramesToDuration(g, rate), FramesToDuration(f, rate));
    if rate > 0 {
      hide FramesToDuration;
      hide AsNanos;
      hide Before;
      FramesToDurationIsQuotient(f, rate);
      FramesToDurationIsQuotient(g, rate);
      DivideMonotone(f * 1_000_000_000 + rate / 2, g * 1_000_000_000 + rate / 2, rate);
    }
  }

  // ---------------------------------------------------------------------------------------------
  // Timestamps that never go back
  // ---------------------------------------------------------------------------------------------

  function Saturated(t: Stamp): (n: nat)
    ensures n < U64 && (n == AsNanos(t) || n == U64 - 1 < AsNanos(t))
  {
    if AsNanos(t) < U64 then AsNanos(t) else U64 - 1
  }

  function Highest(instants: seq<Stamp>): (n: nat)
    ensures n < U64
    ensures forall k :: 0 <= k < |instants| ==> Saturated(instants[k]) <= n
  {
    if instants == [] then 0
    else
      var k := |instants| - 1;
      var before := Highest(instants[..k]);
      if before < Saturated(instants[k]) then Saturated(instants[k]) else before
  }

  lemma {:induction false} HighestIsReached(instants: seq<Stamp>)
    requires instants != []
    ensures exists k :: 0 <= k < |instants| && Highest(instants) == Saturated(instants[k])
  {
    hide Saturated;
    var k := |instants| - 1;
    if k == 0 {
      assert instants[..0] == [];
      assert Highest(instants) == Saturated(instants[0]);
    } else {
      HighestIsReached(instants[..k]);
      var j :| 0 <= j < k && Highest(instants[..k]) == Saturated(instants[..k][j]);
      assert instants[..k][j] == instants[j];
    }
  }

  /** The floor a wrapped callback keeps between calls. */
  class Monotonic {
    var floor: nat

    constructor ()
      ensures floor == 0
    {
      floor := 0;
    }

    method NonDecreasing(instant: Stamp) returns (r: Stamp)
      requires floor < U64
      modifies this
      ensures floor < U64 && AsNanos(r) == floor
      ensures floor == if old(floor) < Saturated(instant) then Saturated(instant) else old(floor)
    {
      var nanos := Saturated(instant);
      if floor < nanos {
        floor := nanos;
      }
      ConstructorsAreExact(0, 0, floor);
      r := FromNanos(floor).value;
    }
  }

  /** The timestamps a wrapped callback sees over any run: each is the highest reported so far. */
  method Wrap(instants: seq<Stamp>) returns (seen: seq<Stamp>)
    ensures |seen| == |instants|
    ensures forall k :: 0 <= k < |seen| ==> AsNanos(seen[k]) == Highest(instants[..k + 1])
  {
    hide AsNanos;
    seen := [];
    var m := new Monotonic();
    for k := 0 to |instants|
      invariant |seen| == k && m.floor == Highest(instants[..k])
      invariant forall j :: 0 <= j < k ==> AsNanos(seen[j]) == Highest(instants[..j + 1])
    {
      var r := m.NonDecreasing(instants[k]);
      assert instants[..k + 1][..k] == instants[..k];
      seen := seen + [r];
    }
  }

  lemma {:induction false} HighestGrows(instants: seq<Stamp>, i: nat, j: nat)
    requires i <= j <= |instants|
    ensures Highest(instants[..i]) <= Highest(instants[..j])
  {
    if i < j {
      HighestGrows(instants, i, j - 1);
      assert instants[..j][..j - 1] == instants[..j - 1];
    }
  }

  /** They never go back, */
  lemma SeenNeverGoesBack(instants: seq<Stamp>, seen: seq<Stamp>, i: nat, j: nat)
    requires |seen| == |instants| && i <= j < |seen|
    requires forall k :: 0 <= k < |seen| ==> AsNanos(seen[k]) == Highest(instants[..k + 1])
    ensures !Before(seen[j], seen[i])
  {
    HighestGrows(instants, i + 1, j + 1);
    OrderAgrees(seen[j], seen[i]);
  }

  /** and a clock that does not go back itself is passed on unchanged, up to 2^64 nanoseconds. */
  lemma {:induction false} HighestOfAscending(instants: seq<Stamp>, k: nat)
    requires k < |instants|
    requires forall i, j :: 0 <= i < j < |instants| ==> !Before(instants[j], instants[i])
    requires AsNanos(instants[k]) < U64
    ensures Highest(instants[..k + 1]) == AsNanos(instants[k])
  {
    assert instants[..k + 1][..k] == instants[..k];
    if k > 0 {
      OrderAgrees(instants[k], instants[k - 1]);
      HighestOfAscending(instants, k - 1);
    }
  }
}
