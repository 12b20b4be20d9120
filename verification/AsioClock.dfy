/** Extending the 32-bit millisecond counter behind an ASIO stream to 64 bits of nanoseconds. */
module AsioClock {
  const U64: nat := 0x1_0000_0000_0000_0000

  /** One full turn of the counter, 2^32 milliseconds, in nanoseconds. */
  const WRAP: nat := 4_294_967_296_000_000

  // The literal is repeated below because products with a named constant are not linear to the
  // solver.

  function Turn(t: nat): nat { t / 4_294_967_296_000_000 }

  /** What the counter shows at instant `t` of the true clock. */
  function Phase(t: nat): nat { t % 4_294_967_296_000_000 }

  function At(turn: nat, phase: nat): nat { turn * 4_294_967_296_000_000 + phase }

  /** Addition on 64 bits wraps around. */
  function Wrapping(n: nat): (r: nat)
    ensures r < U64 && (n < U64 ==> r == n)
  {
    n % U64
  }

  /** How often a sequence of readings goes down, which is how often the counter was seen to wrap. */
  function Descents(readings: seq<nat>): (n: nat)
    ensures n <= |readings|
  {
    if |readings| < 2 then 0
    else
      var k := |readings| - 1;
      Descents(readings[..k]) + if readings[k] < readings[k - 1] then 1 else 0
  }

  /** The instant returned for the last of a non-empty sequence of readings. */
  function Instant(readings: seq<nat>): nat
    requires readings != []
  {
    At(Descents(readings), readings[|readings| - 1])
  }

  /** What the counter shows at each of the given instants of the true clock. */
  function Readings(times: seq<nat>): (r: seq<nat>)
    ensures |r| == |times| && forall k :: 0 <= k < |r| ==> r[k] == Phase(times[k])
  {
    seq(|times|, k requires 0 <= k < |times| => Phase(times[k]))
  }

  predicate InTurn(readings: seq<nat>) {
    forall k :: 0 <= k < |readings| ==> readings[k] < WRAP
  }

  predicate NonDecreasing(times: seq<nat>) {
    forall k :: 1 <= k < |times| ==> times[k - 1] <= times[k]
  }

  /** Consecutive readings are less than one turn of the counter apart. */
  predicate Frequent(times: seq<nat>) {
    forall k :: 1 <= k < |times| ==> times[k] - times[k - 1] < WRAP
  }

  /** The shared state behind `now()` and the callbacks. */
  class TimeBase {
    var lastNs: nat
    var epochNs: nat
    /** Every reading so far. */
    ghost var readings: seq<nat>

    ghost predicate Valid()
      reads this
    {
      && lastNs == (if readings == [] then 0 else readings[|readings| - 1])
      && epochNs == Wrapping(At(Descents(readings), 0))
    }

    constructor ()
      ensures Valid() && readings == []
    {
      lastNs, epochNs, readings := 0, 0, [];
    }

    /** The instant of a reading: the reading, plus one turn of the counter for every time it has been seen
        to go down. */
    method ToStreamInstant(ns: nat) returns (instant: nat)
      requires Valid()
      modifies this
      ensures Valid() && readings == old(readings) + [ns]
      ensures instant == Wrapping(Instant(readings))
    {
      hide Wrapping;
      hide Descents;
      var prev := lastNs;
      lastNs := ns;
      OneMoreReading(readings, ns);
      if ns < prev {
        WrappingSum(At(Descents(readings), 0), WRAP);
        epochNs := Wrapping(epochNs + WRAP);
      }
      readings := readings + [ns];
      WrappingSum(At(Descents(readings), 0), ns);
      instant := Wrapping(epochNs + ns);
    }
  }

  /** Wrapping early makes no difference. */
  lemma WrappingSum(a: nat, b: nat)
    ensures Wrapping(Wrapping(a) + b) == Wrapping(a + b)
  {
  }

  lemma OneMoreReading(readings: seq<nat>, ns: nat)
    ensures Descents(readings + [ns]) ==
            Descents(readings) + if readings != [] && ns < readings[|readings| - 1] then 1 else 0
  {
    assert (readings + [ns])[..|readings|] == readings;
  }

  /** Feeds a sequence of readings to a fresh time base. */
  method Replay(readings: seq<nat>) returns (instants: seq<nat>)
    ensures |instants| == |readings|
    ensures forall k :: 0 <= k < |readings| ==> instants[k] == Wrapping(Instant(readings[..k + 1]))
    // Nothing wraps around as long as the last instant fits 64 bits.
    ensures InTurn(readings) && readings != [] && Instant(readings) < U64 ==>
              forall k :: 0 <= k < |readings| ==> instants[k] == Instant(readings[..k + 1])
  {
    var base := new TimeBase();
    instants := [];
    for k := 0 to |readings|
      invariant base.Valid() && base.readings == readings[..k] && |instants| == k
      invariant forall j :: 0 <= j < k ==> instants[j] == Wrapping(Instant(readings[..j + 1]))
    {
      var instant := base.ToStreamInstant(readings[k]);
      instants := instants + [instant];
    }
    if InTurn(readings) && readings != [] && Instant(readings) < U64 {
      forall k | 0 <= k < |readings|
        ensures instants[k] == Instant(readings[..k + 1])
      {
        PrefixInstant(readings, k + 1);
      }
    }
  }

  /** Instants never decrease, whatever the counter shows. */
  lemma {:induction false} PrefixInstant(readings: seq<nat>, k: nat)
    requires 0 < k <= |readings| && InTurn(readings)
    ensures Instant(readings[..k]) <= Instant(readings)
  {
    if k == |readings| {
      assert readings[..k] == readings;
    } else {
      var shorter := readings[..|readings| - 1];
      PrefixInstant(shorter, k);
      assert shorter[..k] == readings[..k];
      assert shorter[|shorter| - 1] < WRAP;
    }
  }

  /** Between two readings the counter is seen to wrap at most as often as it did, and exactly as often
      if and only if less than one turn lies between them. */
  lemma OneGap(a: nat, b: nat)
    requires a <= b
    ensures var seen := if Phase(b) < Phase(a) then 1 else 0;
            var wraps := Turn(b) - Turn(a);
            seen <= wraps && (seen == wraps <==> b - a < WRAP)
  {
  }

  lemma FrequentLast(times: seq<nat>)
    requires |times| >= 2
    ensures Frequent(times) <==>
            Frequent(times[..|times| - 1]) && times[|times| - 1] - times[|times| - 2] < WRAP
  {
    var k := |times| - 1;
    assert times == times[..k] + [times[k]];
  }

  lemma {:induction false} DescentsAgainstWraps(times: seq<nat>)
    requires times != [] && NonDecreasing(times)
    ensures Descents(Readings(times)) <= Turn(times[|times| - 1]) - Turn(times[0])
    ensures Descents(Readings(times)) == Turn(times[|times| - 1]) - Turn(times[0]) <==> Frequent(times)
  {
    hide Turn;
    hide Phase;
    var k := |times| - 1;
    if k > 0 {
      var shorter := times[..k];
      DescentsAgainstWraps(shorter);
      OneGap(times[k - 1], times[k]);
      assert Readings(times)[..k] == Readings(shorter);
      FrequentLast(times);
    }
  }

  /** The time base returns the true time, less the whole turns before the first reading, exactly as
      long as it is read at least once per turn of the counter. */
  lemma ExactIffReadOften(times: seq<nat>)
    requires times != [] && NonDecreasing(times)
    ensures Instant(Readings(times)) == times[|times| - 1] - At(Turn(times[0]), 0) <==> Frequent(times)
  {
    DescentsAgainstWraps(times);
  }
}
