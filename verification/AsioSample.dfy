/** Integer samples as the bytes an ASIO buffer holds, in either byte order. */
module AsioSample {
  type Byte = b: int | 0 <= b < 256

  /** A sample as it lies in memory. */
  type Word = seq<Byte>

  /** How many values fit in `width` bytes. */
  function Span(width: nat): (n: nat)
    ensures n > 0 && (width > 0 ==> n % 2 == 0)
  {
    if width == 0 then 1 else 256 * Span(width - 1)
  }

  predicate InRange(v: int, width: nat) { -(Span(width) / 2) <= v < Span(width) / 2 }

  function ToDigits(u: nat, width: nat): (word: Word)
    ensures |word| == width
  {
    if width == 0 then [] else [u % 256] + ToDigits(u / 256, width - 1)
  }

  function FromDigits(word: Word): (u: nat)
    ensures u < Span(|word|)
  {
    if word == [] then 0 else word[0] + 256 * FromDigits(word[1..])
  }

  function Reverse(word: Word): (r: Word)
    ensures |r| == |word|
    ensures forall k :: 0 <= k < |word| ==> r[k] == word[|word| - 1 - k]
  {
    seq(|word|, k requires 0 <= k < |word| => word[|word| - 1 - k])
  }

  /** Two's complement in `width` bytes, least significant byte first if `little`. */
  function Encode(v: int, width: nat, little: bool): (word: Word)
    ensures |word| == width
  {
    var digits := ToDigits(v % Span(width), width);
    if little then digits else Reverse(digits)
  }

  function Decode(word: Word, little: bool): int {
    var u := FromDigits(if little then word else Reverse(word));
    if u < Span(|word|) / 2 then u else u - Span(|word|)
  }

  lemma {:induction false} DigitsRoundTrip(u: nat, width: nat)
    requires u < Span(width)
    ensures FromDigits(ToDigits(u, width)) == u
  {
    if width > 0 {
      DigitsRoundTrip(u / 256, width - 1);
    }
  }

  lemma {:induction false} DigitsAreUnique(word: Word)
    ensures ToDigits(FromDigits(word), |word|) == word
  {
    if word != [] {
      DigitsAreUnique(word[1..]);
      LastDigit(word[0], FromDigits(word[1..]));
    }
  }

  lemma LastDigit(b: Byte, rest: nat)
    ensures (b + 256 * rest) % 256 == b && (b + 256 * rest) / 256 == rest
  {
  }

  /** Digit `k` counts multiples of `256^k`. */
  lemma {:induction false} DigitAt(u: nat, width: nat, k: nat)
    requires k < width
    ensures ToDigits(u, width)[k] == u / Span(k) % 256
  {
    if k > 0 {
      DigitAt(u / 256, width - 1, k - 1);
      Nested(u, Span(k - 1));
    }
  }

  lemma Nested(u: nat, n: nat)
    requires n > 0
    ensures u / 256 / n == u / (256 * n)
  {
    var q := u / 256 / n;
    var low, high := u % 256, u / 256 % n;
    assert u == 256 * (n * q + high) + low;
    assert 256 * (n * q + high) == 256 * n * q + 256 * high;
    assert 256 * high + low < 256 * n;
    Quotient(u, 256 * n, q, 256 * high + low);
  }

  lemma Quotient(u: nat, n: nat, q: nat, r: nat)
    requires u == n * q + r && r < n
    ensures u / n == q
  {
    assert u == n * (u / n) + u % n;
    OneMore(n, u / n, q);
    OneMore(n, q, u / n);
  }

  lemma OneMore(n: nat, a: nat, b: nat)
    ensures a < b ==> n * a + n <= n * b
  {
    if a < b {
      var d := b - a - 1;
      assert b == a + 1 + d;
      assert n * b == n * a + n + n * d;
    }
  }

  /** In memory the least significant byte comes first in the one order and last in the other. */
  lemma ByteOrder(v: int, width: nat, k: nat)
    requires k < width
    ensures Encode(v, width, true)[k] == v % Span(width) / Span(k) % 256
    ensures Encode(v, width, false)[width - 1 - k] == v % Span(width) / Span(k) % 256
  {
    DigitAt(v % Span(width), width, k);
  }

  lemma ReverseTwice(word: Word)
    ensures Reverse(Reverse(word)) == word
  {
  }

  lemma Residue(v: int, n: int)
    requires n > 0 && -n <= v < n
    ensures v % n == if v < 0 then v + n else v
  {
  }

  /** Packing and unpacking is the identity on every value that fits, in both byte orders. */
  lemma DecodeEncode(v: int, width: nat, little: bool)
    requires InRange(v, width)
    ensures Decode(Encode(v, width, little), little) == v
  {
    var u := v % Span(width);
    assert u == if v < 0 then v + Span(width) else v by { Residue(v, Span(width)); }
    DigitsRoundTrip(u, width);
    ReverseTwice(ToDigits(u, width));
  }

  /** Every word is the packing of the value it unpacks to. */
  lemma EncodeDecode(word: Word, little: bool)
    requires word != []
    ensures InRange(Decode(word, little), |word|)
    ensures Encode(Decode(word, little), |word|, little) == word
  {
    var digits := if little then word else Reverse(word);
    var v := Decode(word, little);
    Residue(v, Span(|word|));
    assert v % Span(|word|) == FromDigits(digits);
    DigitsAreUnique(digits);
    ReverseTwice(word);
  }

  /** The 32-bit value with these low bytes and a zero byte on top. */
  function Widen(low: int, middle: int, high: int): int { low + 0x100 * middle + 0x10000 * high }

  /** `i24_bytes_to_i32`: three bytes widened with a zero byte, then the sign bit spread upwards. */
  function I24BytesToI32(bytes: Word, little: bool): int
    requires |bytes| == 3
  {
    var sample := if little then Widen(bytes[0], bytes[1], bytes[2]) else Widen(bytes[2], bytes[1], bytes[0]);
    if sample / 0x800000 % 2 != 0 then sample - 0x1000000 else sample
  }

  /** The low three bytes of the 32-bit value, in the order the buffer wants them. */
  function I32ToI24Bytes(v: int, little: bool): (bytes: Word)
    ensures |bytes| == 3
  {
    if little then [v % 256, v / 0x100 % 256, v / 0x10000 % 256]
    else [v / 0x10000 % 256, v / 0x100 % 256, v % 256]
  }

  /** The hand-written 24-bit unpacking is the general one at width three, */
  lemma I24UnpackIsDecode(bytes: Word, little: bool)
    requires |bytes| == 3
    ensures I24BytesToI32(bytes, little) == Decode(bytes, little)
  {
    SpanOfThree();
    ThreeDigits(if little then bytes else Reverse(bytes));
  }

  lemma ThreeDigits(digits: Word)
    requires |digits| == 3
    ensures FromDigits(digits) == Widen(digits[0], digits[1], digits[2])
  {
    assert FromDigits(digits[1..]) == digits[1] + 256 * FromDigits(digits[2..]);
    assert FromDigits(digits[2..]) == digits[2] + 256 * FromDigits(digits[3..]);
  }

  /** and so is the packing, although it takes bytes of the 32-bit value and not of its residue. */
  lemma I24PackIsEncode(v: int, little: bool)
    requires InRange(v, 3)
    ensures I32ToI24Bytes(v, little) == Encode(v, 3, little)
  {
    var bytes := I32ToI24Bytes(v, true);
    LowBytes(v);
    SpanOfThree();
    DigitsAreUnique(bytes);
    assert I32ToI24Bytes(v, false) == Reverse(bytes);
  }

  lemma LowBytes(v: int)
    ensures FromDigits(I32ToI24Bytes(v, true)) == v % 0x1000000
  {
    ThreeDigits(I32ToI24Bytes(v, true));
    ThreeBytes(v);
  }

  lemma ThreeBytes(v: int)
    ensures Widen(v % 256, v / 0x100 % 256, v / 0x10000 % 256) == v % 0x1000000
  {
    var q := v / 256;
    var p := q / 256;
    assert p == v / 0x10000 by { DivideTwice(v); }
    Remainder(v, Widen(v % 256, q % 256, p % 256), p / 256);
  }

  lemma DivideTwice(v: int)
    ensures v / 256 / 256 == v / 0x10000
  {
  }

  lemma Remainder(v: int, r: int, q: int)
    requires v == r + 0x1000000 * q && 0 <= r < 0x1000000
    ensures v % 0x1000000 == r
  {
  }

  lemma SpanOfThree()
    ensures Span(3) == 0x1000000
  {
  }

  /** Addition that stops at the ends of the range. */
  function SatAdd(a: int, b: int, width: nat): (r: int)
    ensures width > 0 ==> InRange(r, width)
    ensures width > 0 && InRange(a + b, width) ==> r == a + b
  {
    var half := Span(width) / 2;
    if a + b < -half then -half else if a + b >= half then half - 1 else a + b
  }

  function Abs(v: int): nat { if v < 0 then -v else v }

  /** Of all values that fit, `r` is the nearest to `v`. */
  ghost predicate IsNearest(r: int, v: int, width: nat) {
    InRange(r, width) && forall u :: InRange(u, width) ==> Abs(r - v) <= Abs(u - v)
  }

  lemma NearestIsUnique(r: int, q: int, v: int, width: nat)
    requires width > 0 && IsNearest(r, v, width) && IsNearest(q, v, width)
    ensures r == q
  {
    if r != q {
      var u := (r + q) / 2;
      assert InRange(u, width);
    }
  }

  /** A sum that does not fit becomes the end of the range on its own side. */
  lemma SatAddIsNearest(a: int, b: int, width: nat)
    requires width > 0
    ensures IsNearest(SatAdd(a, b, width), a + b, width)
    ensures a + b >= Span(width) / 2 ==> SatAdd(a, b, width) == Span(width) / 2 - 1
    ensures a + b < -(Span(width) / 2) ==> SatAdd(a, b, width) == -(Span(width) / 2)
  {
  }

  /** Left-to-right saturating sum. */
  function Mix(start: int, samples: seq<int>, width: nat): int {
    if samples == [] then start
    else SatAdd(Mix(start, samples[..|samples| - 1], width), samples[|samples| - 1], width)
  }

  /** The sum as it would be without an end to the range. */
  function Sum(start: int, samples: seq<int>): int {
    if samples == [] then start else Sum(start, samples[..|samples| - 1]) + samples[|samples| - 1]
  }

  predicate NoneBelow(start: int, samples: seq<int>) {
    start >= 0 && forall k :: 0 <= k < |samples| ==> samples[k] >= 0
  }

  predicate NoneAbove(start: int, samples: seq<int>) {
    start <= 0 && forall k :: 0 <= k < |samples| ==> samples[k] <= 0
  }

  predicate OneSign(start: int, samples: seq<int>) { NoneBelow(start, samples) || NoneAbove(start, samples) }

  /** Samples that do not cancel mix to the value nearest to their true sum, in whatever order they come. */
  lemma {:induction false} MixOfOneSign(start: int, samples: seq<int>, width: nat)
    requires width > 0 && InRange(start, width) && OneSign(start, samples)
    ensures IsNearest(Mix(start, samples, width), Sum(start, samples), width)
    ensures NoneBelow(start, samples) ==> Sum(start, samples) >= 0
    ensures NoneAbove(start, samples) ==> Sum(start, samples) <= 0
  {
    if samples != [] {
      var k := |samples| - 1;
      MixOfOneSign(start, samples[..k], width);
      NearestOfMore(Sum(start, samples[..k]), samples[k], Mix(start, samples[..k], width), width);
    }
  }

  lemma NearestOfMore(sum: int, sample: int, near: int, width: nat)
    requires width > 0 && IsNearest(near, sum, width)
    requires (sum >= 0 && sample >= 0) || (sum <= 0 && sample <= 0)
    ensures IsNearest(SatAdd(near, sample, width), sum + sample, width)
  {
    var half := Span(width) / 2;
    assert InRange(if sum < -half then -half else if sum >= half then half - 1 else sum, width);
    assert near == if sum < -half then -half else if sum >= half then half - 1 else sum;
  }

  /** Samples none of whose partial sums leaves the range mix to their true sum. */
  lemma {:induction false} MixInRange(start: int, samples: seq<int>, width: nat)
    requires width > 0
    requires forall k :: 0 <= k <= |samples| ==> InRange(Sum(start, samples[..k]), width)
    ensures Mix(start, samples, width) == Sum(start, samples)
  {
    if samples != [] {
      var k := |samples| - 1;
      assert samples[..k + 1] == samples;
      forall j | 0 <= j <= k
        ensures InRange(Sum(start, samples[..k][..j]), width)
      {
        assert samples[..k][..j] == samples[..j];
      }
      MixInRange(start, samples[..k], width);
    }
  }

  /** Raising samples never lowers the mix. */
  lemma {:induction false} MixIsMonotone(start: int, samples: seq<int>, start': int, samples': seq<int>, width: nat)
    requires width > 0 && start <= start' && |samples| == |samples'|
    requires forall k :: 0 <= k < |samples| ==> samples[k] <= samples'[k]
    ensures Mix(start, samples, width) <= Mix(start', samples', width)
  {
    if samples != [] {
      var k := |samples| - 1;
      MixIsMonotone(start, samples[..k], start', samples'[..k], width);
    }
  }
}
