/** Supported ranges of a device, the order in which they are preferred, and the default picked by it. */
module StreamConfig {
  import opened Wrappers

  datatype SampleFormat =
    | I8 | I16 | I24 | I32 | I64 | U8 | U16 | U24 | U32 | U64 | F32 | F64 | DsdU8 | DsdU16 | DsdU32

  datatype BufferSize = Frames(min: nat, max: nat) | Unknown

  datatype Range = Range(channels: nat, minRate: nat, maxRate: nat, buffer: BufferSize, format: SampleFormat) {
    predicate Contains(rate: nat) { minRate <= rate <= maxRate }
  }

  /** A range with its rate fixed; the buffer size is the range's own. */
  datatype Config = Config(channels: nat, rate: nat, format: SampleFormat)

  datatype Ordering = Less | Equal | Greater

  function Flip(o: Ordering): Ordering {
    match o
    case Less => Greater
    case Equal => Equal
    case Greater => Less
  }

  function CompareInts(a: int, b: int): Ordering { if a < b then Less else if a == b then Equal else Greater }

  function CompareBools(a: bool, b: bool): Ordering { if a == b then Equal else if b then Less else Greater }

  function FormatRank(f: SampleFormat): (rank: nat) {
    match f
    case DsdU8 => 0
    case DsdU16 => 1
    case DsdU32 => 2
    case U8 => 3
    case I8 => 4
    case U64 => 5
    case I64 => 6
    case U16 => 7
    case I16 => 8
    case U24 => 9
    case I24 => 10
    case U32 => 11
    case I32 => 12
    case F64 => 13
    case F32 => 14
  }

  /** The channel part of the order. */
  function CompareChannels(a: nat, b: nat): Ordering {
    var stereo := CompareBools(a == 2, b == 2);
    if stereo != Equal then stereo
    else
      var mono := CompareBools(a == 1, b == 1);
      if mono != Equal then mono else CompareInts(a, b)
  }

  /** The rate part of the order. */
  function CompareRates(a: Range, b: Range): Ordering {
    var broadcast := CompareBools(a.Contains(48000), b.Contains(48000));
    if broadcast != Equal then broadcast
    else
      var cd := CompareBools(a.Contains(44100), b.Contains(44100));
      if cd != Equal then cd else CompareInts(a.maxRate, b.maxRate)
  }

  /** `cmp_default_heuristics`. */
  function Compare(a: Range, b: Range): Ordering {
    var channels := CompareChannels(a.channels, b.channels);
    if channels != Equal then channels
    else
      var format := CompareInts(FormatRank(a.format), FormatRank(b.format));
      if format != Equal then format else CompareRates(a, b)
  }

  predicate AtMost(a: Range, b: Range) { !Compare(a, b).Greater? }

  // ---------------------------------------------------------------------------------------------
  // The order
  // ---------------------------------------------------------------------------------------------

  // What the formats are, apart from their ranks.

  predicate IsFloat(f: SampleFormat) { f.F32? || f.F64? }

  predicate IsDsd(f: SampleFormat) { f.DsdU8? || f.DsdU16? || f.DsdU32? }

  predicate IsSigned(f: SampleFormat) { f.I8? || f.I16? || f.I24? || f.I32? || f.I64? || IsFloat(f) }

  function Bits(f: SampleFormat): nat {
    match f
    case I8 | U8 | DsdU8 => 8
    case I16 | U16 | DsdU16 => 16
    case I24 | U24 => 24
    case I32 | U32 | F32 | DsdU32 => 32
    case I64 | U64 | F64 => 64
  }

  /** Integers as wide as audio hardware has them. */
  predicate IsStandard(f: SampleFormat) { !IsFloat(f) && !IsDsd(f) && 16 <= Bits(f) <= 32 }

  /** `f` is to be preferred to `g`: floating point to anything else, the shorter first; then standard integers,
      then other integers, then DSD; within one of these the wider, and signed before unsigned. */
  predicate Better(f: SampleFormat, g: SampleFormat) {
    if IsFloat(f) != IsFloat(g) then IsFloat(f)
    else if IsFloat(f) then Bits(f) < Bits(g)
    else if IsDsd(f) != IsDsd(g) then IsDsd(g)
    else if IsStandard(f) != IsStandard(g) then IsStandard(f)
    else Bits(f) > Bits(g) || (Bits(f) == Bits(g) && IsSigned(f) && !IsSigned(g))
  }

  lemma RankIsBetter(f: SampleFormat, g: SampleFormat)
    ensures FormatRank(f) > FormatRank(g) <==> Better(f, g)
    ensures FormatRank(f) == FormatRank(g) <==> f == g
  {
  }

  /** Comparing the other way round gives the opposite answer, so any two ranges are comparable. */
  lemma CompareFlips(a: Range, b: Range)
    ensures Compare(b, a) == Flip(Compare(a, b))
    ensures AtMost(a, b) || AtMost(b, a)
  {
  }

  lemma ChannelsTransitive(a: nat, b: nat, c: nat)
    requires !CompareChannels(a, b).Greater? && !CompareChannels(b, c).Greater?
    ensures !CompareChannels(a, c).Greater?
    ensures CompareChannels(a, c) == Equal ==> CompareChannels(a, b) == Equal && CompareChannels(b, c) == Equal
  {
  }

  lemma RatesTransitive(a: Range, b: Range, c: Range)
    requires !CompareRates(a, b).Greater? && !CompareRates(b, c).Greater?
    ensures !CompareRates(a, c).Greater?
  {
  }

  /** The order is transitive: a total preorder. */
  lemma AtMostTransitive(a: Range, b: Range, c: Range)
    requires AtMost(a, b) && AtMost(b, c)
    ensures AtMost(a, c)
  {
    ChannelsTransitive(a.channels, b.channels, c.channels);
    if CompareChannels(a.channels, c.channels) == Equal && a.format == b.format == c.format {
      RatesTransitive(a, b, c);
    }
  }

  /** The rate a default takes from its range: a standard one if possible, else the highest. */
  function DefaultOf(r: Range): (c: Config)
    ensures r.minRate <= r.maxRate ==> r.Contains(c.rate)
    ensures c.channels == r.channels && c.format == r.format
  {
    Config(r.channels, if r.Contains(48000) then 48000 else if r.Contains(44100) then 44100 else r.maxRate, r.format)
  }

  /** Ranges that tie make the same default, although they may differ in their lower end. */
  lemma TiesAgree(a: Range, b: Range)
    requires Compare(a, b) == Equal
    ensures DefaultOf(a) == DefaultOf(b)
  {
    RankIsBetter(a.format, b.format);
  }

  // ---------------------------------------------------------------------------------------------
  // Three ways to pick the default
  // ---------------------------------------------------------------------------------------------

  ghost predicate Ascending(s: seq<Range>) { forall i, j :: 0 <= i < j < |s| ==> AtMost(s[i], s[j]) }

  ghost predicate Descending(s: seq<Range>) { forall i, j :: 0 <= i < j < |s| ==> AtMost(s[j], s[i]) }

  ghost predicate Greatest(r: Range, ranges: seq<Range>) {
    r in ranges && forall x :: x in ranges ==> AtMost(x, r)
  }

  lemma GreatestOnesAgree(a: Range, b: Range, ranges: seq<Range>)
    requires Greatest(a, ranges) && Greatest(b, ranges)
    ensures DefaultOf(a) == DefaultOf(b)
  {
    CompareFlips(a, b);
    TiesAgree(a, b);
  }

  lemma SameMembers(s: seq<Range>, t: seq<Range>)
    requires multiset(s) == multiset(t)
    ensures forall x :: x in s <==> x in t
  {
    forall x
      ensures x in s <==> x in t
    {
      assert x in s <==> x in multiset(s);
      assert x in t <==> x in multiset(t);
    }
  }

  lemma LastIsGreatest(ranges: seq<Range>, asc: seq<Range>)
    requires ranges != [] && multiset(asc) == multiset(ranges) && Ascending(asc)
    ensures |asc| == |ranges| && Greatest(asc[|asc| - 1], ranges)
  {
    SameMembers(asc, ranges);
    assert |asc| == |multiset(asc)| == |multiset(ranges)| == |ranges|;
    forall x | x in ranges
      ensures AtMost(x, asc[|asc| - 1])
    {
      var i :| 0 <= i < |asc| && asc[i] == x;
      CompareFlips(x, x);
    }
  }

  lemma FirstIsGreatest(ranges: seq<Range>, desc: seq<Range>)
    requires ranges != [] && multiset(desc) == multiset(ranges) && Descending(desc)
    ensures |desc| == |ranges| && Greatest(desc[0], ranges)
  {
    SameMembers(desc, ranges);
    assert |desc| == |multiset(desc)| == |multiset(ranges)| == |ranges|;
    forall x | x in ranges
      ensures AtMost(x, desc[0])
    {
      var i :| 0 <= i < |desc| && desc[i] == x;
      CompareFlips(x, x);
    }
  }

  /** The last of the ranges no other exceeds, as `max_by` picks it. */
  method MaxBy(ranges: seq<Range>) returns (r: Option<Range>)
    ensures r.None? <==> ranges == []
    ensures r.Some? ==> Greatest(r.value, ranges)
  {
    r := None;
    for k := 0 to |ranges|
      invariant r.None? <==> k == 0
      invariant r.Some? ==> r.value in ranges && forall j :: 0 <= j < k ==> AtMost(ranges[j], r.value)
    {
      if r.None? || AtMost(r.value, ranges[k]) {
        if r.Some? {
          forall j | 0 <= j < k
            ensures AtMost(ranges[j], ranges[k])
          {
            AtMostTransitive(ranges[j], r.value, ranges[k]);
          }
        }
        CompareFlips(ranges[k], ranges[k]);
        r := Some(ranges[k]);
      } else {
        CompareFlips(r.value, ranges[k]);
      }
    }
  }

  /** Sorting upwards and taking the last, sorting downwards and taking the first, and taking the maximum
      give the same default for every list of ranges, whatever the sort does with ties. */
  lemma DefaultsAgree(ranges: seq<Range>, asc: seq<Range>, desc: seq<Range>, most: Range)
    requires ranges != []
    requires multiset(asc) == multiset(ranges) && Ascending(asc)
    requires multiset(desc) == multiset(ranges) && Descending(desc)
    requires Greatest(most, ranges)
    ensures |asc| == |desc| == |ranges|
    ensures DefaultOf(asc[|asc| - 1]) == DefaultOf(desc[0]) == DefaultOf(most)
  {
    LastIsGreatest(ranges, asc);
    FirstIsGreatest(ranges, desc);
    GreatestOnesAgree(asc[|asc| - 1], most, ranges);
    GreatestOnesAgree(desc[0], most, ranges);
  }

  /** Some range offers this many channels. */
  ghost predicate Offers(ranges: seq<Range>, channels: nat) { exists r :: r in ranges && r.channels == channels }

  /** What the order is for: stereo if there is any, else mono, else as many channels as there are. */
  lemma GreatestChannels(r: Range, ranges: seq<Range>)
    requires Greatest(r, ranges)
    ensures Offers(ranges, 2) ==> r.channels == 2
    ensures !Offers(ranges, 2) && Offers(ranges, 1) ==> r.channels == 1
    ensures !Offers(ranges, 2) && !Offers(ranges, 1) ==> forall x :: x in ranges ==> x.channels <= r.channels
  {
    forall x | x in ranges
      ensures x.channels == 2 ==> r.channels == 2
      ensures x.channels == 1 ==> r.channels == 2 || r.channels == 1
      ensures r.channels != 1 && r.channels != 2 ==> x.channels <= r.channels
    {
      assert AtMost(x, r);
    }
    assert Offers(ranges, r.channels);
  }

  /** Some range offers this format with this many channels. */
  ghost predicate OffersFormat(ranges: seq<Range>, channels: nat, f: SampleFormat) {
    exists r :: r in ranges && r.channels == channels && r.format == f
  }

  /** With its channel count nothing better than the format of the greatest range is offered. In particular it is
      F32 if that is offered, else F64, else the widest integer of up to 32 bits except for the 8-bit ones, else
      a 64-bit one, else an 8-bit one, signed before unsigned; and DSD only where nothing else is offered. */
  lemma GreatestFormat(r: Range, ranges: seq<Range>, f: SampleFormat)
    requires Greatest(r, ranges) && OffersFormat(ranges, r.channels, f)
    ensures !Better(f, r.format)
    ensures f.F32? ==> r.format.F32?
    ensures f.F64? ==> IsFloat(r.format)
    ensures IsStandard(f) ==> IsFloat(r.format) || (IsStandard(r.format) && Bits(f) <= Bits(r.format))
    ensures f.I64? || f.U64? ==> r.format.I64? || r.format.U64? || IsStandard(r.format) || IsFloat(r.format)
    ensures !IsDsd(f) ==> !IsDsd(r.format)
    ensures !IsFloat(f) && IsSigned(f) && Bits(f) == Bits(r.format) ==> IsSigned(r.format)
  {
    var x :| x in ranges && x.channels == r.channels && x.format == f;
    assert AtMost(x, r);
    RankIsBetter(x.format, r.format);
  }

  /** Among the ranges with its channel count and format, the greatest has a standard rate if any offers one, with
      48000 before 44100, and otherwise the highest rate. */
  lemma GreatestFormatAndRate(r: Range, ranges: seq<Range>, x: Range)
    requires Greatest(r, ranges) && x in ranges && x.channels == r.channels
    ensures !Better(x.format, r.format)
    ensures x.format == r.format && x.Contains(48000) ==> DefaultOf(r).rate == 48000
    ensures x.format == r.format && x.Contains(44100) && !r.Contains(48000) ==> DefaultOf(r).rate == 44100
    ensures x.format == r.format && !r.Contains(48000) && !r.Contains(44100) ==>
              !x.Contains(48000) && !x.Contains(44100) && x.maxRate <= DefaultOf(r).rate
  {
    assert AtMost(x, r);
    RankIsBetter(x.format, r.format);
  }
}
