/** Mixing the output streams of one device into the driver's double buffer. */
module AsioMix {
  import opened AsioSample

  function SilentWord(width: nat): (word: Word)
    ensures |word| == width
  {
    seq(width, _ => 0)
  }

  lemma {:induction false} SilenceIsZero(width: nat, little: bool)
    requires width > 0
    ensures Decode(SilentWord(width), little) == 0
  {
    ZeroDigits(SilentWord(width));
    assert Reverse(SilentWord(width)) == SilentWord(width);
  }

  lemma {:induction false} ZeroDigits(word: Word)
    requires forall k :: 0 <= k < |word| ==> word[k] == 0
    ensures FromDigits(word) == 0
  {
    if word != [] {
      ZeroDigits(word[1..]);
    }
  }

  /** Adds a sample to a word, over silence if told so. */
  type Mixer = (Word, int, bool) -> Word

  /** The mixer of a sample layout. Three-byte samples take their own path, which overwrites instead of
      adding to silence. */
  function MixWord(word: Word, sample: int, silence: bool, width: nat, little: bool): Word {
    if width == 3 && |word| == 3 then
      var sum := sample + I24BytesToI32(word, little);
      var result := if silence then sample
                    else if sum < -8388608 then -8388608 else if sum > 8388607 then 8388607 else sum;
      I32ToI24Bytes(result, little)
    else
      var base := if silence then SilentWord(width) else word;
      Encode(SatAdd(Decode(base, little), sample, width), width, little)
  }

  lemma MixWordAdds(word: Word, sample: int, silence: bool, width: nat, little: bool)
    requires (width == 2 || width == 4) && InRange(sample, width)
    ensures var r := MixWord(word, sample, silence, width, little);
            |r| == width && Decode(r, little) == SatAdd(if silence then 0 else Decode(word, little), sample, width)
  {
    SilenceIsZero(width, little);
    DecodeEncode(SatAdd(if silence then 0 else Decode(word, little), sample, width), width, little);
  }

  lemma MixWordAdds24(word: Word, sample: int, silence: bool, little: bool)
    requires InRange(sample, 3) && |word| == 3
    ensures var r := MixWord(word, sample, silence, 3, little);
            |r| == 3 && Decode(r, little) == SatAdd(if silence then 0 else Decode(word, little), sample, 3)
  {
    var result := SatAdd(if silence then 0 else I24BytesToI32(word, little), sample, 3);
    SpanOfThree();
    I24UnpackIsDecode(word, little);
    assert MixWord(word, sample, silence, 3, little) == I32ToI24Bytes(result, little);
    I24PackIsEncode(result, little);
    DecodeEncode(result, 3, little);
  }

  /** A word after several samples, the first of which goes over silence if `silence`. */
  function MixWords(mix: Mixer, word: Word, samples: seq<int>, silence: bool): Word {
    if samples == [] then word
    else
      var k := |samples| - 1;
      mix(MixWords(mix, word, samples[..k], silence), samples[k], silence && k == 0)
  }

  ghost predicate Mixes(mix: Mixer, width: nat, little: bool) {
    && 2 <= width <= 4
    && forall word, sample, silence :: mix(word, sample, silence) == MixWord(word, sample, silence, width, little)
  }

  predicate AllInRange(samples: seq<int>, width: nat) {
    forall k :: 0 <= k < |samples| ==> InRange(samples[k], width)
  }

  /** Mixing words is the saturating sum of the samples in order, started from silence or from what the
      word held before. */
  lemma {:induction false} MixWordsIsTheMix(mix: Mixer, word: Word, samples: seq<int>, silence: bool,
                                            width: nat, little: bool)
    requires Mixes(mix, width, little) && |word| == width && samples != [] && AllInRange(samples, width)
    ensures var r := MixWords(mix, word, samples, silence);
            |r| == width && Decode(r, little) == Mix(if silence then 0 else Decode(word, little), samples, width)
  {
    hide Mixes;
    hide InRange;
    hide Decode;
    hide SatAdd;
    var k := |samples| - 1;
    var before := word;
    if k > 0 {
      MixWordsIsTheMix(mix, word, samples[..k], silence, width, little);
      before := MixWords(mix, word, samples[..k], silence);
    } else {
      assert samples[..k] == [];
    }
    MixStep(mix, before, samples[k], silence && k == 0, width, little);
  }

  lemma MixStep(mix: Mixer, word: Word, sample: int, silence: bool, width: nat, little: bool)
    requires Mixes(mix, width, little) && |word| == width && InRange(sample, width)
    ensures var r := mix(word, sample, silence);
            |r| == width && Decode(r, little) == SatAdd(if silence then 0 else Decode(word, little), sample, width)
  {
    if width == 3 {
      MixWordAdds24(word, sample, silence, little);
    } else {
      MixWordAdds(word, sample, silence, width, little);
    }
  }

  /** Frame `i` of channel `ch` among interleaved samples. */
  function SampleAt(samples: seq<int>, ch: nat, i: nat, channels: nat): int {
    var k := i * channels + ch;
    if k < |samples| then samples[k] else 0
  }

  /** The channels of a frame lie next to one another, the first first, and the frames follow one another. */
  lemma SampleAtIsInterleaved(samples: seq<int>, ch: nat, i: nat, channels: nat)
    requires ch < channels && (i + 1) * channels <= |samples|
    ensures i * channels + channels == (i + 1) * channels
    ensures SampleAt(samples, ch, i, channels) == samples[i * channels..(i + 1) * channels][ch]
  {
  }

  lemma FrameIsInside(ch: nat, i: nat, channels: nat, frames: nat)
    requires ch < channels && i < frames
    ensures i * channels + ch < frames * channels
  {
    assert (i + 1) * channels <= frames * channels;
  }

  /** What the streams render for one frame of one channel, in order of registration. */
  function Column(renderings: seq<seq<int>>, ch: nat, i: nat, channels: nat): (column: seq<int>)
    ensures |column| == |renderings|
    ensures forall k :: 0 <= k < |column| ==> column[k] == SampleAt(renderings[k], ch, i, channels)
  {
    seq(|renderings|, k requires 0 <= k < |renderings| => SampleAt(renderings[k], ch, i, channels))
  }

  lemma ColumnInRange(renderings: seq<seq<int>>, ch: nat, i: nat, channels: nat, width: nat)
    requires width > 0
    requires forall k :: 0 <= k < |renderings| ==> AllInRange(renderings[k], width)
    ensures AllInRange(Column(renderings, ch, i, channels), width)
  {
    forall k | 0 <= k < |renderings|
      ensures InRange(Column(renderings, ch, i, channels)[k], width)
    {
      assert AllInRange(renderings[k], width);
    }
  }

  /** One half of the double buffer: a word for each channel and frame. */
  type Content = map<(nat, nat), Word>

  function AddRendering(mix: Mixer, content: Content, samples: seq<int>, channels: nat, silence: bool): Content {
    map p | p in content :: mix(content[p], SampleAt(samples, p.0, p.1, channels), silence)
  }

  /** The content of a half, as a value. */
  ghost function Words(half: array2<Word>): Content
    reads half
  {
    map ch: nat, i: nat | 0 <= ch < half.Length0 && 0 <= i < half.Length1 :: (ch, i) := half[ch, i]
  }

  /** A half after several renderings, the first of which goes over silence if `silence`. */
  function MixAll(mix: Mixer, content: Content, renderings: seq<seq<int>>, channels: nat, silence: bool): (r: Content)
    ensures r.Keys == content.Keys
  {
    if renderings == [] then content
    else
      var k := |renderings| - 1;
      AddRendering(mix, MixAll(mix, content, renderings[..k], channels, silence), renderings[k], channels,
                   silence && k == 0)
  }

  lemma MixAllStep(mix: Mixer, content: Content, renderings: seq<seq<int>>, samples: seq<int>, channels: nat,
                   silence: bool)
    ensures MixAll(mix, content, renderings + [samples], channels, silence) ==
            AddRendering(mix, MixAll(mix, content, renderings, channels, silence), samples, channels,
                         silence && renderings == [])
  {
    assert (renderings + [samples])[..|renderings|] == renderings;
  }

  lemma {:induction false} MixAllWordByWord(mix: Mixer, content: Content, renderings: seq<seq<int>>, channels: nat,
                                            silence: bool, ch: nat, i: nat)
    requires (ch, i) in content
    ensures MixAll(mix, content, renderings, channels, silence)[(ch, i)] ==
            MixWords(mix, content[(ch, i)], Column(renderings, ch, i, channels), silence)
  {
    if renderings != [] {
      var k := |renderings| - 1;
      MixAllWordByWord(mix, content, renderings[..k], channels, silence, ch, i);
      assert Column(renderings, ch, i, channels)[..k] == Column(renderings[..k], ch, i, channels);
    }
  }

  /** After a buffer switch with at least one stream, every word holds the saturating sum, in order, of
      what the streams rendered for it: from silence if the switch was recognised as new, whatever the
      half held before, and otherwise on top of that. */
  lemma SwitchMixesTheStreams(mix: Mixer, width: nat, little: bool, content: Content, renderings: seq<seq<int>>,
                              channels: nat, silence: bool, ch: nat, i: nat)
    requires Mixes(mix, width, little) && renderings != []
    requires (ch, i) in content && |content[(ch, i)]| == width
    requires forall k :: 0 <= k < |renderings| ==> AllInRange(renderings[k], width)
    ensures |MixAll(mix, content, renderings, channels, silence)[(ch, i)]| == width
    ensures Decode(MixAll(mix, content, renderings, channels, silence)[(ch, i)], little) ==
            Mix(if silence then 0 else Decode(content[(ch, i)], little), Column(renderings, ch, i, channels), width)
  {
    MixAllWordByWord(mix, content, renderings, channels, silence, ch, i);
    ColumnInRange(renderings, ch, i, channels, width);
    MixWordsIsTheMix(mix, content[(ch, i)], Column(renderings, ch, i, channels), silence, width, little);
  }

  /** One buffer of interleaved samples. */
  predicate Fits(half: array2<Word>, samples: seq<int>) { |samples| == half.Length1 * half.Length0 }

  ghost predicate Sized(half: array2<Word>, width: nat)
    reads half
  {
    forall ch: nat, i: nat :: ch < half.Length0 && i < half.Length1 ==> |half[ch, i]| == width
  }

  /** Whole buffers of samples that fit the layout. */
  ghost predicate Playable(half: array2<Word>, renderings: seq<seq<int>>, width: nat) {
    forall k :: 0 <= k < |renderings| ==>
      Fits(half, renderings[k]) && AllInRange(renderings[k], width)
  }

  /** Every word is the saturating sum of what the streams rendered for it, from silence. */
  ghost predicate HoldsSums(half: array2<Word>, renderings: seq<seq<int>>, width: nat, little: bool)
    reads half
  {
    forall ch: nat, i: nat :: ch < half.Length0 && i < half.Length1 ==>
      && |half[ch, i]| == width
      && Decode(half[ch, i], little) == Mix(0, Column(renderings, ch, i, half.Length0), width)
  }

  /** Where the streams do not cancel one another, that is the value nearest to their true sum: two loud streams
      stop at the end of the range they are at. */
  lemma SumsOfOneSign(half: array2<Word>, renderings: seq<seq<int>>, width: nat, little: bool, ch: nat, i: nat)
    requires HoldsSums(half, renderings, width, little) && width > 0 && ch < half.Length0 && i < half.Length1
    requires OneSign(0, Column(renderings, ch, i, half.Length0))
    ensures IsNearest(Decode(half[ch, i], little), Sum(0, Column(renderings, ch, i, half.Length0)), width)
  {
    MixOfOneSign(0, Column(renderings, ch, i, half.Length0), width);
  }

  /** A stream that renders louder samples never lowers a word. */
  lemma SumsAreMonotone(half: array2<Word>, renderings: seq<seq<int>>, half': array2<Word>,
                        renderings': seq<seq<int>>, width: nat, little: bool, ch: nat, i: nat)
    requires HoldsSums(half, renderings, width, little) && HoldsSums(half', renderings', width, little) && width > 0
    requires half.Length0 == half'.Length0 && ch < half.Length0 && i < half.Length1 && i < half'.Length1
    requires |renderings| == |renderings'|
    requires forall k :: 0 <= k < |renderings| ==>
               Column(renderings, ch, i, half.Length0)[k] <= Column(renderings', ch, i, half.Length0)[k]
    ensures Decode(half[ch, i], little) <= Decode(half'[ch, i], little)
  {
    var channels := half.Length0;
    MixIsMonotone(0, Column(renderings, ch, i, channels), 0, Column(renderings', ch, i, channels), width);
  }

  /** Every word is that sum on top of what the half held before. */
  ghost predicate HoldsSumsOver(half: array2<Word>, before: Content, renderings: seq<seq<int>>, width: nat,
                                little: bool)
    reads half
  {
    && before.Keys == Words(half).Keys
    && forall ch: nat, i: nat :: ch < half.Length0 && i < half.Length1 ==>
         && |half[ch, i]| == width
         && Decode(half[ch, i], little) ==
            Mix(Decode(before[(ch, i)], little), Column(renderings, ch, i, half.Length0), width)
  }

  lemma HalfHoldsSums(mix: Mixer, half: array2<Word>, before: Content, renderings: seq<seq<int>>, silence: bool,
                      width: nat, little: bool)
    requires Mixes(mix, width, little) && Playable(half, renderings, width) && renderings != []
    requires before.Keys == Words(half).Keys && forall p :: p in before ==> |before[p]| == width
    requires Words(half) == MixAll(mix, before, renderings, half.Length0, silence)
    ensures silence ==> HoldsSums(half, renderings, width, little)
    ensures !silence ==> HoldsSumsOver(half, before, renderings, width, little)
  {
    forall ch: nat, i: nat | ch < half.Length0 && i < half.Length1
      ensures |half[ch, i]| == width
      ensures Decode(half[ch, i], little) ==
              Mix(if silence then 0 else Decode(before[(ch, i)], little),
                  Column(renderings, ch, i, half.Length0), width)
    {
      assert half[ch, i] == Words(half)[(ch, i)];
      SwitchMixesTheStreams(mix, width, little, before, renderings, half.Length0, silence, ch, i);
    }
  }

  lemma SameWordsSameSize(half: array2<Word>, before: Content, width: nat)
    requires Words(half) == before && forall p :: p in before ==> |before[p]| == width
    ensures Sized(half, width)
  {
    forall ch: nat, i: nat | ch < half.Length0 && i < half.Length1
      ensures |half[ch, i]| == width
    {
      assert half[ch, i] == before[(ch, i)];
    }
  }

  /** What the streams that have not just written the half `index` rendered, in order of registration. */
  function Writers(last: seq<int>, index: int, renderings: seq<seq<int>>): (w: seq<seq<int>>)
    requires |last| == |renderings|
    ensures |w| <= |renderings| && forall k :: 0 <= k < |w| ==> w[k] in renderings
    ensures w == [] <==> forall k :: 0 <= k < |last| ==> last[k] == index
  {
    if last == [] then []
    else
      var k := |last| - 1;
      Writers(last[..k], index, renderings[..k]) + if last[k] == index then [] else [renderings[k]]
  }

  lemma {:induction false} EveryoneWrites(last: seq<int>, index: int, renderings: seq<seq<int>>)
    requires |last| == |renderings| && forall k :: 0 <= k < |last| ==> last[k] != index
    ensures Writers(last, index, renderings) == renderings
  {
    if last != [] {
      var k := |last| - 1;
      EveryoneWrites(last[..k], index, renderings[..k]);
      assert renderings == renderings[..k] + [renderings[k]];
    }
  }

  lemma NoWriters(last: seq<int>, index: int, renderings: seq<seq<int>>)
    requires |last| == |renderings|
    ensures Writers(last[..0], index, renderings[..0]) == []
    ensures Writers(last[..|last|], index, renderings[..|renderings|]) == Writers(last, index, renderings)
  {
    assert last[..|last|] == last && renderings[..|renderings|] == renderings;
  }

  lemma WritersStep(last: seq<int>, index: int, renderings: seq<seq<int>>, k: nat)
    requires k < |last| == |renderings|
    ensures Writers(last[..k + 1], index, renderings[..k + 1]) ==
            Writers(last[..k], index, renderings[..k]) + if last[k] == index then [] else [renderings[k]]
  {
    assert last[..k + 1][..k] == last[..k] && renderings[..k + 1][..k] == renderings[..k];
  }

  /** The flag of a device in which no stream has written yet. */
  const NEVER := 0xffff_ffff

  /** Every word is the sum of the first renderings plus that of the second. */
  ghost predicate HoldsBoth(half: array2<Word>, first: seq<seq<int>>, second: seq<seq<int>>, width: nat, little: bool)
    reads half
  {
    forall ch: nat, i: nat :: ch < half.Length0 && i < half.Length1 ==>
      Decode(half[ch, i], little) ==
      Mix(Mix(0, Column(first, ch, i, half.Length0), width), Column(second, ch, i, half.Length0), width)
  }

  /** `HoldsSums`, as a property of the content. */
  ghost predicate AreSums(content: Content, renderings: seq<seq<int>>, channels: nat, width: nat, little: bool) {
    forall p :: p in content ==> Decode(content[p], little) == Mix(0, Column(renderings, p.0, p.1, channels), width)
  }

  lemma SumsAsContent(half: array2<Word>, renderings: seq<seq<int>>, width: nat, little: bool)
    requires HoldsSums(half, renderings, width, little)
    ensures AreSums(Words(half), renderings, half.Length0, width, little) && Sized(half, width)
  {
  }

  lemma SumsOverSums(half: array2<Word>, before: Content, first: seq<seq<int>>, second: seq<seq<int>>, width: nat,
                     little: bool)
    requires AreSums(before, first, half.Length0, width, little)
    requires HoldsSumsOver(half, before, second, width, little)
    ensures HoldsBoth(half, first, second, width, little)
  {
    hide Mix;
    hide Decode;
    hide Column;
    forall ch: nat, i: nat | ch < half.Length0 && i < half.Length1
      ensures Decode(half[ch, i], little) ==
              Mix(Mix(0, Column(first, ch, i, half.Length0), width), Column(second, ch, i, half.Length0), width)
    {
      assert (ch, i) in Words(half);
      assert Decode(before[(ch, i)], little) == Mix(0, Column(first, (ch, i).0, (ch, i).1, half.Length0), width);
    }
  }

  /** One buffer switch: the half the driver asks for, and what the streams render. */
  datatype Turn = Turn(index: int, renderings: seq<seq<int>>)

  /** How many switches at the end had no effect. */
  function Since(effects: seq<bool>): nat {
    if effects == [] || effects[|effects| - 1] then 0 else 1 + Since(effects[..|effects| - 1])
  }

  /** The next switch will be recognised as new. */
  predicate NextIsNew(effects: seq<bool>) { true !in effects || Since(effects) % 2 == 0 }

  /** What a switch finds: the streams' last halves, the device's flag, the half, and whether it is new. */
  datatype Entry = Entry(last: seq<int>, flag: int, content: Content, silence: bool)

  /** Everything the output streams of one device share: the two buffer halves, one row per channel, and
      the flag of the switch whose half was last silenced. */
  class Device {
    const mix: Mixer
    const halves: seq<array2<Word>>
    /** The SDK's flag at the last switch that was recognised as new. */
    var currentFlag: int
    /** The SDK-wide flag that flips at every buffer switch. */
    var callbackFlag: int
    /** One entry per output stream, in order of registration: the half it last wrote, or -1. */
    var lastIndex: seq<int>
    /** How many switches there have been since the last one in which a stream wrote. */
    ghost var idle: nat

    ghost predicate Valid()
      reads this
    {
      && |halves| == 2 && halves[0] != halves[1]
      && halves[0].Length0 == halves[1].Length0 && halves[0].Length1 == halves[1].Length1
      && (callbackFlag == 0 || callbackFlag == 1)
      && (currentFlag == NEVER || currentFlag == 0 || currentFlag == 1)
      // The next switch in which a stream writes is recognised as new if and only if no stream has ever
      // written, or an even number of switches has gone by since one did.
      && (Fresh() <==> currentFlag == NEVER || idle % 2 == 0)
    }

    /** The next switch will be recognised as new by the first stream that runs in it. */
    ghost predicate Fresh()
      reads this
    {
      currentFlag != callbackFlag
    }

    /** A device without streams. The SDK's flag may have either value by then. */
    constructor (mix: Mixer, channels: nat, frames: nat, callbackFlag: int, word: Word)
      requires callbackFlag == 0 || callbackFlag == 1
      ensures Ready(0) && Ready(1) && lastIndex == [] && currentFlag == NEVER && this.mix == mix
      ensures fresh(halves[0]) && fresh(halves[1])
      ensures halves[0].Length0 == channels && halves[0].Length1 == frames
      ensures Sized(halves[0], |word|) && Sized(halves[1], |word|)
    {
      var first := new Word[channels, frames]((_, _) => word);
      var second := new Word[channels, frames]((_, _) => word);
      this.mix, halves := mix, [first, second];
      currentFlag, this.callbackFlag, lastIndex, idle := NEVER, callbackFlag, [], 0;
    }

    /** Adds one rendering to one channel. */
    method MixChannel(half: array2<Word>, ch: nat, samples: seq<int>, silence: bool)
      requires ch < half.Length0 && Fits(half, samples)
      modifies half
      ensures forall i: nat :: i < half.Length1 ==>
                half[ch, i] == mix(old(half[ch, i]), SampleAt(samples, ch, i, half.Length0), silence)
      ensures forall c: nat, i: nat :: c < half.Length0 && i < half.Length1 && c != ch ==>
                half[c, i] == old(half[c, i])
    {
      for i := 0 to half.Length1
        invariant forall j: nat :: j < i ==>
                    half[ch, j] == mix(old(half[ch, j]), SampleAt(samples, ch, j, half.Length0), silence)
        invariant forall j: nat :: i <= j < half.Length1 ==> half[ch, j] == old(half[ch, j])
        invariant forall c: nat, j: nat :: c < half.Length0 && j < half.Length1 && c != ch ==>
                  half[c, j] == old(half[c, j])
      {
        FrameIsInside(ch, i, half.Length0, half.Length1);
        half[ch, i] := mix(half[ch, i], samples[i * half.Length0 + ch], silence);
      }
    }

    /** Adds one rendering to one half, channel by channel. */
    method MixRendering(half: array2<Word>, samples: seq<int>, silence: bool)
      requires Fits(half, samples)
      modifies half
      ensures forall ch: nat, i: nat :: ch < half.Length0 && i < half.Length1 ==>
                half[ch, i] == mix(old(half[ch, i]), SampleAt(samples, ch, i, half.Length0), silence)
    {
      for ch := 0 to half.Length0
        invariant forall c: nat, i: nat :: c < ch && i < half.Length1 ==>
                    half[c, i] == mix(old(half[c, i]), SampleAt(samples, c, i, half.Length0), silence)
        invariant forall c: nat, i: nat :: ch <= c < half.Length0 && i < half.Length1 ==>
                  half[c, i] == old(half[c, i])
      {
        MixChannel(half, ch, samples, silence);
      }
    }

    /** The callback of one stream. It ignores a half it has just written, for the sake of drivers that
        call twice per cycle, and silences the half if no stream has run in this switch yet. */
    method RunStream(k: nat, half: array2<Word>, index: int, flag: int, samples: seq<int>)
      requires k < |lastIndex| && Fits(half, samples)
      modifies this`currentFlag, this`lastIndex, half
      ensures |lastIndex| == old(|lastIndex|) && lastIndex[k] == index
      ensures forall j :: 0 <= j < |lastIndex| && j != k ==> lastIndex[j] == old(lastIndex[j])
      ensures old(lastIndex)[k] != index ==>
                && currentFlag == flag
                && Words(half) == AddRendering(mix, old(Words(half)), samples, half.Length0, old(currentFlag) != flag)
      ensures old(lastIndex)[k] == index ==> currentFlag == old(currentFlag) && Words(half) == old(Words(half))
    {
      if lastIndex[k] == index {
        return;
      }
      lastIndex := lastIndex[k := index];
      var silence := currentFlag != flag;
      if silence {
        currentFlag := flag;
      }
      MixRendering(half, samples, silence);
    }

    /** A buffer switch: every output stream, in order of registration, adds its rendering to the half the
        driver asks for, unless it has just written that half. `renderings` are what the users' callbacks
        produce, or silence for a stream that is not playing. */
    method BufferSwitch(index: int, renderings: seq<seq<int>>)
      requires Valid() && (index == 0 || index == 1) && |renderings| == |lastIndex|
      requires forall k :: 0 <= k < |renderings| ==> Fits(halves[index], renderings[k])
      modifies this`currentFlag, this`callbackFlag, this`lastIndex, this`idle, halves[index]
      ensures Valid() && |lastIndex| == |renderings| && (forall k :: 0 <= k < |lastIndex| ==> lastIndex[k] == index)
      ensures var writers := Writers(old(lastIndex), index, renderings);
              && Words(halves[index]) ==
                 MixAll(mix, old(Words(halves[index])), writers, halves[index].Length0, old(Fresh()))
              && idle == (if writers == [] then old(idle) + 1 else 0)
              && (currentFlag == NEVER <==> old(currentFlag) == NEVER && writers == [])
    {
      var flag := callbackFlag;
      ghost var entry := Entry(lastIndex, currentFlag, Words(halves[index]), Fresh());
      callbackFlag := 1 - callbackFlag;
      RunStreams(halves[index], index, flag, renderings, entry);
      idle := if Writers(entry.last, index, renderings) == [] then idle + 1 else 0;
    }

    method RunStreams(half: array2<Word>, index: int, flag: int, renderings: seq<seq<int>>, ghost entry: Entry)
      requires |renderings| == |lastIndex| && Progress(0, half, index, flag, [], entry)
      requires forall k :: 0 <= k < |renderings| ==> Fits(half, renderings[k])
      modifies this`currentFlag, this`lastIndex, half
      ensures |renderings| == |entry.last|
      ensures Progress(|renderings|, half, index, flag, Writers(entry.last, index, renderings), entry)
    {
      ghost var writers := [];
      assert |renderings| == |entry.last|;
      NoWriters(entry.last, index, renderings);
      hide Writers;
      hide MixAll;
      hide Fits;
      hide Progress;
      for k := 0 to |renderings|
        invariant |lastIndex| == |renderings| && Progress(k, half, index, flag, writers, entry)
        invariant writers == Writers(entry.last[..k], index, renderings[..k])
      {
        WritersStep(entry.last, index, renderings, k);
        RunNext(k, half, index, flag, renderings[k], writers, entry);
        writers := writers + if entry.last[k] == index then [] else [renderings[k]];
      }
    }

    /** The first `k` streams have had their turn, and `writers` are what those of them that wrote rendered. */
    ghost predicate Progress(k: nat, half: array2<Word>, index: int, flag: int, writers: seq<seq<int>>, entry: Entry)
      reads this, half
    {
      && k <= |lastIndex| == |entry.last|
      && (forall j :: 0 <= j < k ==> lastIndex[j] == index)
      && (forall j :: k <= j < |lastIndex| ==> lastIndex[j] == entry.last[j])
      && currentFlag == (if writers == [] then entry.flag else flag)
      && (entry.silence <==> entry.flag != flag)
      && Words(half) == MixAll(mix, entry.content, writers, half.Length0, entry.silence)
    }

    method RunNext(k: nat, half: array2<Word>, index: int, flag: int, samples: seq<int>, ghost writers: seq<seq<int>>,
                   ghost entry: Entry)
      requires k < |lastIndex| && Progress(k, half, index, flag, writers, entry)
      requires Fits(half, samples)
      modifies this`currentFlag, this`lastIndex, half
      ensures |lastIndex| == old(|lastIndex|)
      ensures Progress(k + 1, half, index, flag, writers + if entry.last[k] == index then [] else [samples], entry)
    {
      MixAllStep(mix, entry.content, writers, samples, half.Length0, entry.silence);
      assert writers + [] == writers;
      hide MixAll;
      hide AddRendering;
      RunStream(k, half, index, flag, samples);
    }

    /** Ready for the half `index`: the next switch will be recognised as new, and no stream believes it has
        already written that half. */
    ghost predicate Ready(index: int)
      reads this
    {
      Valid() && Fresh() && (index == 0 || index == 1) && forall k :: 0 <= k < |lastIndex| ==> lastIndex[k] != index
    }

    /** Registers a further stream. */
    method AddStream()
      requires Valid()
      modifies this`lastIndex
      ensures Valid() && lastIndex == old(lastIndex) + [-1]
      ensures forall index :: old(Ready(index)) ==> Ready(index)
    {
      lastIndex := lastIndex + [-1];
    }

    method RemoveStream(k: nat)
      requires Valid() && k < |lastIndex|
      modifies this`lastIndex
      ensures Valid() && lastIndex == old(lastIndex)[..k] + old(lastIndex)[k + 1..]
      ensures forall index :: old(Ready(index)) ==> Ready(index)
    {
      lastIndex := lastIndex[..k] + lastIndex[k + 1..];
    }

    /** Any switch, down to the words: if a stream writes, the half holds the sums of what the writers
        rendered, from silence if the switch is recognised as new, and otherwise on top of what it held. */
    method Switch(index: int, renderings: seq<seq<int>>, width: nat, little: bool)
      returns (ghost writers: seq<seq<int>>)
      requires Valid() && (index == 0 || index == 1) && |renderings| == |lastIndex|
      requires Mixes(mix, width, little) && Playable(halves[index], renderings, width) && Sized(halves[index], width)
      modifies this`currentFlag, this`callbackFlag, this`lastIndex, this`idle, halves[index]
      ensures Valid() && |lastIndex| == |renderings| && (forall k :: 0 <= k < |lastIndex| ==> lastIndex[k] == index)
      ensures writers == Writers(old(lastIndex), index, renderings) && Sized(halves[index], width)
      ensures idle == if writers == [] then old(idle) + 1 else 0
      ensures currentFlag == NEVER <==> old(currentFlag) == NEVER && writers == []
      ensures writers == [] ==> Words(halves[index]) == old(Words(halves[index]))
      ensures writers != [] && old(Fresh()) ==> HoldsSums(halves[index], writers, width, little)
      ensures writers != [] && !old(Fresh()) ==>
                HoldsSumsOver(halves[index], old(Words(halves[index])), writers, width, little)
    {
      hide Mixes;
      hide HoldsSums;
      hide HoldsSumsOver;
      ghost var before, silence := Words(halves[index]), Fresh();
      writers := Writers(lastIndex, index, renderings);
      BufferSwitch(index, renderings);
      assert Words(halves[index]).Keys == before.Keys;
      hide MixAll;
      if writers == [] {
        SameWordsSameSize(halves[index], before, width);
      } else {
        HalfHoldsSums(mix, halves[index], before, writers, silence, width, little);
      }
    }

    /** One cycle with at least one stream. Whatever the half held, it ends up holding exactly the
        saturating sums, and the device is ready for the other half. */
    method Cycle(index: int, renderings: seq<seq<int>>, width: nat, little: bool)
      requires Ready(index) && Mixes(mix, width, little)
      requires renderings != [] && |renderings| == |lastIndex| && Playable(halves[index], renderings, width)
      requires Sized(halves[index], width)
      modifies this`currentFlag, this`callbackFlag, this`lastIndex, this`idle, halves[index]
      ensures Ready(1 - index) && HoldsSums(halves[index], renderings, width, little)
      ensures |lastIndex| == |renderings| && forall k :: 0 <= k < |lastIndex| ==> lastIndex[k] == index
      ensures idle == 0 && currentFlag != NEVER
    {
      EveryoneWrites(lastIndex, index, renderings);
      var _ := Switch(index, renderings, width, little);
    }

    /** Brings the number of registered streams to `count` by registering and dropping streams. */
    method Register(count: nat)
      requires Valid()
      modifies this`lastIndex
      ensures Valid() && |lastIndex| == count
      ensures forall index :: old(Ready(index)) ==> Ready(index)
    {
      while |lastIndex| != count
        invariant Valid() && forall index :: old(Ready(index)) ==> Ready(index)
        decreases if |lastIndex| < count then count - |lastIndex| else |lastIndex| - count
      {
        if |lastIndex| < count {
          AddStream();
        } else {
          var k :| 0 <= k < |lastIndex|;
          RemoveStream(k);
        }
      }
    }

    /** Any number of cycles over alternating halves, with streams coming and going in between but never
        none left: the half of the last cycle holds the sums of that cycle's renderings alone. */
    method Cycles(first: int, script: seq<seq<seq<int>>>, width: nat, little: bool) returns (last: int)
      requires Ready(first) && Mixes(mix, width, little) && script != []
      requires forall c :: 0 <= c < |script| ==> script[c] != [] && Playable(halves[0], script[c], width)
      requires Sized(halves[0], width) && Sized(halves[1], width)
      modifies this`currentFlag, this`callbackFlag, this`lastIndex, this`idle, halves[0], halves[1]
      ensures Ready(1 - last) && HoldsSums(halves[last], script[|script| - 1], width, little)
    {
      last := 1 - first;
      for c := 0 to |script|
        invariant Ready(1 - last) && Sized(halves[0], width) && Sized(halves[1], width)
        invariant c > 0 ==> HoldsSums(halves[last], script[c - 1], width, little)
      {
        last := 1 - last;
        Register(|script[c]|);
        Cycle(last, script[c], width, little);
      }
    }

    /** Streams come and go. */
    method Churn(count: nat)
      requires Valid()
      modifies this`lastIndex
      ensures Valid() && |lastIndex| == count
    {
      var rounds: int := *;
      for n := 0 to if rounds < 0 then 0 else rounds
        invariant Valid()
      {
        var size: int := *;
        Register(if size < 0 then 0 else size);
      }
      Register(count);
    }

    method TakeTurn(turn: Turn, width: nat, little: bool) returns (ghost writers: seq<seq<int>>)
      requires Valid() && Mixes(mix, width, little) && Possible(turn, width)
      requires Sized(halves[0], width) && Sized(halves[1], width)
      modifies this`currentFlag, this`callbackFlag, this`lastIndex, this`idle, halves[turn.index]
      ensures Valid() && Sized(halves[0], width) && Sized(halves[1], width)
      ensures turn.renderings == [] ==> writers == []
      ensures idle == if writers == [] then old(idle) + 1 else 0
      ensures currentFlag == NEVER <==> old(currentFlag) == NEVER && writers == []
    {
      Churn(|turn.renderings|);
      writers := Switch(turn.index, turn.renderings, width, little);
    }

    /** Any sequence of switches of a device in which no stream has written yet: with any index, again and
        again, with streams coming and going and perhaps none at all. `effects` says in which of them a
        stream wrote. The next switch is recognised as new if and only if none did, or the number of
        switches since the last that did is even. */
    method Switches(script: seq<Turn>, width: nat, little: bool) returns (ghost effects: seq<bool>)
      requires Valid() && currentFlag == NEVER && Mixes(mix, width, little)
      requires forall c :: 0 <= c < |script| ==> Possible(script[c], width)
      requires Sized(halves[0], width) && Sized(halves[1], width)
      modifies this`currentFlag, this`callbackFlag, this`lastIndex, this`idle, halves[0], halves[1]
      ensures Valid() && Sized(halves[0], width) && Sized(halves[1], width)
      ensures |effects| == |script| && forall c :: 0 <= c < |script| && effects[c] ==> script[c].renderings != []
      ensures Fresh() <==> NextIsNew(effects)
    {
      hide Mixes;
      hide Sized;
      hide Playable;
      effects := [];
      for c := 0 to |script|
        invariant Valid() && Sized(halves[0], width) && Sized(halves[1], width)
        invariant |effects| == c && forall k :: 0 <= k < c && effects[k] ==> script[k].renderings != []
        invariant currentFlag == NEVER <==> true !in effects
        invariant currentFlag != NEVER ==> idle == Since(effects)
      {
        var writers := TakeTurn(script[c], width, little);
        assert (effects + [writers != []])[..c] == effects;
        effects := effects + [writers != []];
      }
    }

    /** A switch with these streams and this half. */
    ghost predicate Possible(turn: Turn, width: nat)
      requires |halves| == 2
    {
      (turn.index == 0 || turn.index == 1) && Playable(halves[turn.index], turn.renderings, width)
    }

    /** And what that means for the audio: after any such sequence, a switch in which a stream writes leaves
        exactly the sums of its renderings if it is recognised as new, and otherwise leaves them on top of
        whatever the half held. */
    method SwitchAfter(script: seq<Turn>, last: Turn, width: nat, little: bool)
      returns (ghost effects: seq<bool>, ghost before: Content, ghost writers: seq<seq<int>>)
      requires Valid() && currentFlag == NEVER && Mixes(mix, width, little)
      requires forall c :: 0 <= c < |script| ==> Possible(script[c], width)
      requires Possible(last, width) && Sized(halves[0], width) && Sized(halves[1], width)
      modifies this`currentFlag, this`callbackFlag, this`lastIndex, this`idle, halves[0], halves[1]
      ensures |effects| == |script|
      ensures writers != [] && NextIsNew(effects) ==> HoldsSums(halves[last.index], writers, width, little)
      ensures writers != [] && !NextIsNew(effects) ==>
                HoldsSumsOver(halves[last.index], before, writers, width, little)
    {
      effects := Switches(script, width, little);
      Churn(|last.renderings|);
      before := Words(halves[last.index]);
      writers := Switch(last.index, last.renderings, width, little);
    }

    /** A switch that is taken for a repetition, over a half that holds the sums of `first`. */
    method PlayOver(first: seq<seq<int>>, second: seq<seq<int>>, width: nat, little: bool)
      requires Valid() && !Fresh() && Mixes(mix, width, little) && HoldsSums(halves[0], first, width, little)
      requires second != [] && |second| == |lastIndex| && Playable(halves[0], second, width)
      requires forall k :: 0 <= k < |lastIndex| ==> lastIndex[k] != 0
      modifies this`currentFlag, this`callbackFlag, this`lastIndex, this`idle, halves[0]
      ensures HoldsBoth(halves[0], first, second, width, little)
    {
      ghost var before := Words(halves[0]);
      SumsAsContent(halves[0], first, width, little);
      EveryoneWrites(lastIndex, 0, second);
      var _ := Switch(0, second, width, little);
      SumsOverSums(halves[0], before, first, second, width, little);
    }

    /** A switch that finds no stream, and the streams that come back after it play the cycle before last
        once more. */
    method PlaysTwiceAfterGap(first: seq<seq<int>>, second: seq<seq<int>>, width: nat, little: bool)
      requires Ready(0) && Mixes(mix, width, little) && Sized(halves[0], width) && Sized(halves[1], width)
      requires first != [] && Playable(halves[0], first, width) && second != [] && Playable(halves[0], second, width)
      modifies this`currentFlag, this`callbackFlag, this`lastIndex, this`idle, halves[0], halves[1]
      ensures HoldsBoth(halves[0], first, second, width, little)
    {
      Register(|first|);
      Cycle(0, first, width, little);
      Register(0);
      var none := Switch(1, [], width, little);
      RegisterFirst(|second|);
      PlayOver(first, second, width, little);
    }

    /** So do the streams of a driver that calls twice for one half. */
    method PlaysTwiceAfterRepeat(first: seq<seq<int>>, middle: seq<seq<int>>, second: seq<seq<int>>, width: nat,
                                 little: bool)
      requires Ready(0) && Mixes(mix, width, little) && Sized(halves[0], width) && Sized(halves[1], width)
      requires |first| == |middle| == |second| > 0
      requires Playable(halves[0], first, width) && Playable(halves[0], middle, width)
      requires Playable(halves[0], second, width)
      modifies this`currentFlag, this`callbackFlag, this`lastIndex, this`idle, halves[0], halves[1]
      ensures HoldsBoth(halves[0], first, second, width, little)
    {
      Register(|first|);
      Cycle(0, first, width, little);
      Cycle(1, middle, width, little);
      var none := Switch(1, middle, width, little);
      PlayOver(first, second, width, little);
    }

    method RegisterFirst(count: nat)
      requires Valid() && lastIndex == []
      modifies this`lastIndex
      ensures Valid() && |lastIndex| == count && forall k :: 0 <= k < count ==> lastIndex[k] == -1
    {
      for n := 0 to count
        invariant Valid() && |lastIndex| == n && forall k :: 0 <= k < n ==> lastIndex[k] == -1
      {
        AddStream();
      }
    }
  }
}
