/** Choosing one sample rate and two channel counts for a duplex stream. */
module DuplexConfig {
  import opened StreamConfig
  import opened Wrappers

  datatype Result<T> = Ok(value: T) | Err(error: Error)

  /** `Backend` stands for whatever a device reports; the others are made here. */
  datatype Error = Backend(code: int) | Unsupported | NoCommonRate | NoInputConfig | NoOutputConfig

  datatype Duplex = Duplex(input: nat, output: nat, rate: nat)

  predicate Supports(ranges: seq<Range>, rate: nat) { exists k :: 0 <= k < |ranges| && ranges[k].Contains(rate) }

  /** Both directions can run at this rate. */
  predicate Common(inputs: seq<Range>, outputs: seq<Range>, rate: nat) {
    Supports(inputs, rate) && Supports(outputs, rate)
  }

  // ---------------------------------------------------------------------------------------------
  // Candidate rates
  // ---------------------------------------------------------------------------------------------

  /** The default rates of the two directions, without the absent ones. */
  function Given(input: Option<nat>, output: Option<nat>): seq<nat> {
    (if input.Some? then [input.value] else []) + (if output.Some? then [output.value] else [])
  }

  /** Whether rate `a` is tried before rate `b`: the directions' own rates first, the higher before the
      lower, then 48000, then 44100. */
  predicate Before(a: nat, b: nat, given: seq<nat>) {
    if a in given then b in given ==> a > b
    else b !in given && a == 48000 && b == 44100
  }

  predicate InOrder(rates: seq<nat>, given: seq<nat>) {
    forall i, j :: 0 <= i < j < |rates| ==> Before(rates[i], rates[j], given)
  }

  ghost predicate IsCandidateList(rates: seq<nat>, given: seq<nat>) {
    && (forall r :: r in rates <==> r in given || r == 48000 || r == 44100)
    && InOrder(rates, given)
  }

  /** `dedup` and the descending sort, on at most two elements. */
  method OwnRates(given: seq<nat>) returns (rates: seq<nat>)
    requires |given| <= 2
    ensures (forall r :: r in rates <==> r in given) && InOrder(rates, given)
  {
    rates := given;
    if |rates| == 2 && rates[0] == rates[1] {
      rates := rates[..1];
    }
    if |rates| == 2 && rates[0] < rates[1] {
      rates := [rates[1], rates[0]];
    }
  }

  method PushIfAbsent(rates: seq<nat>, rate: nat, given: seq<nat>) returns (more: seq<nat>)
    requires InOrder(rates, given)
    requires rate !in rates ==> forall r :: r in rates ==> Before(r, rate, given)
    ensures InOrder(more, given) && forall r :: r in more <==> r in rates || r == rate
  {
    more := rates;
    if rate !in more {
      more := more + [rate];
    }
  }

  method CandidateRates(input: Option<nat>, output: Option<nat>) returns (rates: seq<nat>)
    ensures IsCandidateList(rates, Given(input, output))
  {
    var given := Given(input, output);
    rates := OwnRates(given);
    rates := PushIfAbsent(rates, 48000, given);
    rates := PushIfAbsent(rates, 44100, given);
  }

  /** The first candidate both directions support. */
  function FirstCommon(rates: seq<nat>, inputs: seq<Range>, outputs: seq<Range>): (r: Option<nat>)
    ensures r.None? ==> forall rate :: rate in rates ==> !Common(inputs, outputs, rate)
    ensures r.Some? ==> r.value in rates && Common(inputs, outputs, r.value)
  {
    if rates == [] then None
    else if Common(inputs, outputs, rates[0]) then Some(rates[0])
    else
      assert forall rate :: rate in rates ==> rate == rates[0] || rate in rates[1..];
      FirstCommon(rates[1..], inputs, outputs)
  }

  lemma {:induction false} FirstCommonIsFirst(rates: seq<nat>, given: seq<nat>, inputs: seq<Range>,
                                              outputs: seq<Range>, rate: nat)
    requires InOrder(rates, given)
    requires rate in rates && Common(inputs, outputs, rate)
    ensures FirstCommon(rates, inputs, outputs).Some?
    ensures var first := FirstCommon(rates, inputs, outputs).value; first == rate || Before(first, rate, given)
  {
    if Common(inputs, outputs, rates[0]) {
      var j :| 0 <= j < |rates| && rates[j] == rate;
    } else {
      FirstCommonIsFirst(rates[1..], given, inputs, outputs, rate);
    }
  }

  // ---------------------------------------------------------------------------------------------
  // The highest common rate
  // ---------------------------------------------------------------------------------------------

  function Max(a: nat, b: nat): nat { if a < b then b else a }

  function Min(a: nat, b: nat): nat { if a < b then a else b }

  function MaxOption(a: Option<nat>, b: Option<nat>): Option<nat> {
    if a.None? then b else if b.None? then a else Some(Max(a.value, b.value))
  }

  /** The top of the overlap of two ranges. */
  function Overlap(i: Range, o: Range): Option<nat> {
    var hi := Min(i.maxRate, o.maxRate);
    if Max(i.minRate, o.minRate) <= hi then Some(hi) else None
  }

  function HighestWith(i: Range, outputs: seq<Range>): Option<nat> {
    if outputs == [] then None else MaxOption(Overlap(i, outputs[0]), HighestWith(i, outputs[1..]))
  }

  function HighestCommon(inputs: seq<Range>, outputs: seq<Range>): Option<nat> {
    if inputs == [] then None else MaxOption(HighestWith(inputs[0], outputs), HighestCommon(inputs[1..], outputs))
  }

  lemma SupportsSplit(ranges: seq<Range>, rate: nat)
    requires ranges != []
    ensures Supports(ranges, rate) <==> ranges[0].Contains(rate) || Supports(ranges[1..], rate)
  {
    if Supports(ranges, rate) && !ranges[0].Contains(rate) {
      var k :| 0 <= k < |ranges| && ranges[k].Contains(rate);
      assert ranges[1..][k - 1].Contains(rate);
    }
    if Supports(ranges[1..], rate) {
      var k :| 0 <= k < |ranges[1..]| && ranges[1..][k].Contains(rate);
      assert ranges[k + 1].Contains(rate);
    }
  }

  lemma {:induction false} HighestWithIsHighest(i: Range, outputs: seq<Range>)
    ensures HighestWith(i, outputs).Some? ==>
              i.Contains(HighestWith(i, outputs).value) && Supports(outputs, HighestWith(i, outputs).value)
    ensures forall rate: nat :: i.Contains(rate) && Supports(outputs, rate) ==>
              HighestWith(i, outputs).Some? && rate <= HighestWith(i, outputs).value
  {
    if outputs != [] {
      HighestWithIsHighest(i, outputs[1..]);
      forall rate: nat
        ensures Supports(outputs, rate) <==> outputs[0].Contains(rate) || Supports(outputs[1..], rate)
      {
        SupportsSplit(outputs, rate);
      }
    }
  }

  /** The fallback is the greatest rate in both an input and an output range, and missing only if there is
      no such rate at all. */
  lemma {:induction false} HighestCommonIsHighest(inputs: seq<Range>, outputs: seq<Range>)
    ensures HighestCommon(inputs, outputs).Some? ==> Common(inputs, outputs, HighestCommon(inputs, outputs).value)
    ensures forall rate: nat :: Common(inputs, outputs, rate) ==>
              HighestCommon(inputs, outputs).Some? && rate <= HighestCommon(inputs, outputs).value
  {
    if inputs != [] {
      HighestCommonIsHighest(inputs[1..], outputs);
      HighestWithIsHighest(inputs[0], outputs);
      forall rate: nat
        ensures Common(inputs, outputs, rate) <==>
                (inputs[0].Contains(rate) && Supports(outputs, rate)) || Common(inputs[1..], outputs, rate)
      {
        SupportsSplit(inputs, rate);
      }
    }
  }

  // ---------------------------------------------------------------------------------------------
  // Channels
  // ---------------------------------------------------------------------------------------------

  function AtRate(ranges: seq<Range>, rate: nat): (r: seq<Range>)
    ensures forall x :: x in r <==> x in ranges && x.Contains(rate)
  {
    if ranges == [] then []
    else
      assert forall x :: x in ranges <==> x == ranges[0] || x in ranges[1..];
      (if ranges[0].Contains(rate) then [ranges[0]] else []) + AtRate(ranges[1..], rate)
  }

  /** A channel count fits: it is the preferred one if that is available at the rate, and otherwise that
      of a range that no other range with the rate exceeds. */
  ghost predicate FitChannels(ranges: seq<Range>, preferred: Option<nat>, rate: nat, channels: nat) {
    if preferred.Some? && Offers(AtRate(ranges, rate), preferred.value) then channels == preferred.value
    else exists r :: Greatest(r, AtRate(ranges, rate)) && r.channels == channels
  }

  method BestChannels(ranges: seq<Range>, preferred: Option<nat>, rate: nat) returns (channels: Option<nat>)
    ensures channels.Some? <==> Supports(ranges, rate)
    ensures channels.Some? ==> FitChannels(ranges, preferred, rate, channels.value)
    ensures channels.Some? ==> Offers(AtRate(ranges, rate), channels.value)
  {
    var available := AtRate(ranges, rate);
    assert available != [] ==> available[0] in ranges;
    assert Supports(ranges, rate) <==> available != [] by {
      if k :| 0 <= k < |ranges| && ranges[k].Contains(rate) {
        assert ranges[k] in available;
      }
    }
    if preferred.Some? && exists k :: 0 <= k < |available| && available[k].channels == preferred.value {
      channels := preferred;
    } else {
      var best := MaxBy(available);
      channels := if best.None? then None else Some(best.value.channels);
    }
  }

  // ---------------------------------------------------------------------------------------------
  // The whole choice
  // ---------------------------------------------------------------------------------------------

  function RateOf(c: Option<Config>): Option<nat> { if c.None? then None else Some(c.value.rate) }

  function ChannelsOf(c: Option<Config>): Option<nat> { if c.None? then None else Some(c.value.channels) }

  /** The rate is the first candidate that both directions support, or the highest common rate if they
      support none of the candidates. */
  ghost predicate FitRate(inputs: seq<Range>, outputs: seq<Range>, given: seq<nat>, rate: nat) {
    && Common(inputs, outputs, rate)
    && (forall r: nat :: (r in given || r == 48000 || r == 44100) && Common(inputs, outputs, r) ==>
                           r == rate || Before(rate, r, given))
    && (rate in given || rate == 48000 || rate == 44100 || forall r: nat :: Common(inputs, outputs, r) ==> r <= rate)
  }

  method ChooseRate(inputs: seq<Range>, outputs: seq<Range>, defaultInput: Option<Config>,
                    defaultOutput: Option<Config>)
    returns (rate: Option<nat>)
    ensures rate.Some? <==> exists r :: Common(inputs, outputs, r)
    ensures rate.Some? ==> FitRate(inputs, outputs, Given(RateOf(defaultInput), RateOf(defaultOutput)), rate.value)
  {
    var rates := CandidateRates(RateOf(defaultInput), RateOf(defaultOutput));
    ghost var given := Given(RateOf(defaultInput), RateOf(defaultOutput));
    rate := FirstCommon(rates, inputs, outputs);
    if rate.Some? {
      forall r: nat | r in rates && Common(inputs, outputs, r)
        ensures r == rate.value || Before(rate.value, r, given)
      {
        FirstCommonIsFirst(rates, given, inputs, outputs, r);
      }
    } else {
      rate := HighestCommon(inputs, outputs);
      HighestCommonIsHighest(inputs, outputs);
    }
  }

  /** `default_duplex_config`, given what the device reports. It succeeds exactly if the device supports
      duplex, both lists are available and some rate lies in a range of each; the channel lookups after
      the rate has been chosen cannot fail. */
  method DefaultDuplexConfig(supportsDuplex: bool, inputs: Result<seq<Range>>, outputs: Result<seq<Range>>,
                             defaultInput: Option<Config>, defaultOutput: Option<Config>)
    returns (r: Result<Duplex>)
    ensures r.Ok? <==>
              supportsDuplex && inputs.Ok? && outputs.Ok? && exists x :: Common(inputs.value, outputs.value, x)
    ensures !supportsDuplex ==> r == Err(Unsupported)
    ensures supportsDuplex && inputs.Err? ==> r == Err(inputs.error)
    ensures supportsDuplex && inputs.Ok? && outputs.Err? ==> r == Err(outputs.error)
    ensures supportsDuplex && inputs.Ok? && outputs.Ok? && r.Err? ==> r == Err(NoCommonRate)
    ensures r.Ok? ==>
              && FitRate(inputs.value, outputs.value, Given(RateOf(defaultInput), RateOf(defaultOutput)),
                         r.value.rate)
              && FitChannels(inputs.value, ChannelsOf(defaultInput), r.value.rate, r.value.input)
              && FitChannels(outputs.value, ChannelsOf(defaultOutput), r.value.rate, r.value.output)
    // The directions' own channel counts, where they can be had at the rate.
    ensures r.Ok? && defaultInput.Some? && Offers(AtRate(inputs.value, r.value.rate), defaultInput.value.channels) ==>
              r.value.input == defaultInput.value.channels
    ensures r.Ok? && defaultOutput.Some? &&
            Offers(AtRate(outputs.value, r.value.rate), defaultOutput.value.channels) ==>
              r.value.output == defaultOutput.value.channels
    ensures r.Ok? ==>
              && Offers(AtRate(inputs.value, r.value.rate), r.value.input)
              && Offers(AtRate(outputs.value, r.value.rate), r.value.output)
  {
    if !supportsDuplex {
      return Err(Unsupported);
    }
    if inputs.Err? {
      return Err(inputs.error);
    }
    if outputs.Err? {
      return Err(outputs.error);
    }
    var rate := ChooseRate(inputs.value, outputs.value, defaultInput, defaultOutput);
    if rate.None? {
      return Err(NoCommonRate);
    }
    var input := BestChannels(inputs.value, ChannelsOf(defaultInput), rate.value);
    if input.None? {
      return Err(NoInputConfig);
    }
    var output := BestChannels(outputs.value, ChannelsOf(defaultOutput), rate.value);
    if output.None? {
      return Err(NoOutputConfig);
    }
    return Ok(Duplex(input.value, output.value, rate.value));
  }

  /** What the order of the candidates comes to. The rate is a default of one direction whenever one of them is
      common, and the higher if both are; else 48000 if that is common, else 44100, else the highest there is. */
  lemma PreferredRate(inputs: seq<Range>, outputs: seq<Range>, input: Option<Config>, output: Option<Config>,
                      rate: nat)
    requires FitRate(inputs, outputs, Given(RateOf(input), RateOf(output)), rate)
    ensures input.Some? && Common(inputs, outputs, input.value.rate) ==>
              input.value.rate == rate || (output.Some? && input.value.rate < output.value.rate == rate)
    ensures output.Some? && Common(inputs, outputs, output.value.rate) ==>
              output.value.rate == rate || (input.Some? && output.value.rate < input.value.rate == rate)
    ensures !IsDefault(input, rate) && !IsDefault(output, rate) ==>
              rate == if Common(inputs, outputs, 48000) then 48000
                      else if Common(inputs, outputs, 44100) then 44100
                      else rate
    ensures !IsDefault(input, rate) && !IsDefault(output, rate) && rate != 48000 && rate != 44100 ==>
              forall r: nat :: Common(inputs, outputs, r) ==> r <= rate
  {
  }

  predicate IsDefault(c: Option<Config>, rate: nat) { c.Some? && c.value.rate == rate }

  /** The choice is unique as far as the rate goes. */
  lemma FitRateIsUnique(inputs: seq<Range>, outputs: seq<Range>, given: seq<nat>, a: nat, b: nat)
    requires FitRate(inputs, outputs, given, a) && FitRate(inputs, outputs, given, b)
    ensures a == b
  {
  }

  /** And as far as the channel counts go. */
  lemma FitChannelsIsUnique(ranges: seq<Range>, preferred: Option<nat>, rate: nat, a: nat, b: nat)
    requires FitChannels(ranges, preferred, rate, a) && FitChannels(ranges, preferred, rate, b)
    ensures a == b
  {
    if !(preferred.Some? && Offers(AtRate(ranges, rate), preferred.value)) {
      var r :| Greatest(r, AtRate(ranges, rate)) && r.channels == a;
      var s :| Greatest(s, AtRate(ranges, rate)) && s.channels == b;
      GreatestOnesAgree(r, s, AtRate(ranges, rate));
    }
  }
}
