/** The JACK process handler: interleaving port buffers for the user's callback and back again, in
 *  buffers that are reallocated when the server changes its period.
 */
module Jack {
  import opened Xrun

  /** Samples are only moved here. */
  type Sample = real

  const EQUILIBRIUM: Sample := 0.0

  datatype Kind = Duplex | Input | Output

  /** Where sample `i` of channel `ch` lies among `channels` interleaved channels. */
  function Index(ch: nat, i: nat, channels: nat): nat { ch + i * channels }

  lemma IndexInside(ch: nat, i: nat, channels: nat, frames: nat)
    requires ch < channels && i < frames
    ensures Index(ch, i, channels) < frames * channels
  {
    assert (i + 1) * channels <= frames * channels;
  }

  /** No two samples share a place, */
  lemma IndexInjective(ch: nat, i: nat, ch': nat, i': nat, channels: nat)
    requires ch < channels && ch' < channels && Index(ch, i, channels) == Index(ch', i', channels)
    ensures ch == ch' && i == i'
  {
    assert i < i' ==> (i + 1) * channels <= i' * channels;
    assert i' < i ==> (i' + 1) * channels <= i * channels;
  }

  /** and every place holds one. */
  lemma IndexOnto(k: nat, channels: nat, frames: nat) returns (ch: nat, i: nat)
    requires k < frames * channels
    ensures ch < channels && i < frames && Index(ch, i, channels) == k
  {
    ch, i := k % channels, k / channels;
    assert k == k / channels * channels + k % channels;
    assert i >= frames ==> frames * channels <= i * channels;
  }

  /** `data` holds the first `frames` samples of every port, interleaved, and nothing else. */
  ghost predicate Interleaves(data: seq<Sample>, ports: seq<seq<Sample>>, frames: nat) {
    && |data| == frames * |ports|
    && (forall ch :: 0 <= ch < |ports| ==> frames <= |ports[ch]|)
    && (forall ch: nat, i: nat :: ch < |ports| && i < frames ==>
          Index(ch, i, |ports|) < |data| && data[Index(ch, i, |ports|)] == ports[ch][i])
  }

  /** `ports` hold `data`, deinterleaved, and silence after it. */
  ghost predicate Deinterleaves(ports: seq<seq<Sample>>, data: seq<Sample>, frames: nat) {
    && |data| == frames * |ports|
    && (forall ch: nat, i: nat :: ch < |ports| && i < |ports[ch]| && i < frames ==>
          Index(ch, i, |ports|) < |data| && ports[ch][i] == data[Index(ch, i, |ports|)])
    && (forall ch: nat, i: nat :: ch < |ports| && frames <= i < |ports[ch]| ==> ports[ch][i] == EQUILIBRIUM)
  }

  /** Frame after frame, and in each frame channel after channel, the first first. */
  lemma FramesInOrder(data: seq<Sample>, ports: seq<seq<Sample>>, frames: nat, ch: nat, i: nat)
    requires Interleaves(data, ports, frames) && ch < |ports| && i < frames
    ensures i * |ports| + |ports| == (i + 1) * |ports| <= |data|
    ensures data[i * |ports|..(i + 1) * |ports|][ch] == ports[ch][i]
  {
    assert (i + 1) * |ports| <= frames * |ports|;
    assert data[Index(ch, i, |ports|)] == ports[ch][i];
  }

  /** The same on the way back. */
  lemma FramesToPorts(ports: seq<seq<Sample>>, data: seq<Sample>, frames: nat, ch: nat, i: nat)
    requires Deinterleaves(ports, data, frames) && ch < |ports| && i < frames && i < |ports[ch]|
    ensures i * |ports| + |ports| == (i + 1) * |ports| <= |data|
    ensures ports[ch][i] == data[i * |ports|..(i + 1) * |ports|][ch]
  {
    assert (i + 1) * |ports| <= frames * |ports|;
    assert ports[ch][i] == data[Index(ch, i, |ports|)];
  }

  /** Interleaving leaves no choice: the ports determine the data. */
  lemma InterleavesIsUnique(a: seq<Sample>, b: seq<Sample>, ports: seq<seq<Sample>>, frames: nat)
    requires Interleaves(a, ports, frames) && Interleaves(b, ports, frames)
    ensures a == b
  {
    forall k: nat | k < |a|
      ensures a[k] == b[k]
    {
      var ch, i := IndexOnto(k, |ports|, frames);
    }
  }

  /** Writing back what was read restores every port: the frames that were read are unchanged, and the
      rest of a longer period is silence. */
  lemma WriteUndoesRead(input: seq<seq<Sample>>, data: seq<Sample>, output: seq<seq<Sample>>, frames: nat)
    requires Interleaves(data, input, frames) && Deinterleaves(output, data, frames) && |output| == |input|
    ensures forall ch: nat, i: nat :: ch < |output| && i < |output[ch]| && i < frames ==>
              output[ch][i] == input[ch][i]
    ensures forall ch: nat, i: nat :: ch < |output| && frames <= i < |output[ch]| ==> output[ch][i] == 0.0
  {
    forall ch: nat, i: nat | ch < |output| && i < |output[ch]| && i < frames
      ensures output[ch][i] == input[ch][i]
    {
      assert data[Index(ch, i, |input|)] == input[ch][i];
    }
  }

  /** Copies the first `frames` samples of the ports into the buffer. */
  method ReadInput(ports: seq<seq<Sample>>, temp: array<Sample>, frames: nat) returns (data: seq<Sample>)
    requires frames * |ports| <= temp.Length
    requires forall ch :: 0 <= ch < |ports| ==> frames <= |ports[ch]|
    modifies temp
    ensures Interleaves(data, ports, frames)
    ensures forall k :: frames * |ports| <= k < temp.Length ==> temp[k] == old(temp[k])
  {
    for ch := 0 to |ports|
      invariant forall c: nat, i: nat :: c < ch && i < frames ==>
                  Index(c, i, |ports|) < temp.Length && temp[Index(c, i, |ports|)] == ports[c][i]
      invariant forall k :: frames * |ports| <= k < temp.Length ==> temp[k] == old(temp[k])
    {
      ReadChannel(ports, ch, temp, frames);
    }
    data := temp[..frames * |ports|];
    forall ch: nat, i: nat | ch < |ports| && i < frames
      ensures Index(ch, i, |ports|) < |data| && data[Index(ch, i, |ports|)] == ports[ch][i]
    {
      IndexInside(ch, i, |ports|, frames);
    }
  }

  method ReadChannel(ports: seq<seq<Sample>>, ch: nat, temp: array<Sample>, frames: nat)
    requires ch < |ports| && frames <= |ports[ch]| && frames * |ports| <= temp.Length
    modifies temp
    ensures forall i: nat :: i < frames ==>
              Index(ch, i, |ports|) < temp.Length && temp[Index(ch, i, |ports|)] == ports[ch][i]
    ensures forall c: nat, i: nat :: c < |ports| && c != ch && Index(c, i, |ports|) < temp.Length ==>
              temp[Index(c, i, |ports|)] == old(temp[Index(c, i, |ports|)])
    ensures forall k :: frames * |ports| <= k < temp.Length ==> temp[k] == old(temp[k])
  {
    for i := 0 to frames
      invariant forall j: nat :: j < i ==>
                  Index(ch, j, |ports|) < temp.Length && temp[Index(ch, j, |ports|)] == ports[ch][j]
      invariant forall c: nat, j: nat :: c < |ports| && c != ch && Index(c, j, |ports|) < temp.Length ==>
                  temp[Index(c, j, |ports|)] == old(temp[Index(c, j, |ports|)])
      invariant forall k :: frames * |ports| <= k < temp.Length ==> temp[k] == old(temp[k])
    {
      IndexInside(ch, i, |ports|, frames);
      Separate(ch, i, |ports|);
      temp[Index(ch, i, |ports|)] := ports[ch][i];
    }
  }

  lemma Separate(ch: nat, i: nat, channels: nat)
    requires ch < channels
    ensures forall c: nat, j: nat :: c < channels && Index(c, j, channels) == Index(ch, i, channels) ==>
              c == ch && j == i
  {
    forall c: nat, j: nat | c < channels && Index(c, j, channels) == Index(ch, i, channels)
      ensures c == ch && j == i
    {
      IndexInjective(c, j, ch, i, channels);
    }
  }

  /** The playback side of one cycle: a row of port buffers, one per channel, as long as the period. */
  ghost function Rows(ports: array2<Sample>): (rows: seq<seq<Sample>>)
    reads ports
    ensures |rows| == ports.Length0
    ensures forall ch: nat :: ch < |rows| ==> |rows[ch]| == ports.Length1
    ensures forall ch: nat, i: nat :: ch < |rows| && i < ports.Length1 ==> rows[ch][i] == ports[ch, i]
  {
    seq(ports.Length0, ch requires 0 <= ch < ports.Length0 reads ports =>
      seq(ports.Length1, i requires 0 <= i < ports.Length1 reads ports => ports[ch, i]))
  }

  /** Fills the ports from the buffer and silences what is left of them. */
  method WriteOutput(ports: array2<Sample>, temp: array<Sample>, frames: nat)
    requires frames * ports.Length0 <= temp.Length && frames <= ports.Length1
    modifies ports
    ensures Deinterleaves(Rows(ports), temp[..frames * ports.Length0], frames)
  {
    for ch := 0 to ports.Length0
      invariant forall c: nat, i: nat :: c < ch && i < frames ==>
                  Index(c, i, ports.Length0) < temp.Length && ports[c, i] == temp[Index(c, i, ports.Length0)]
      invariant forall c: nat, i: nat :: c < ch && frames <= i < ports.Length1 ==> ports[c, i] == EQUILIBRIUM
    {
      WriteChannel(ports, ch, temp, frames);
    }
    forall ch: nat, i: nat | ch < ports.Length0 && i < frames
      ensures Index(ch, i, ports.Length0) < frames * ports.Length0
    {
      IndexInside(ch, i, ports.Length0, frames);
    }
  }

  method WriteChannel(ports: array2<Sample>, ch: nat, temp: array<Sample>, frames: nat)
    requires ch < ports.Length0 && frames * ports.Length0 <= temp.Length && frames <= ports.Length1
    modifies ports
    ensures forall i: nat :: i < frames ==>
              Index(ch, i, ports.Length0) < temp.Length && ports[ch, i] == temp[Index(ch, i, ports.Length0)]
    ensures forall i: nat :: frames <= i < ports.Length1 ==> ports[ch, i] == EQUILIBRIUM
    ensures forall c: nat, i: nat :: c < ports.Length0 && i < ports.Length1 && c != ch ==>
              ports[c, i] == old(ports[c, i])
  {
    for i := 0 to frames
      invariant forall j: nat :: j < i ==>
                  Index(ch, j, ports.Length0) < temp.Length && ports[ch, j] == temp[Index(ch, j, ports.Length0)]
      invariant forall c: nat, j: nat :: c < ports.Length0 && j < ports.Length1 && c != ch ==>
                ports[c, j] == old(ports[c, j])
    {
      IndexInside(ch, i, ports.Length0, frames);
      ports[ch, i] := temp[Index(ch, i, ports.Length0)];
    }
    for i := frames to ports.Length1
      invariant forall j: nat :: j < frames ==>
                  Index(ch, j, ports.Length0) < temp.Length && ports[ch, j] == temp[Index(ch, j, ports.Length0)]
      invariant forall j: nat :: frames <= j < i ==> ports[ch, j] == EQUILIBRIUM
      invariant forall c: nat, j: nat :: c < ports.Length0 && j < ports.Length1 && c != ch ==>
                ports[c, j] == old(ports[c, j])
    {
      ports[ch, i] := EQUILIBRIUM;
    }
  }

  /** Silences the part of the buffer this cycle uses. */
  method PrimeOutput(temp: array<Sample>, total: nat)
    requires total <= temp.Length
    modifies temp
    ensures temp[..total] == Silence(total)
  {
    for k := 0 to total
      invariant forall j :: 0 <= j < k ==> temp[j] == EQUILIBRIUM
    {
      temp[k] := EQUILIBRIUM;
    }
  }

  function Silence(n: nat): (s: seq<Sample>)
    ensures |s| == n
    ensures forall k :: 0 <= k < n ==> s[k] == EQUILIBRIUM
  {
    seq(n, _ => EQUILIBRIUM)
  }

  function Min(a: nat, b: nat): (least: nat)
    ensures least <= a && least <= b && (least == a || least == b)
  {
    if a < b then a else b
  }

  /** What the user's callback answers to the captured samples, the primed output and the xrun flag. */
  type Callback = (seq<Sample>, seq<Sample>, bool) -> seq<Sample>

  /** A callback fills the slice it is given. */
  ghost predicate Fills(callback: Callback) {
    forall input, primed, xrun :: |callback(input, primed, xrun)| == |primed|
  }

  /** What the capture ports hold in one cycle. */
  function Captured(source: (nat, nat, nat) -> Sample, cycle: nat, channels: nat, n: nat): (ports: seq<seq<Sample>>)
    ensures |ports| == channels && forall ch :: 0 <= ch < channels ==> |ports[ch]| == n
  {
    seq(channels, ch requires 0 <= ch => seq(n, i requires 0 <= i => source(cycle, ch, i)))
  }

  class ProcessHandler {
    const kind: Kind
    const inputs: nat
    const outputs: nat
    var bufferSize: nat
    var tempInput: array<Sample>
    var tempOutput: array<Sample>
    var playing: bool
    var pendingXrun: bool
    var oversizedReported: bool
    /** Every xrun, truncated cycle and callback so far. */
    ghost var log: seq<Event<Sample>>

    /** The buffers have room for a whole period, and a one-way stream has no ports the other way. */
    predicate Shaped()
      reads this
    {
      && tempInput.Length == inputs * bufferSize && tempOutput.Length == outputs * bufferSize
      && tempInput != tempOutput
      && (kind.Input? ==> outputs == 0) && (kind.Output? ==> inputs == 0)
    }

    ghost predicate Valid()
      reads this
    {
      && Shaped()
      && (pendingXrun <==> Owed(log)) && Exact(log)
    }

    constructor (kind: Kind, inputs: nat, outputs: nat, bufferSize: nat)
      requires (kind.Input? ==> outputs == 0) && (kind.Output? ==> inputs == 0)
      ensures Valid() && this.bufferSize == bufferSize && !playing && log == []
    {
      this.kind, this.inputs, this.outputs, this.bufferSize := kind, inputs, outputs, bufferSize;
      tempInput := new Sample[inputs * bufferSize](_ => EQUILIBRIUM);
      tempOutput := new Sample[outputs * bufferSize](_ => EQUILIBRIUM);
      playing, pendingXrun, oversizedReported, log := false, false, false, [];
    }

    /** The server changes its period; the buffers are replaced if it really is another. */
    method BufferSize(size: nat)
      requires Valid()
      modifies this`bufferSize, this`tempInput, this`tempOutput
      ensures Valid() && bufferSize == size
      ensures size == old(bufferSize) ==> tempInput == old(tempInput) && tempOutput == old(tempOutput)
      ensures size != old(bufferSize) ==> fresh(tempInput) && fresh(tempOutput)
    {
      if size != bufferSize {
        bufferSize := size;
        tempInput := new Sample[inputs * size](_ => EQUILIBRIUM);
        tempOutput := new Sample[outputs * size](_ => EQUILIBRIUM);
      }
    }

    /** The notification thread reports an xrun. */
    method OnXrun()
      requires Valid()
      modifies this`pendingXrun, this`log
      ensures Valid() && pendingXrun && log == old(log) + [Mark]
    {
      OwedAfter(log, Mark);
      ExactAfter(log, Mark);
      pendingXrun := true;
      log := log + [Mark];
    }

    /** JACK does not clear the port buffers itself. */
    method SilencePorts(ports: array2<Sample>)
      modifies ports
      ensures forall ch: nat, i: nat :: ch < ports.Length0 && i < ports.Length1 ==> ports[ch, i] == EQUILIBRIUM
    {
      var none := new Sample[0];
      WriteOutput(ports, none, 0);
      assert forall ch: nat, i: nat :: ch < ports.Length0 && i < ports.Length1 ==> Rows(ports)[ch][i] == ports[ch, i];
    }

    /** The middle of a cycle: captured samples to the callback, its answer to the ports. */
    method Exchange(frames: nat, inPorts: seq<seq<Sample>>, outPorts: array2<Sample>, callback: Callback, xrun: bool)
      returns (input: seq<Sample>, reply: seq<Sample>)
      requires Shaped() && Fills(callback) && frames <= bufferSize && |inPorts| == inputs &&
                outPorts.Length0 == outputs
      requires frames <= outPorts.Length1 && forall ch :: 0 <= ch < inputs ==> frames <= |inPorts[ch]|
      modifies tempInput, tempOutput, outPorts
      ensures Interleaves(input, inPorts, frames)
      ensures reply == callback(input, Silence(frames * outputs), xrun)
      ensures Deinterleaves(Rows(outPorts), reply, frames)
    {
      input := [];
      assert frames * inputs <= tempInput.Length && frames * outputs <= tempOutput.Length by {
        ProductsGrow(frames, bufferSize, inputs);
        ProductsGrow(frames, bufferSize, outputs);
      }
      if !kind.Output? {
        input := ReadInput(inPorts, tempInput, frames);
      }
      if !kind.Input? {
        PrimeOutput(tempOutput, frames * outputs);
      }
      reply := callback(input, tempOutput[..frames * outputs], xrun);
      if !kind.Input? {
        Fill(tempOutput, reply);
        WriteOutput(outPorts, tempOutput, frames);
      }
    }

    /** One cycle of `n` frames. `emitted` says whether the error callback could be reached. What the
        user's callback was given and what it answered are returned. */
    method Process(n: nat, inPorts: seq<seq<Sample>>, outPorts: array2<Sample>, callback: Callback, emitted: bool)
      returns (input: seq<Sample>, reply: seq<Sample>)
      requires Valid() && Fills(callback)
      requires |inPorts| == inputs && forall ch :: 0 <= ch < inputs ==> |inPorts[ch]| == n
      requires outPorts.Length0 == outputs && outPorts.Length1 == n
      modifies this`pendingXrun, this`oversizedReported, this`log, tempInput, tempOutput, outPorts
      ensures Valid()
      ensures !old(playing) ==>
                && log == old(log) && pendingXrun == old(pendingXrun)
                && forall ch: nat, i: nat :: ch < outputs && i < n ==> outPorts[ch, i] == 0.0
      ensures old(playing) ==>
                var frames := Min(n, bufferSize);
                var xrun := old(pendingXrun) || n > bufferSize;
                && !pendingXrun
                && oversizedReported == (n > bufferSize && (old(oversizedReported) || emitted))
                && log == old(log) + (if n > bufferSize then [Mark] else []) + [Deliver(input, xrun)]
                && Interleaves(input, inPorts, frames)
                && reply == callback(input, Silence(frames * outputs), xrun)
                && Deinterleaves(Rows(outPorts), reply, frames)
    {
      input, reply := [], [];
      if !playing {
        SilencePorts(outPorts);
        return;
      }
      var frames := Min(n, bufferSize);
      oversizedReported := n > bufferSize && (oversizedReported || emitted);
      var xrun := pendingXrun || n > bufferSize;
      pendingXrun := false;
      input, reply := Exchange(frames, inPorts, outPorts, callback, xrun);
      LogCycle(log, n > bufferSize, Deliver(input, xrun));
      log := log + (if n > bufferSize then [Mark] else []) + [Deliver(input, xrun)];
    }

    /** Any order of cycles of any length and content, period changes, xruns, starts and pauses: no access is out of
        range, and every callback reports an xrun exactly if one was marked, or its cycle truncated, since
        the callback before it. */
    method AnyOrder(steps: nat, source: (nat, nat, nat) -> Sample, callback: Callback)
      requires Valid() && Fills(callback)
      modifies this, tempInput, tempOutput
      ensures Valid() && Exact(log)
    {
      for k: nat := 0 to steps
        invariant Valid()
        invariant tempInput == old(tempInput) || fresh(tempInput)
        invariant tempOutput == old(tempOutput) || fresh(tempOutput)
      {
        var choice: int := *;
        var number: int := *;
        var flag: bool := *;
        var size := if number < 0 then 0 else number;
        if choice == 0 {
          BufferSize(size);
        } else if choice == 1 {
          OnXrun();
        } else if choice == 2 {
          playing := flag;
        } else {
          var captured := Captured(source, k, inputs, size);
          var ports := new Sample[outputs, size];
          var input, reply := Process(size, captured, ports, callback, flag);
        }
      }
    }
  }

  /** The user's callback leaves its answer in the slice. */
  method Fill(temp: array<Sample>, reply: seq<Sample>)
    requires |reply| <= temp.Length
    modifies temp
    ensures temp[..|reply|] == reply
  {
    for k := 0 to |reply|
      invariant temp[..k] == reply[..k]
    {
      temp[k] := reply[k];
    }
  }

  lemma LogCycle(log: seq<Event<Sample>>, truncated: bool, call: Event<Sample>)
    requires Exact(log) && call.Deliver? && (call.xrun <==> Owed(log) || truncated)
    ensures var after := log + (if truncated then [Mark] else []) + [call]; Exact(after) && !Owed(after)
  {
    var marked := log + if truncated then [Mark] else [];
    if truncated {
      OwedAfter(log, Mark);
      ExactAfter(log, Mark);
    } else {
      assert marked == log;
    }
    OwedAfter(marked, call);
    ExactAfter(marked, call);
  }

  lemma ProductsGrow(a: nat, b: nat, c: nat)
    requires a <= b
    ensures a * c <= b * c
  {
  }

  // ---------------------------------------------------------------------------------------------
  // Connecting ports
  // ---------------------------------------------------------------------------------------------

  type Pair = (string, string)

  function Pairs(pairs: seq<Pair>): set<Pair> { set k | 0 <= k < |pairs| :: pairs[k] }

  /** The connections of the JACK server, which refuses to connect what is connected already. */
  class PortGraph {
    /** The server connects whatever it may. */
    var willing: bool
    var connections: set<Pair>
    /** Disconnections that failed. */
    ghost var failures: nat

    method Connect(pair: Pair) returns (ok: bool)
      modifies this`connections
      ensures ok ==> pair !in old(connections) && connections == old(connections) + {pair}
      ensures !ok ==> connections == old(connections)
      ensures willing && pair !in old(connections) ==> ok
    {
      ok := *;
      if pair in connections {
        ok := false;
      } else if willing {
        ok := true;
      }
      if ok {
        connections := connections + {pair};
      }
    }

    method Disconnect(pair: Pair)
      modifies this`connections, this`failures
      ensures failures == old(failures) || failures == old(failures) + 1
      ensures connections == if failures == old(failures) then old(connections) - {pair} else old(connections)
    {
      var ok: bool := *;
      if ok {
        connections := connections - {pair};
      } else {
        failures := failures + 1;
      }
    }

    /** Connects the pairs one after the other. On failure, the graph is what it was before exactly if every
        disconnection of the rollback succeeded; connections made by others are never touched. */
    method ConnectPairs(pairs: seq<Pair>) returns (ok: bool)
      modifies this`connections, this`failures
      ensures willing ==> (ok <==> Distinct(pairs) && old(connections) !! Pairs(pairs))
      ensures ok ==> connections == old(connections) + Pairs(pairs) && old(connections) !! Pairs(pairs)
      ensures !ok ==> old(connections) <= connections <= old(connections) + Pairs(pairs)
      ensures !ok ==> (connections == old(connections) <==> failures == old(failures))
    {
      for i := 0 to |pairs|
        invariant connections == old(connections) + Pairs(pairs[..i]) && old(connections) !! Pairs(pairs[..i])
        invariant failures == old(failures)
        invariant Distinct(pairs[..i])
      {
        var connected := Connect(pairs[i]);
        if !connected {
          Rollback(pairs[..i], old(connections));
          assert Pairs(pairs[..i]) <= Pairs(pairs);
          return false;
        }
        assert Pairs(pairs[..i + 1]) == Pairs(pairs[..i]) + {pairs[i]};
      }
      assert pairs[..|pairs|] == pairs;
      return true;
    }

    method Rollback(made: seq<Pair>, ghost before: set<Pair>)
      requires connections == before + Pairs(made) && before !! Pairs(made) && Distinct(made)
      modifies this`connections, this`failures
      ensures before <= connections <= before + Pairs(made)
      ensures connections == before <==> failures == old(failures)
    {
      for k := 0 to |made|
        invariant before + Pairs(made[k..]) <= connections <= before + Pairs(made)
        invariant failures >= old(failures)
        invariant failures == old(failures) ==> connections == before + Pairs(made[k..])
        invariant failures > old(failures) ==> exists j :: 0 <= j < k && made[j] in connections
      {
        assert Pairs(made[k..]) == {made[k]} + Pairs(made[k + 1..]);
        Disconnect(made[k]);
      }
    }
  }

  predicate Distinct(pairs: seq<Pair>) { forall i, j :: 0 <= i < j < |pairs| ==> pairs[i] != pairs[j] }
}
