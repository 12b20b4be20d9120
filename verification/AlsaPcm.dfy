/** An ALSA PCM handle as far as the duplex and drain code can see it.
 *
 * Calls follow the kernel's rules: each names the states in which it is legal, and a link group acts
 * as one for START, DROP, PREPARE and PAUSE. On top of that a device may fail calls, as its `fault` says
 * from now on; a call that fails changes nothing. The state also moves by itself, but only while time
 * passes in an I/O call or a poll.
 */
module AlsaPcm {
  import opened Wrappers

  datatype PcmState = Setup | Prepared | Running | XRun | Draining | Paused | Suspended | Disconnected

  datatype Errno = EAGAIN | EPIPE | EBUSY | ENOSYS | ENODEV | EIO

  datatype Ret = Ok | Err(errno: Errno)

  /** How a device answers a drain that is legal: it is over, it goes on, or it failed. */
  datatype DrainAnswer = Done | Busy | Faulty(errno: Errno)

  /** A handle that is gone or asleep cannot drain. */
  predicate Drainable(st: PcmState) { !st.Disconnected? && !st.Suspended? }

  function DrainResult(st: PcmState, answer: DrainAnswer): Ret {
    if !Drainable(st) then Err(ENODEV)
    else match answer
      case Done => Ok
      case Busy => Err(EAGAIN)
      case Faulty(errno) => Err(errno)
  }

  function AfterDrain(st: PcmState, answer: DrainAnswer): PcmState {
    var r := DrainResult(st, answer);
    if r.Ok? then Setup else if r == Err(EAGAIN) then Draining else st
  }

  datatype Io = Moved(n: nat) | Failed(errno: Errno)

  /** What ended a transfer before the period was whole: the error, whether any frame had moved, and whether the
      handle was suspended. */
  datatype Stop = Stop(errno: Errno, moved: bool, suspended: bool) {
    /** Nothing to transfer yet. */
    predicate IsSpurious() { errno == EAGAIN && !moved }

    /** The device has run dry, or over. */
    predicate IsUnderrun() { !IsSpurious() && !suspended && (errno == EAGAIN || errno == EPIPE) }
  }

  /** How a device answers the query for available frames. */
  datatype Avail = Frames(n: int) | NoAvail(errno: Errno)

  /** One frame of audio; the model never looks inside it. */
  type Frame = int

  /** What a handle that is left alone may turn into. */
  predicate Drifts(a: PcmState, b: PcmState) {
    || a == b
    || b.Disconnected?
    || (a.Running? && (b.XRun? || b.Suspended?))
    || (a.Draining? && (b.Setup? || b.XRun? || b.Suspended?))
    || ((a.Prepared? || a.Paused?) && b.Suspended?)
  }

  /** The kernel prepares a handle in any of these states. */
  predicate Idle(st: PcmState) { !st.Running? && !st.Draining? && !st.Disconnected? }

  datatype Direction = Input | Output

  datatype Call =
    PrepareCall | DropCall | StartCall(direction: Direction) | PauseCall | LinkCall | UnlinkCall | TransferCall

  /** What goes wrong: anything at any time, nothing, or every call of some kinds. */
  datatype Fault = Anything | Nothing | Only(calls: set<Call>)

  /** The sound card behind some handles. Its mood may change between calls. */
  class Device {
    var fault: Fault

    constructor (fault: Fault)
      ensures this.fault == fault
    {
      this.fault := fault;
    }

    /** It carries out every legal call. */
    predicate Reliable()
      reads this
    {
      fault.Nothing?
    }

    /** It changes state only as the calls and the passing of time require. */
    predicate Steady()
      reads this
    {
      !fault.Anything?
    }

    predicate Grants(call: Call)
      reads this
    {
      fault.Nothing? || (fault.Only? && call !in fault.calls)
    }

    predicate Refuses(call: Call)
      reads this
    {
      fault.Only? && call in fault.calls
    }

    method Works(call: Call) returns (b: bool)
      ensures Grants(call) ==> b
      ensures Refuses(call) ==> !b
    {
      b := *;
      b := if fault.Anything? then b else Grants(call);
    }
  }

  class Pcm {
    const device: Device
    const direction: Direction
    const capacity: nat
    /** How many queued frames set a prepared playback going by itself. */
    const startThreshold: Option<nat>
    var state: PcmState
    /** The other member of the link group. */
    var peer: Pcm?
    /** Frames written and not yet played. */
    var queued: nat
    /** Frames that were written and then thrown away unplayed. */
    ghost var lost: nat
    /** Every frame ever read from, or written to, this handle, in order. */
    ghost var moved: seq<Frame>

    constructor (device: Device, direction: Direction, capacity: nat, startThreshold: Option<nat>)
      ensures Valid() && peer == null && state == Prepared && queued == 0 && moved == [] && lost == 0
      ensures this.device == device && this.direction == direction
      ensures this.capacity == capacity && this.startThreshold == startThreshold
    {
      this.device, this.direction := device, direction;
      this.capacity, this.startThreshold := capacity, startThreshold;
      state, peer, queued, lost, moved := Prepared, null, 0, 0, [];
    }

    ghost predicate Valid()
      reads this, peer
    {
      && (peer != null ==> peer != this && peer.peer == this && peer.device == device)
      && queued <= capacity && (state.Setup? ==> queued == 0)
      && (peer != null ==> peer.queued <= peer.capacity && (peer.state.Setup? ==> peer.queued == 0))
    }

    ghost function Group(): set<Pcm>
      reads this
    {
      if peer == null then {this} else {this, peer}
    }

    /** Every member of the group is in state `st`. */
    ghost predicate All(st: PcmState)
      reads this, peer
    {
      state == st && (peer != null ==> peer.state == st)
    }

    ghost predicate CanPrepare()
      reads this, peer
    {
      Idle(state) && (peer != null ==> Idle(peer.state))
    }

    ghost predicate CanDrop()
      reads this, peer
    {
      !state.Disconnected? && (peer != null ==> !peer.state.Disconnected?)
    }

    ghost predicate Empty()
      reads this, peer
    {
      queued == 0 && (peer != null ==> peer.queued == 0)
    }

    /** A call on this handle has left it and its group alone. */
    twostate predicate Untouched()
      reads this, peer
    {
      && state == old(state) && queued == old(queued) && lost == old(lost) && peer == old(peer)
      && (peer != null ==>
            peer.state == old(peer.state) && peer.queued == old(peer.queued) && peer.lost == old(peer.lost))
    }

    /** It has thrown away what the group had queued. */
    twostate predicate Emptied()
      reads this, peer
    {
      && queued == 0 && lost == old(lost) + old(queued) && peer == old(peer)
      && (peer != null ==> peer.queued == 0 && peer.lost == old(peer.lost) + old(peer.queued))
    }

    method GetState() returns (st: PcmState)
      ensures st == state
    {
      st := state;
    }

    method SetAll(st: PcmState)
      requires Valid()
      requires st.Setup? ==> Empty()
      modifies Group()`state
      ensures All(st)
    {
      state := st;
      if peer != null {
        peer.state := st;
      }
    }

    method Flush()
      requires Valid()
      modifies Group()`queued, Group()`lost
      ensures Emptied()
    {
      lost := lost + queued;
      queued := 0;
      if peer != null {
        peer.lost := peer.lost + peer.queued;
        peer.queued := 0;
      }
    }

    method Prepare() returns (r: Ret)
      requires Valid()
      modifies Group()`state, Group()`queued, Group()`lost
      ensures r.Ok? ==> old(CanPrepare()) && All(Prepared) && Emptied()
      ensures r.Err? ==> Untouched()
      ensures device.Grants(PrepareCall) && old(CanPrepare()) ==> r.Ok?
      ensures Valid()
    {
      var works := device.Works(PrepareCall);
      r := PrepareIf(works);
    }

    /** The same with the device's answer given. */
    method PrepareIf(works: bool) returns (r: Ret)
      requires Valid()
      modifies Group()`state, Group()`queued, Group()`lost
      ensures r.Ok? <==> works && old(CanPrepare())
      ensures r.Ok? ==> All(Prepared) && Emptied()
      ensures r.Err? ==> Untouched() && r == Err(EBUSY)
      ensures Valid()
    {
      if works && Idle(state) && (peer == null || Idle(peer.state)) {
        SetAll(Prepared);
        Flush();
        return Ok;
      }
      return Err(EBUSY);
    }

    method Drop() returns (r: Ret)
      requires Valid()
      modifies Group()`state, Group()`queued, Group()`lost
      ensures r.Ok? ==> old(CanDrop()) && All(Setup) && Emptied()
      ensures r.Err? ==> Untouched()
      ensures device.Grants(DropCall) && old(CanDrop()) ==> r.Ok?
      ensures Valid()
    {
      var works := device.Works(DropCall);
      r := DropIf(works);
    }

    /** The same with the device's answer given. */
    method DropIf(works: bool) returns (r: Ret)
      requires Valid()
      modifies Group()`state, Group()`queued, Group()`lost
      ensures r.Ok? <==> works && old(CanDrop())
      ensures r.Ok? ==> All(Setup) && Emptied()
      ensures r.Err? ==> Untouched()
      ensures Valid()
    {
      if works && !state.Disconnected? && (peer == null || !peer.state.Disconnected?) {
        Flush();
        SetAll(Setup);
        return Ok;
      }
      return Err(ENODEV);
    }

    method Start() returns (r: Ret)
      requires Valid()
      modifies Group()`state
      ensures r.Ok? ==> old(All(Prepared)) && All(Running)
      ensures r.Err? ==> Untouched()
      ensures device.Grants(StartCall(direction)) && old(All(Prepared)) ==> r.Ok?
      ensures device.Refuses(StartCall(direction)) ==> r.Err?
      ensures device.Grants(StartCall(direction)) && r.Err? ==> r == Err(EBUSY)
      ensures Valid()
    {
      var works := device.Works(StartCall(direction));
      if works && state.Prepared? && (peer == null || peer.state.Prepared?) {
        SetAll(Running);
        return Ok;
      }
      var errno: Errno := *;
      return Err(if works then EBUSY else errno);
    }

    method Pause(enable: bool) returns (r: Ret)
      requires Valid()
      modifies Group()`state
      ensures r.Ok? ==> old(All(if enable then Running else Paused)) && All(if enable then Paused else Running)
      ensures r.Err? ==> Untouched()
      ensures device.Grants(PauseCall) && old(All(if enable then Running else Paused)) ==> r.Ok?
      ensures Valid()
    {
      var works := device.Works(PauseCall);
      var from, to := Paused, Running;
      if enable {
        from, to := Running, Paused;
      }
      if works && state == from && (peer == null || peer.state == from) {
        SetAll(to);
        return Ok;
      }
      return Err(EBUSY);
    }

    method Link(other: Pcm) returns (r: Ret)
      requires Valid() && other.Valid() && other != this && device == other.device
      modifies this`peer, other`peer
      ensures r.Ok? ==> old(peer) == null && old(other.peer) == null && peer == other && other.peer == this
      ensures r.Err? ==> peer == old(peer) && other.peer == old(other.peer)
      ensures device.Grants(LinkCall) && old(peer == null && other.peer == null) ==>
                (state == other.state && !state.Disconnected? ==> r.Ok?)
      ensures device.Refuses(LinkCall) ==> r.Err?
      ensures Valid() && other.Valid()
    {
      var works := device.Works(LinkCall);
      if works && peer == null && other.peer == null && state == other.state && !state.Disconnected? {
        peer, other.peer := other, this;
        return Ok;
      }
      return Err(EBUSY);
    }

    method Unlink() returns (r: Ret)
      requires Valid()
      modifies Group()`peer
      ensures r.Ok? ==> peer == null && (old(peer) != null ==> old(peer).peer == null)
      ensures r.Err? ==> peer == old(peer) && (peer != null ==> peer.peer == this)
      ensures device.Grants(UnlinkCall) && old(peer) != null ==> r.Ok?
      ensures device.Refuses(UnlinkCall) ==> r.Err?
      ensures Valid()
    {
      var works := device.Works(UnlinkCall);
      if works && peer != null {
        var other := peer;
        other.peer := null;
        peer := null;
        return Ok;
      }
      return Err(EBUSY);
    }

    /** Time passes. What is queued may be played; a device that is not steady may change state by itself. */
    method Elapse()
      requires Valid()
      modifies this`state, this`queued
      ensures Drifts(old(state), state) && queued <= old(queued)
      ensures device.Steady() ==> state == old(state) || (old(state).Draining? && state.Setup? && queued == 0)
      ensures device.Steady() && !old(state).Running? && !old(state).Draining? ==> queued == old(queued)
      ensures Valid()
    {
      var st: PcmState, played: int := *, *;
      if device.Steady() && !(state.Draining? && st.Setup?) {
        st := state;
      }
      if device.Steady() && !state.Running? && !state.Draining? {
        played := 0;
      }
      ElapseTo(st, if played < 0 then 0 else played);
    }

    /** The same with the new state given, and how much is played at most. A drain that is over has played
        everything. */
    method ElapseTo(st: PcmState, played: nat)
      requires Valid()
      modifies this`state, this`queued
      ensures state == if Drifts(old(state), st) then st else old(state)
      ensures queued == if old(state).Draining? && state.Setup? then 0
                        else if played <= old(queued) then old(queued) - played else 0
      ensures Valid()
    {
      var drained := state.Draining? && st.Setup?;
      queued := if drained || played > queued then 0 else queued - played;
      if Drifts(state, st) {
        state := st;
      }
    }

    /** The non-blocking drain, with the device's answer given. A drain that is over leaves `Setup` and has
        played everything, one that is not leaves `Draining`, and a refused one changes nothing. */
    method Drain(answer: DrainAnswer) returns (r: Ret)
      requires Valid()
      modifies this`state, this`queued
      ensures r == DrainResult(old(state), answer)
      ensures state == AfterDrain(old(state), answer)
      ensures queued == if state.Setup? && r.Ok? then 0 else old(queued)
      ensures Valid()
    {
      r := DrainResult(state, answer);
      if r.Ok? {
        queued := 0;
      }
      state := AfterDrain(state, answer);
    }

    /** Offers `buffer[from..]` to the device, which takes a non-empty prefix of it or refuses. Enough frames
        set a prepared playback going. */
    method Writei(buffer: array<Frame>, from: nat) returns (r: Io)
      requires Valid() && from < buffer.Length
      modifies this`state, this`queued, this`moved
      ensures Valid()
      ensures r.Moved? ==> 0 < r.n <= buffer.Length - from && moved == old(moved) + buffer[from..from + r.n]
      ensures r.Failed? ==> moved == old(moved)
      ensures r.Failed? && state.XRun? ==> r.errno == EPIPE
      ensures device.Steady() ==> (state.Disconnected? <==> old(state).Disconnected?)
      ensures startThreshold.None? ==> Drifts(old(state), state)
      ensures device.Grants(TransferCall) && r.Moved? ==>
                if old(state).Prepared? then
                  && queued == old(queued) + r.n
                  && state == if StartsAt(queued) then Running else Prepared
                else old(state).Running? && state.Running? && queued <= old(queued) + r.n
      ensures device.Grants(TransferCall) && r.Failed? && !old(state).Draining? ==>
                state == old(state) && queued <= old(queued) && (!old(state).Running? ==> queued == old(queued))
      ensures device.Grants(TransferCall) && (old(state).Prepared? || old(state).Running?) ==>
                && (old(queued) < capacity ==> r.Moved?)
                && (old(state).Prepared? && r.Moved? ==> old(queued) < capacity)
    {
      Elapse();
      var works := device.Works(TransferCall);
      if (state.Prepared? || state.Running?) && works {
        if queued == capacity {
          return Failed(EAGAIN);
        }
        var n: int := *;
        var most := if buffer.Length - from < capacity - queued then buffer.Length - from else capacity - queued;
        if n <= 0 || n > most {
          n := most;
        }
        queued := queued + n;
        moved := moved + buffer[from..from + n];
        if StartsAt(queued) {
          state := Running;
        }
        return Moved(n);
      }
      var errno: Errno := *;
      return Failed(if state.XRun? then EPIPE else errno);
    }

    predicate StartsAt(frames: nat) { startThreshold.Some? && frames >= startThreshold.value }

    /** Fills a non-empty prefix of `buffer[from..]` with captured frames, or refuses. */
    method Readi(buffer: array<Frame>, from: nat) returns (r: Io)
      requires Valid() && from < buffer.Length
      modifies this`state, this`queued, this`moved, buffer
      ensures Valid()
      ensures r.Moved? ==> 0 < r.n <= buffer.Length - from && moved == old(moved) + buffer[from..from + r.n]
      ensures r.Failed? ==> moved == old(moved)
      ensures r.Failed? && state.XRun? ==> r.errno == EPIPE
      ensures device.Steady() ==> (state.Disconnected? <==> old(state).Disconnected?)
      ensures buffer[..from] == old(buffer[..from])
      ensures device.Grants(TransferCall) && old(state).Running? ==> r.Moved? && state == old(state)
    {
      Elapse();
      var works := device.Works(TransferCall);
      if state.Running? && works {
        var n: int := *;
        if n <= 0 || n > buffer.Length - from {
          n := buffer.Length - from;
        }
        for k := 0 to n
          modifies buffer
          invariant buffer[..from] == old(buffer[..from])
        {
          buffer[from + k] := *;
        }
        moved := moved + buffer[from..from + n];
        return Moved(n);
      }
      var errno: Errno := *;
      return Failed(if state.XRun? then EPIPE else errno);
    }

    /** The available and delayed frames of the handle, with the device's answer given; the model keeps the
        first. Time passes until the answer comes. */
    method AvailDelay(answer: Avail) returns (r: Avail)
      requires Valid()
      modifies this`state, this`queued
      ensures Valid() && r == answer
      ensures Drifts(old(state), state) && queued <= old(queued)
      ensures device.Steady() ==> state == old(state) || (old(state).Draining? && state.Setup? && queued == 0)
    {
      Elapse();
      r := answer;
    }

    /** Hardware resume of a suspended handle, with the device's answer given: the error, or else whether it
        comes back running or only armed. */
    method Resume(failure: Option<Errno>, running: bool) returns (r: Ret)
      requires Valid()
      modifies this`state
      ensures Valid()
      ensures r == if failure.None? then Ok else Err(failure.value)
      ensures state == if failure.Some? then old(state) else if running then Running else Prepared
    {
      if failure.Some? {
        return Err(failure.value);
      }
      state := if running then Running else Prepared;
      return Ok;
    }
  }
}
