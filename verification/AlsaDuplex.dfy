/** A duplex stream: one capture and one playback handle that the kernel may tie into a link group. */
module AlsaDuplex {
  import opened AlsaPcm
  import opened Xrun
  import opened AlsaDrain
  import opened Wrappers

  const DEFAULT_PERIODS := 2

  const EQUILIBRIUM: Frame := 0

  function Silence(n: nat): (s: seq<Frame>)
    ensures |s| == n && forall k :: 0 <= k < n ==> s[k] == 0
  {
    seq(n, _ => EQUILIBRIUM)
  }

  /** How one direction of a cycle went: a whole period moved, nothing moved because the device was
      not ready, the pair was restarted (with this result), or the device refused. */
  datatype Transfer = Whole | NotReady | Restarted(result: Ret) | Refused(errno: Errno)

  /** How a whole cycle went. */
  datatype Cycle = Complete | NothingRead | NothingWritten | Recovered | Broken

  datatype DuplexPoll = Pending | Ready | Recover | PollFailed(errno: Errno)

  /** Everything the device answers while a period is waited for. A hang-up is reported as the loss of the device,
      ENODEV; the query of the events may also fail. */
  datatype Report = Report(poll: PollResult, selfPipe: bool, events: Option<Errno>, idle: bool, capture: Avail,
                           playback: Avail, status: Option<Errno>) {
    predicate IsEvent(limit: Option<nat>) { PollAnswer(poll, limit).Woken? && !selfPipe && events.None? && !idle }

    /** A whole period in both directions, and nothing fails. */
    predicate IsReady(limit: Option<nat>, period: nat) {
      && IsEvent(limit) && status.None?
      && capture.Frames? && capture.n >= period && playback.Frames? && playback.n >= period
    }
  }

  predicate NeedsAttention(st: PcmState) { st.Disconnected? || st.XRun? || st.Suspended? }

  /** What a handle's state calls for when a poll timed out. */
  function Outcome(st: PcmState): DuplexPoll {
    match st
    case Disconnected => PollFailed(ENODEV)
    case XRun => Recover
    case Suspended => Recover
    case _ => Pending
  }

  /** What a failed query for available frames calls for. */
  function AvailOutcome(st: PcmState, errno: Errno): DuplexPoll {
    if st.Suspended? || errno == EPIPE then Recover else PollFailed(errno)
  }

  /** `after` extends `before` by one callback on `input`, and perhaps an xrun marked after it. */
  predicate OneCallback(before: seq<Event<Frame>>, after: seq<Event<Frame>>, xrun: bool, input: seq<Frame>) {
    || after == before + [Xrun.Deliver(input, xrun)]
    || after == before + [Xrun.Deliver(input, xrun), Mark]
  }

  /** The user's callback may write anything into its output buffer. */
  method UserCallback(input: array<Frame>, output: array<Frame>)
    requires input != output
    modifies output
  {
    for k := 0 to output.Length {
      output[k] := *;
    }
  }

  class DuplexStream {
    const capture: Pcm
    const playback: Pcm
    const period: nat
    /** What the stream believes about the link group. */
    var linked: bool
    var pendingXrun: bool
    ghost var log: seq<Event<Frame>>

    constructor (capture: Pcm, playback: Pcm, period: nat)
      requires capture != playback && capture.Valid() && playback.Valid() && period > 0
      requires capture.peer == null && playback.peer == null && capture.device == playback.device
      requires capture.startThreshold.None? && playback.startThreshold.None?
      requires capture.direction.Input? && playback.direction.Output?
      ensures Valid() && this.capture == capture && this.playback == playback && this.period == period
    {
      this.capture, this.playback, this.period := capture, playback, period;
      linked, pendingXrun, log := false, false, [];
      new;
      assert !Owed(log);
    }

    ghost predicate Valid()
      reads this, capture, playback, capture.peer, playback.peer
    {
      && capture != playback && period > 0
      && capture.Valid() && playback.Valid()
      && capture.device == playback.device && capture.startThreshold.None? && playback.startThreshold.None?
      && capture.direction.Input? && playback.direction.Output?
      && (capture.peer == null || capture.peer == playback)
      && (playback.peer == null || playback.peer == capture)
      // `linked` is believed only of handles that really are linked.
      && (linked ==> Grouped())
      // Xruns are owed exactly as the flag says, and every callback so far was told the truth.
      && (pendingXrun <==> Owed(log))
      && Exact(log)
      && WholeBlocks(log, period)
    }

    ghost predicate Grouped()
      reads capture
    {
      capture.peer == playback
    }

    ghost predicate BothRunning()
      reads capture, playback
    {
      capture.state.Running? && playback.state.Running?
    }

    /** What `BeginDuplexPlayback` needs of a device that does not fail. */
    ghost predicate CanBegin()
      reads this, capture, playback
    {
      && capture.state.Prepared? && playback.state.Prepared?
      && playback.queued + DEFAULT_PERIODS * period <= playback.capacity
      && (Grouped() ==> linked)
    }

    method MarkXrun()
      requires Valid()
      modifies this`pendingXrun, this`log
      ensures Valid() && pendingXrun && log == old(log) + [Mark]
    {
      OwedAfter(log, Mark);
      ExactAfter(log, Mark);
      pendingXrun := true;
      log := log + [Mark];
    }

    /** Queues one period of silence on playback, in as many pieces as the device likes. */
    method WriteSilentPeriod(silence: array<Frame>) returns (r: Ret)
      requires Valid() && silence.Length == period && silence[..] == Silence(period)
      modifies playback`state, playback`queued, playback`moved
      ensures Valid()
      ensures r.Ok? ==> playback.moved == old(playback.moved) + Silence(period)
      ensures playback.device.Grants(TransferCall) && old(playback.state).Prepared? ==>
                && playback.state.Prepared?
                && (r.Ok? <==> old(playback.queued) + period <= playback.capacity)
                && (r.Ok? ==> playback.queued == old(playback.queued) + period)
      ensures playback.device.Grants(TransferCall) && old(playback.state).Running? ==> playback.state.Running?
      ensures playback.device.Grants(TransferCall) && r.Ok? ==>
                old(playback.state).Prepared? || old(playback.state).Running?
    {
      var written := 0;
      while written < period
        invariant 0 <= written <= period
        invariant Valid()
        invariant playback.moved == old(playback.moved) + Silence(written)
        invariant playback.device.Grants(TransferCall) && old(playback.state).Prepared? ==>
                    playback.state.Prepared? && playback.queued == old(playback.queued) + written
        invariant playback.device.Grants(TransferCall) && old(playback.state).Running? ==> playback.state.Running?
        invariant playback.device.Grants(TransferCall) ==>
                    written == 0 || old(playback.state).Prepared? || old(playback.state).Running?
        invariant written == 0 ==> playback.state == old(playback.state)
      {
        var io := playback.Writei(silence, written);
        if io.Failed? {
          return Err(io.errno);
        }
        written := written + io.n;
      }
      return Ok;
    }

    method Prefill() returns (r: Ret)
      requires Valid()
      modifies playback`state, playback`queued, playback`moved
      ensures Valid()
      ensures r.Ok? ==> playback.moved == old(playback.moved) + Silence(DEFAULT_PERIODS * period)
      ensures playback.device.Grants(TransferCall) && old(playback.state).Prepared? ==>
                && playback.state.Prepared?
                && (r.Ok? <==> old(playback.queued) + DEFAULT_PERIODS * period <= playback.capacity)
                && (r.Ok? ==> playback.queued == old(playback.queued) + DEFAULT_PERIODS * period)
      ensures playback.device.Grants(TransferCall) && r.Ok? ==>
                old(playback.state).Prepared? || playback.state.Running?
    {
      var silence := new Frame[period](_ => EQUILIBRIUM);
      ghost var done := 0;
      for round := 0 to DEFAULT_PERIODS
        modifies playback`state, playback`queued, playback`moved
        invariant Valid()
        invariant done == if round == 0 then 0 else if round == 1 then period else period + period
        invariant playback.moved == old(playback.moved) + Silence(done)
        invariant playback.device.Grants(TransferCall) && old(playback.state).Prepared? ==>
                    playback.state.Prepared? && playback.queued == old(playback.queued) + done
        invariant playback.device.Grants(TransferCall) && old(playback.state).Running? ==> playback.state.Running?
        invariant playback.device.Grants(TransferCall) && round > 0 ==>
                    old(playback.state).Prepared? || old(playback.state).Running?
        invariant round == 0 ==> playback.state == old(playback.state)
      {
        r := WriteSilentPeriod(silence);
        if r.Err? {
          return;
        }
        done := done + period;
      }
      return Ok;
    }

    /** Both handles armed and tied, behind the silence of a start that failed. */
    ghost predicate Stuck(before: nat)
      reads this, capture, playback
    {
      && capture.state.Prepared? && playback.state.Prepared? && linked && Grouped()
      && playback.queued == before + DEFAULT_PERIODS * period
    }

    /** Capture runs alone: playback could neither be tied to it nor started. */
    ghost predicate HalfStarted()
      reads this, capture, playback
    {
      capture.state.Running? && playback.state.Prepared? && !linked && !Grouped()
    }

    method BeginDuplexPlayback() returns (r: Ret)
      requires Valid()
      modifies this`linked, capture, playback
      ensures Valid() && capture.moved == old(capture.moved) && (old(linked) ==> linked)
      ensures playback.lost == old(playback.lost)
      ensures r.Ok? ==> |playback.moved| == old(|playback.moved|) + 2 * period
      ensures r.Ok? ==> BothRunning() && playback.moved == old(playback.moved) + Silence(DEFAULT_PERIODS * period)
      ensures capture.device.Reliable() ==> (r.Ok? <==> old(CanBegin())) && (r.Ok? ==> linked)
      ensures capture.device.Reliable() && r.Ok? ==>
                playback.queued == old(playback.queued) + DEFAULT_PERIODS * period
      // A group that is not known to be one cannot be started, whatever the device does.
      ensures old(Grouped() && !linked) ==> r.Err? && Grouped() && !linked
      // A start that fails has queued its silence, and may have set capture going.
      ensures capture.device.Refuses(StartCall(Input)) ==> r.Err?
      ensures capture.device.fault == Only({StartCall(Input)}) && old(CanBegin()) ==> Stuck(old(playback.queued))
      ensures capture.device.fault == HalfFault() && old(CanBegin() && !Grouped()) ==> r.Err? && HalfStarted()
    {
      hide Exact;
      hide Owed;
      hide WholeBlocks;
      r := Prefill();
      if r.Err? {
        return;
      }
      Tie();
      r := StartBoth();
    }

    /** Ties the handles into a group, if the kernel agrees. */
    method Tie()
      requires Valid()
      modifies this`linked, capture`peer, playback`peer
      ensures Valid() && (old(linked) ==> linked)
      ensures old(Grouped() && !linked) ==> Grouped() && !linked
      ensures linked || Grouped() == old(Grouped())
      ensures capture.device.Refuses(LinkCall) ==> linked == old(linked) && Grouped() == old(Grouped())
      ensures capture.device.Grants(LinkCall) && capture.state.Prepared? && playback.state.Prepared? &&
              (old(Grouped()) ==> old(linked)) ==>
                linked
    {
      if !linked {
        var tied := capture.Link(playback);
        if tied.Ok? {
          linked := true;
        }
      }
    }

    /** Starts the group through capture, or the two handles one after the other. */
    method StartBoth() returns (r: Ret)
      requires Valid()
      modifies capture`state, playback`state
      ensures Valid()
      ensures r.Ok? ==> BothRunning() && old(capture.state.Prepared? && playback.state.Prepared?)
      ensures Grouped() && !linked ==> r.Err?
      ensures capture.device.Grants(StartCall(Input)) && capture.device.Grants(StartCall(Output)) &&
              old(capture.state.Prepared? && playback.state.Prepared?) && (Grouped() ==> linked) ==>
                r.Ok?
      ensures capture.device.Refuses(StartCall(Input)) ==>
                r.Err? && capture.state == old(capture.state) && playback.state == old(playback.state)
      ensures capture.device.Grants(StartCall(Input)) && capture.device.Refuses(StartCall(Output)) &&
              old(capture.state.Prepared?) && !linked && !Grouped() ==>
                r.Err? && capture.state.Running? && playback.state == old(playback.state)
    {
      hide Exact;
      hide Owed;
      hide WholeBlocks;
      r := capture.Start();
      if r.Err? {
        return;
      }
      if !linked {
        r := playback.Start();
      }
    }

    /** The entry states in which `start_duplex` does anything. */
    predicate Startable()
      reads capture
    {
      capture.state.Prepared? || capture.state.Setup? || capture.state.Paused?
    }

    ghost predicate Resumable()
      reads capture, playback
    {
      capture.state.Paused? && playback.state.Paused? && !Grouped()
    }

    /** What `StartDuplex` needs, in a startable state, of a device that does not fail. */
    ghost predicate CanStart()
      reads this, capture, playback
    {
      || Resumable()
      || ((Grouped() ==> linked) && DEFAULT_PERIODS * period <= playback.capacity &&
          if capture.state.Paused? then CanRestart()
          else if capture.state.Setup? && Grouped() then Idle(playback.state)
          else playback.state.Setup? || (playback.state.Prepared? && CanPrefill()))
    }

    /** Arming the handles throws away what playback has queued. */
    ghost predicate Afresh()
      reads capture
    {
      capture.state.Paused? || (capture.state.Setup? && Grouped())
    }

    ghost predicate CanPrefill()
      reads playback
    {
      playback.queued + DEFAULT_PERIODS * period <= playback.capacity
    }

    ghost predicate CanRestart()
      reads capture, playback
    {
      !capture.state.Disconnected? && !playback.state.Disconnected?
    }

    method StartDuplex() returns (r: Ret)
      requires Valid()
      modifies this`linked, capture, playback
      ensures Valid() && capture.moved == old(capture.moved) && (old(linked) ==> linked)
      ensures r.Ok? && old(Startable()) ==> BothRunning()
      // The prefill runs once, unless the pair is resumed from a pause or there is nothing to start.
      ensures r.Ok? ==>
                || playback.moved == old(playback.moved) + Silence(DEFAULT_PERIODS * period)
                || (playback.moved == old(playback.moved) && (old(Resumable()) || !old(Startable())))
      ensures capture.device.Reliable() && old(Startable()) ==> (r.Ok? <==> old(CanStart()))
      // A resumed pair goes on with what is queued; one that has to be armed again loses it.
      ensures capture.device.Reliable() && old(Resumable()) ==>
                && playback.moved == old(playback.moved)
                && playback.queued == old(playback.queued) && playback.lost == old(playback.lost)
      ensures capture.device.Reliable() && old(Startable() && !Resumable()) && r.Ok? ==>
                && playback.queued == (if old(Afresh()) then 0 else old(playback.queued)) + DEFAULT_PERIODS * period
                && playback.lost == old(playback.lost) + (if old(Afresh()) then old(playback.queued) else 0)
      // In any other state it reports success and does nothing.
      ensures !old(Startable()) ==>
                && r.Ok? && linked == old(linked) && capture.Untouched() && playback.Untouched()
                && playback.moved == old(playback.moved)
      ensures capture.device.Reliable() && old(Startable()) && old(linked || !capture.state.Paused?) && r.Ok? ==>
                linked
      // A group that is not known to be one cannot be started, whatever the device does.
      ensures old(Grouped() && !linked && Startable()) ==> r.Err? && Grouped() && !linked
      // A start that fails has queued its silence, and may have set capture going.
      ensures capture.device.fault == Only({StartCall(Input)}) && old(CanBegin()) ==>
                r.Err? && Stuck(old(playback.queued))
      ensures capture.device.fault == HalfFault() && old(CanBegin() && !Grouped()) ==> r.Err? && HalfStarted()
    {
      var state := capture.GetState();
      match state {
        case Paused =>
          var resumed := ResumeBoth();
          if !resumed {
            r := RestartBoth();
            return;
          }
        case Prepared | Setup =>
          r := StartArmed();
          return;
        case _ =>
      }
      return Ok;
    }

    method ResumeBoth() returns (done: bool)
      requires Valid()
      modifies capture`state, playback`state
      ensures Valid()
      ensures done ==> old(Resumable()) && BothRunning()
      ensures capture.device.Reliable() && old(Resumable()) ==> done
      ensures old(CanRestart()) <==> CanRestart()
    {
      var resumed := capture.Pause(false);
      if resumed.Ok? {
        resumed := playback.Pause(false);
      }
      done := resumed.Ok?;
    }

    method ResetBoth() returns (r: Ret)
      requires Valid()
      modifies capture`state, capture`queued, capture`lost, playback`state, playback`queued, playback`lost
      ensures Valid()
      ensures r.Ok? ==> capture.state.Prepared? && playback.state.Prepared? && playback.queued == 0
      ensures playback.lost + playback.queued == old(playback.lost + playback.queued)
      ensures capture.device.Reliable() ==> (r.Ok? <==> old(CanRestart()))
    {
      hide Exact;
      hide Owed;
      hide WholeBlocks;
      HaltBoth();
      r := capture.Prepare();
      if r.Ok? {
        r := playback.Prepare();
      }
    }

    method HaltBoth()
      requires Valid()
      modifies capture`state, capture`queued, capture`lost, playback`state, playback`queued, playback`lost
      ensures Valid()
      ensures playback.lost + playback.queued == old(playback.lost + playback.queued)
      ensures old(CanRestart()) <==> CanRestart()
      ensures capture.device.Reliable() && CanRestart() ==> capture.state.Setup? && playback.state.Setup?
    {
      hide Exact;
      hide Owed;
      hide WholeBlocks;
      var _ := capture.Drop();
      var _ := playback.Drop();
    }

    /** Halts and arms both handles, whatever state they are in, and starts them. */
    method RestartBoth() returns (r: Ret)
      requires Valid()
      modifies this`linked, capture, playback
      ensures Valid() && capture.moved == old(capture.moved) && (old(linked) ==> linked)
      ensures r.Ok? ==> BothRunning() && playback.moved == old(playback.moved) + Silence(DEFAULT_PERIODS * period)
      ensures capture.device.Reliable() ==> (r.Ok? <==> old(CanRecover()))
      ensures r.Ok? ==> playback.lost == old(playback.lost) + old(playback.queued)
      ensures capture.device.Reliable() && r.Ok? ==> linked && playback.queued == DEFAULT_PERIODS * period
      ensures old(Grouped() && !linked) ==> r.Err? && Grouped() && !linked
    {
      hide Exact;
      hide Owed;
      hide WholeBlocks;
      r := ResetBoth();
      if r.Err? {
        return;
      }
      r := BeginDuplexPlayback();
    }

    method StartArmed() returns (r: Ret)
      requires Valid() && (capture.state.Prepared? || capture.state.Setup?)
      modifies this`linked, capture, playback
      ensures Valid() && capture.moved == old(capture.moved) && (old(linked) ==> linked)
      ensures r.Ok? ==> BothRunning() && playback.moved == old(playback.moved) + Silence(DEFAULT_PERIODS * period)
      ensures capture.device.Reliable() ==> (r.Ok? <==> old(CanStart()))
      ensures capture.device.Reliable() && r.Ok? ==> linked
      ensures old(Grouped() && !linked) ==> r.Err? && Grouped() && !linked
      ensures capture.device.Reliable() && r.Ok? ==>
                && playback.queued == (if old(Afresh()) then 0 else old(playback.queued)) + DEFAULT_PERIODS * period
                && playback.lost == old(playback.lost) + (if old(Afresh()) then old(playback.queued) else 0)
      ensures capture.device.fault == Only({StartCall(Input)}) && old(CanBegin()) ==>
                r.Err? && Stuck(old(playback.queued))
      ensures capture.device.fault == HalfFault() && old(CanBegin() && !Grouped()) ==> r.Err? && HalfStarted()
    {
      hide Exact;
      hide Owed;
      hide WholeBlocks;
      r := ArmBoth();
      if r.Ok? {
        r := BeginDuplexPlayback();
      }
    }

    /** Guards against Setup in case a prepare() failed silently before. */
    method ArmBoth() returns (r: Ret)
      requires Valid() && (capture.state.Prepared? || capture.state.Setup?)
      modifies capture`state, capture`queued, capture`lost, playback`state, playback`queued, playback`lost
      ensures Valid()
      ensures old(capture.state.Prepared? && !playback.state.Setup?) ==>
                r.Ok? && capture.Untouched() && playback.Untouched()
      ensures r.Ok? ==>
                && capture.state.Prepared?
                && playback.state == (if old(Afresh() || playback.state.Setup?) then Prepared else old(playback.state))
                && playback.queued == (if old(Afresh()) then 0 else old(playback.queued))
                && playback.lost == old(playback.lost) + (if old(Afresh()) then old(playback.queued) else 0)
      ensures capture.device.Reliable() ==> (r.Ok? <==> (old(Afresh()) ==> old(Idle(playback.state))))
    {
      hide Exact;
      hide Owed;
      hide WholeBlocks;
      r := Ok;
      var state := capture.GetState();
      if state.Setup? {
        r := capture.Prepare();
        if r.Err? {
          return;
        }
      }
      state := playback.GetState();
      if state.Setup? {
        r := playback.Prepare();
      }
    }

    /** What a restart needs of a device that does not fail. */
    ghost predicate CanRecover()
      reads this, capture, playback
    {
      CanRestart() && (Grouped() ==> linked) && DEFAULT_PERIODS * period <= playback.capacity
    }

    method RecoverDuplex() returns (r: Ret)
      requires Valid()
      modifies this`linked, this`pendingXrun, this`log, capture, playback
      ensures Valid() && pendingXrun && log == old(log) + [Mark]
      ensures capture.moved == old(capture.moved)
      ensures r.Ok? ==> BothRunning() && playback.moved == old(playback.moved) + Silence(DEFAULT_PERIODS * period)
      ensures r.Ok? ==> playback.lost == old(playback.lost) + old(playback.queued)
      ensures capture.device.Reliable() ==> (r.Ok? <==> old(CanRecover()))
    {
      MarkXrun();
      if linked {
        r := capture.Drop();
        if r.Err? {
          return;
        }
        r := capture.Prepare();
        if r.Err? {
          return;
        }
        r := BeginDuplexPlayback();
      } else {
        r := RestartBoth();
      }
    }

    /** `canPause` is what the two handles' hardware parameters say, or `None` if they could not be
        read. The second half of the method runs with the worker parked. */
    method PauseDuplex(canPause: Option<bool>) returns (r: Ret)
      requires Valid()
      modifies capture`state, capture`queued, capture`lost, playback`state, playback`queued, playback`lost
      ensures Valid()
      ensures r.Ok? ==> !capture.state.Running? && !playback.state.Running?
      ensures canPause.None? ==> r.Err?
      ensures capture.device.Reliable() && canPause.Some? && old(CanRestart()) ==> r.Ok?
      // A pair that runs is paused if both can be, and otherwise halted and armed again.
      ensures capture.device.Reliable() && canPause == Some(true) && old(BothRunning()) ==>
                && capture.state.Paused? && playback.state.Paused?
                && playback.queued == old(playback.queued) && playback.lost == old(playback.lost)
      ensures capture.device.Reliable() && canPause == Some(false) && old(BothRunning()) ==>
                && capture.state.Prepared? && playback.state.Prepared?
                && playback.queued == 0 && playback.lost == old(playback.lost) + old(playback.queued)
      // Without that, a pair of which neither runs is left alone.
      ensures canPause == Some(false) && old(!capture.state.Running? && !playback.state.Running?) ==>
                r.Ok? && capture.Untouched() && playback.Untouched()
    {
      if canPause.None? {
        return Err(EIO);
      }
      if canPause.value {
        var paused := PauseBoth();
        if paused {
          return Ok;
        }
      }
      var captureResult := DiscardIfRunning(capture);
      var playbackResult := DiscardIfRunning(playback);
      return if captureResult.Err? then captureResult else playbackResult;
    }

    method PauseBoth() returns (done: bool)
      requires Valid()
      modifies capture`state, playback`state
      ensures Valid()
      ensures done ==> !capture.state.Running? && !playback.state.Running?
      ensures old(CanRestart()) ==> CanRestart()
      ensures capture.device.Reliable() && old(BothRunning()) ==>
                done && capture.state.Paused? && playback.state.Paused?
    {
      var state := capture.GetState();
      if !state.Paused? {
        var paused := capture.Pause(true);
        if paused.Err? {
          return false;
        }
      }
      state := playback.GetState();
      if !state.Paused? {
        var paused := playback.Pause(true);
        if paused.Err? {
          return false;
        }
      }
      return true;
    }

    method DiscardIfRunning(handle: Pcm) returns (r: Ret)
      requires Valid() && (handle == capture || handle == playback)
      modifies capture`state, capture`queued, capture`lost, playback`state, playback`queued, playback`lost
      ensures Valid()
      ensures r.Ok? ==> !handle.state.Running?
      ensures forall p <- {capture, playback} :: !old(p.state).Running? ==> !p.state.Running?
      ensures old(CanRestart()) ==> CanRestart() && (capture.device.Reliable() ==> r.Ok?)
      ensures old(handle.state).Running? && r.Ok? ==> handle.All(Prepared) && handle.Emptied()
      ensures !old(handle.state).Running? ==> handle.Untouched() && r.Ok?
      ensures !Grouped() ==>
                forall p <- {capture, playback} - {handle} ::
                  p.state == old(p.state) && p.queued == old(p.queued) && p.lost == old(p.lost)
    {
      var state := handle.GetState();
      if state.Running? {
        r := DiscardBuffer(handle);
      } else {
        r := Ok;
      }
    }

    /** Pausing a running pair and starting it again. Nothing that was queued is lost if and only if the pair is
        paused in hardware and not linked; a linked pair never resumes, but starts anew. */
    method PauseAndStart(canPause: bool) returns (r: Ret)
      requires Valid() && capture.device.Reliable() && BothRunning()
      modifies this`linked, capture, playback
      ensures Valid() && (r.Ok? ==> BothRunning())
      ensures r.Ok? <==>
                || old(canPause && !Grouped())
                || (old(Grouped() ==> linked) && DEFAULT_PERIODS * period <= playback.capacity)
      ensures r.Ok? && old(canPause && !Grouped()) ==>
                && playback.moved == old(playback.moved)
                && playback.queued == old(playback.queued) && playback.lost == old(playback.lost)
      ensures r.Ok? && !old(canPause && !Grouped()) ==>
                && playback.moved == old(playback.moved) + Silence(DEFAULT_PERIODS * period)
                && playback.queued == DEFAULT_PERIODS * period
                && playback.lost == old(playback.lost) + old(playback.queued)
    {
      hide Exact;
      hide Owed;
      hide WholeBlocks;
      r := PauseDuplex(Some(canPause));
      r := StartDuplex();
    }

    /** Runs with the worker parked. */
    method StopDuplex(clock: Clock, timeout: Option<nat>, a: Answers) returns (r: Option<Ret>, ghost q: Progress)
      requires Valid()
      modifies this`linked, capture`peer, playback`peer
      modifies capture`state, capture`queued, capture`lost, playback`state, playback`queued, playback`lost, clock`now
      ensures Valid() && !linked
      ensures r == Some(Ok) ==> capture.state.Setup? || capture.state.Prepared?
      ensures r == Some(Ok) ==> playback.state.Prepared? || LeftToWorker(playback.state)
      // The group is dissolved, unless nobody knew about it or the device refuses.
      ensures capture.device.Grants(UnlinkCall) && (old(Grouped()) ==> old(linked)) ==> !Grouped()
      ensures capture.device.Refuses(UnlinkCall) || !old(linked) ==> Grouped() == old(Grouped())
      // Once it is, a stop without a time limit plays everything, whatever the device does.
      ensures !Grouped() && r == Some(Ok) && timeout.None? ==>
                && playback.queued == 0 && playback.lost == old(playback.lost)
                && playback.state == if a.last.Disconnected? then Disconnected else Prepared
      // And with one, it is the limit of the drain.
      ensures !Grouped() ==> At(playback, clock, q) && KeepsLimit(old(Alone(clock)), q, clock.limit, timeout, a)
      ensures r.None? <==> q.result.None?
      // A device that works stops whenever there is no time to wait or playback can be drained.
      ensures capture.device.Reliable() && Obliging(a) && (old(Grouped()) ==> old(linked)) && old(CanRestart()) &&
                r.Some? ==>
                && (r.value.Ok? <==> timeout == Some(0) || !old(playback.state).Suspended?)
                && (r.value.Ok? ==> playback.state.Prepared?)
      ensures capture.device.fault == Only({UnlinkCall}) && Obliging(a) && timeout == Some(0) && old(CanRestart()) ==>
                r == Some(Ok)
    {
      hide Exact;
      hide Owed;
      hide WholeBlocks;
      Untie();
      var captureResult := DiscardCapture();
      var drained;
      hide KeepsLimit;
      drained, q := DrainPlayback(clock, timeout, a);
      r := if drained.None? then None
           else Some(if captureResult.Err? then captureResult else drained.value);
    }

    /** Playback, as a handle of its own. */
    ghost function Alone(clock: Clock): Progress
      reads playback, clock
    {
      Progress(playback.state, playback.queued, playback.lost, None, clock.now, None, [])
    }

    method Untie()
      requires Valid()
      modifies this`linked, capture`peer, playback`peer
      ensures Valid() && !linked
      ensures capture.device.Grants(UnlinkCall) && (old(Grouped()) ==> old(linked)) ==> !Grouped()
      ensures capture.device.Refuses(UnlinkCall) || !old(linked) ==> Grouped() == old(Grouped())
    {
      if linked {
        linked := false;
        var _ := capture.Unlink();
      }
    }

    method DiscardCapture() returns (r: Ret)
      requires Valid()
      modifies capture`state, capture`queued, capture`lost, playback`state, playback`queued, playback`lost
      ensures Valid()
      ensures r.Ok? ==> capture.state.Setup? || capture.state.Prepared?
      ensures old(CanRestart()) ==> CanRestart()
      ensures capture.device.Grants(DropCall) && capture.device.Grants(PrepareCall) && old(CanRestart()) ==> r.Ok?
      ensures !Grouped() ==>
                && playback.state == old(playback.state) && playback.queued == old(playback.queued)
                && playback.lost == old(playback.lost)
    {
      r := Ok;
      var state := capture.GetState();
      if !state.Setup? {
        r := DiscardBuffer(capture);
      }
    }

    method DrainPlayback(clock: Clock, timeout: Option<nat>, a: Answers) returns (r: Option<Ret>, ghost q: Progress)
      requires Valid()
      modifies capture`state, capture`queued, capture`lost, playback`state, playback`queued, playback`lost, clock`now
      ensures Valid()
      ensures r == Some(Ok) ==> playback.state.Prepared? || LeftToWorker(playback.state)
      ensures old(capture.state.Setup? || capture.state.Prepared?) ==> capture.state.Setup? || capture.state.Prepared?
      ensures r == Some(Ok) && timeout.None? ==>
                && playback.queued == 0 && playback.lost == old(playback.lost)
                && playback.state == if a.last.Disconnected? then Disconnected else Prepared
      ensures r == q.result && At(playback, clock, q)
      ensures KeepsLimit(old(Seen(playback, clock)), q, clock.limit, timeout, a)
      ensures !Grouped() && Obliging(a) && old(CanRestart()) && r.Some? ==>
                && (r.value.Ok? <==> timeout == Some(0) || !old(playback.state).Suspended?)
                && (r.value.Ok? ==> playback.state.Prepared?)
      ensures Obliging(a) && timeout == Some(0) && old(CanRestart()) ==> r == Some(Ok)
    {
      ObligingDrain(Seen(playback, clock), clock.limit, timeout, a);
      DrainKeepsLimit(Seen(playback, clock), clock.limit, timeout, a);
      UnlimitedDrainPlaysEverything(Seen(playback, clock), clock.limit, a);
      hide Drained;
      hide KeepsLimit;
      r, q := DrainPcm(playback, clock, timeout, a);
    }

    /** Playback takes frames and has room for a period of them. */
    predicate HasRoom()
      reads this, playback
    {
      (playback.state.Prepared? || playback.state.Running?) && playback.queued + period <= playback.capacity
    }

    /** What a transfer that stopped early leads to. */
    predicate Answered(stop: Stop, t: Transfer) {
      && (t.NotReady? <==> stop.IsSpurious())
      && (t.Restarted? <==> stop.IsUnderrun() || (!stop.IsSpurious() && stop.suspended))
      && (t.Refused? ==> t.errno == stop.errno)
      && !t.Whole?
    }

    method ReadPeriod(buffer: array<Frame>) returns (t: Transfer, stop: Option<Stop>)
      requires Valid() && buffer.Length == period
      modifies this`linked, this`pendingXrun, this`log, capture, playback, buffer
      ensures Valid()
      ensures !t.Restarted? ==> log == old(log) && playback.moved == old(playback.moved)
      ensures t.Whole? ==> capture.moved == old(capture.moved) + buffer[..]
      ensures t.Whole? <==> stop.None?
      // An xrun, a suspend or running dry in the middle leads to a restart, and nothing else does.
      ensures stop.Some? ==> Answered(stop.value, t) && (stop.value.moved <==> capture.moved != old(capture.moved))
      ensures stop.Some? && !t.Restarted? ==>
                !(capture.state.XRun? && t.Refused?) && stop.value.suspended == capture.state.Suspended?
      ensures t.NotReady? ==> capture.moved == old(capture.moved)
      ensures capture.device.Reliable() && old(capture.state).Running? ==>
                t.Whole? && capture.state.Running? && playback.state == old(playback.state)
                && playback.queued == old(playback.queued)
      ensures t.Restarted? ==>
                && pendingXrun && log == old(log) + [Mark]
                && (capture.device.Reliable() ==> (t.result.Ok? <==> old(CanRecover())))
                && (t.result.Ok? ==>
                      BothRunning() && playback.moved == old(playback.moved) + Silence(DEFAULT_PERIODS * period))
    {
      hide Exact;
      hide Owed;
      hide WholeBlocks;
      var read;
      read, stop := ReadFrames(buffer);
      if stop.None? {
        return Whole, stop;
      }
      var errno := stop.value.errno;
      if errno == EAGAIN && read == 0 {
        return NotReady, stop;
      }
      if stop.value.suspended || errno == EAGAIN || errno == EPIPE {
        var recovered := RecoverDuplex();
        return Restarted(recovered), stop;
      }
      return Refused(errno), stop;
    }

    /** Reads until the buffer is full or the device fails. */
    method ReadFrames(buffer: array<Frame>) returns (read: nat, stop: Option<Stop>)
      requires Valid() && buffer.Length == period
      modifies capture`state, capture`queued, capture`moved, buffer
      ensures Valid() && read <= period && (stop.None? <==> read == period)
      ensures capture.moved == old(capture.moved) + buffer[..read]
      ensures stop.Some? ==>
                && (stop.value.moved <==> read > 0) && stop.value.suspended == capture.state.Suspended?
                && (capture.state.XRun? ==> stop.value.errno == EPIPE)
      ensures capture.device.Reliable() && old(capture.state).Running? ==> stop.None? && capture.state.Running?
      ensures capture.device.Reliable() ==> (CanRestart() <==> old(CanRestart()))
    {
      read, stop := 0, None;
      while read < period
        modifies capture`state, capture`queued, capture`moved, buffer
        invariant 0 <= read <= period && Valid() && stop.None?
        invariant capture.moved == old(capture.moved) + buffer[..read]
        invariant capture.device.Reliable() && old(capture.state).Running? ==> capture.state.Running?
        invariant capture.device.Reliable() ==> (CanRestart() <==> old(CanRestart()))
      {
        var io := capture.Readi(buffer, read);
        if io.Failed? {
          var state := capture.GetState();
          stop := Some(Stop(io.errno, read > 0, state.Suspended?));
          return;
        }
        read := read + io.n;
      }
    }

    method WritePeriod(buffer: array<Frame>) returns (t: Transfer, stop: Option<Stop>, ghost written: nat)
      requires Valid() && buffer.Length == period
      modifies this`linked, this`pendingXrun, this`log, capture, playback
      ensures Valid() && written <= period && capture.moved == old(capture.moved)
      ensures !t.Restarted? ==> log == old(log) && playback.moved == old(playback.moved) + buffer[..written]
      ensures t.Whole? <==> written == period
      ensures t.Whole? <==> stop.None?
      ensures stop.Some? ==> Answered(stop.value, t) && (stop.value.moved <==> written > 0)
      ensures stop.Some? && !t.Restarted? ==>
                !(playback.state.XRun? && t.Refused?) && stop.value.suspended == playback.state.Suspended?
      ensures t.NotReady? ==> written == 0
      ensures playback.device.Reliable() && old(HasRoom()) ==> t.Whole?
      ensures t.Restarted? ==>
                && pendingXrun && log == old(log) + [Mark]
                && (capture.device.Reliable() ==> (t.result.Ok? <==> old(CanRecover())))
                && (t.result.Ok? ==>
                      && BothRunning()
                      && playback.moved ==
                         old(playback.moved) + buffer[..written] + Silence(DEFAULT_PERIODS * period))
    {
      hide Exact;
      hide Owed;
      hide WholeBlocks;
      var sent;
      sent, stop := WriteFrames(buffer);
      written := sent;
      if stop.None? {
        return Whole, stop, written;
      }
      var errno := stop.value.errno;
      if errno == EAGAIN && sent == 0 {
        return NotReady, stop, written;
      }
      if stop.value.suspended || errno == EAGAIN || errno == EPIPE {
        var recovered := RecoverDuplex();
        return Restarted(recovered), stop, written;
      }
      return Refused(errno), stop, written;
    }

    /** Writes until the whole buffer is out or the device fails. */
    method WriteFrames(buffer: array<Frame>) returns (sent: nat, stop: Option<Stop>)
      requires Valid() && buffer.Length == period
      modifies playback`state, playback`queued, playback`moved
      ensures Valid() && sent <= period && (stop.None? <==> sent == period)
      ensures playback.moved == old(playback.moved) + buffer[..sent]
      ensures stop.Some? ==>
                && (stop.value.moved <==> sent > 0) && stop.value.suspended == playback.state.Suspended?
                && (playback.state.XRun? ==> stop.value.errno == EPIPE)
      ensures playback.device.Reliable() && old(HasRoom()) ==> stop.None?
      ensures playback.device.Reliable() ==> (CanRestart() <==> old(CanRestart()))
    {
      sent, stop := 0, None;
      while sent < period
        modifies playback`state, playback`queued, playback`moved
        invariant 0 <= sent <= period && Valid() && stop.None?
        invariant playback.moved == old(playback.moved) + buffer[..sent]
        invariant playback.device.Reliable() && old(HasRoom()) ==>
                    playback.state == old(playback.state) && playback.queued <= old(playback.queued) + sent
        invariant playback.device.Reliable() ==> (CanRestart() <==> old(CanRestart()))
      {
        var io := playback.Writei(buffer, sent);
        if io.Failed? {
          var state := playback.GetState();
          stop := Some(Stop(io.errno, sent > 0, state.Suspended?));
          return;
        }
        sent := sent + io.n;
      }
    }

    /** Hands the captured period to the user's callback, together with the pending xrun. */
    method Deliver(input: array<Frame>, output: array<Frame>)
      requires Valid() && input.Length == period && input != output
      modifies this`pendingXrun, this`log, output
      ensures Valid() && !pendingXrun
      ensures log == old(log) + [Xrun.Deliver(input[..], old(pendingXrun))]
    {
      var xrun := pendingXrun;
      pendingXrun := false;
      var call := Xrun.Deliver(input[..], xrun);
      OwedAfter(log, call);
      ExactAfter(log, call);
      log := log + [call];
      UserCallback(input, output);
    }

    /** One cycle of the worker after both handles reported a full period. `draining` is what the load
        of the suppression flag in the middle of the cycle returns. */
    method ProcessDuplex(captureBuffer: array<Frame>, playbackBuffer: array<Frame>, draining: bool)
      returns (r: Ret, cycle: Cycle)
      requires Valid() && captureBuffer.Length == playbackBuffer.Length == period
      requires captureBuffer != playbackBuffer
      modifies this`linked, this`pendingXrun, this`log, capture, playback, captureBuffer, playbackBuffer
      ensures Valid()
      ensures r.Ok? ==> !cycle.Broken?
      // A device that works completes the cycle.
      ensures capture.device.Reliable() && old(capture.state).Running? && old(HasRoom()) ==> cycle.Complete?
      // The callback ran at most once, on exactly the period read in this cycle, and not at all if
      // suppressed; apart from that at most one xrun was marked.
      ensures || log == old(log) || log == old(log) + [Mark]
              || (&& !draining && OneCallback(old(log), log, old(pendingXrun), captureBuffer[..])
                  && capture.moved == old(capture.moved) + captureBuffer[..])
      // (a) One full period read, the whole playback buffer written once and in order.
      ensures cycle.Complete? ==>
                && r.Ok?
                && capture.moved == old(capture.moved) + captureBuffer[..]
                && playback.moved == old(playback.moved) + playbackBuffer[..]
                && log == old(log) + (if draining then [] else [Xrun.Deliver(captureBuffer[..], old(pendingXrun))])
                && (draining ==> playbackBuffer[..] == Silence(period))
      // (b) The pair was restarted, behind two periods of silence, and the xrun is owed.
      ensures cycle.Recovered? ==>
                && pendingXrun
                && (r.Ok? ==>
                      && BothRunning()
                      && |playback.moved| >= DEFAULT_PERIODS * period
                      && playback.moved[|playback.moved| - DEFAULT_PERIODS * period..] ==
                         Silence(DEFAULT_PERIODS * period))
      // (c) The device was not ready and no frame moved in the direction being transferred.
      ensures cycle.NothingRead? ==>
                && r.Ok? && log == old(log)
                && capture.moved == old(capture.moved) && playback.moved == old(playback.moved)
      ensures cycle.NothingWritten? ==>
                && r.Ok? && playback.moved == old(playback.moved)
                && capture.moved == old(capture.moved) + captureBuffer[..]
    {
      hide Exact;
      hide Owed;
      hide WholeBlocks;
      var incoming, _ := ReadPeriod(captureBuffer);
      match incoming {
        case NotReady => return Ok, NothingRead;
        case Restarted(result) => return result, Recovered;
        case Refused(errno) => return Err(errno), Broken;
        case Whole =>
      }
      forall k | 0 <= k < period {
        playbackBuffer[k] := EQUILIBRIUM;
      }
      if !draining {
        Deliver(captureBuffer, playbackBuffer);
      }
      var outgoing, _, _ := WritePeriod(playbackBuffer);
      match outgoing {
        case NotReady => return Ok, NothingWritten;
        case Restarted(result) => return result, Recovered;
        case Refused(errno) => return Err(errno), Broken;
        case Whole => return Ok, Complete;
      }
    }

    /** Waits until both handles have a full period; any sign of an xrun or a suspend is marked. */
    method PollForDuplexPeriod(clock: Clock, limit: Option<nat>, d: Report) returns (p: DuplexPoll)
      requires Valid()
      modifies this`pendingXrun, this`log, clock`now
      modifies capture`state, capture`queued, playback`state, playback`queued
      ensures Valid()
      ensures log == if p.Recover? then old(log) + [Mark] else old(log)
      ensures p.Ready? <==> d.IsReady(limit, period)
      ensures d.poll.PollError? ==> p == PollFailed(d.poll.errno)
      // A poll that times out looks for what the events may have missed, on capture first.
      ensures PollAnswer(d.poll, limit).TimedOut? ==>
                if capture.state.Disconnected? then p == PollFailed(ENODEV)
                else if capture.state.XRun? || capture.state.Suspended? then p.Recover?
                else if playback.state.Disconnected? then p == PollFailed(ENODEV)
                else if playback.state.XRun? || playback.state.Suspended? then p.Recover?
                else p.Pending?
      ensures PollAnswer(d.poll, limit).Woken? && !d.selfPipe && d.events.Some? ==> p == PollFailed(d.events.value)
      ensures PollAnswer(d.poll, limit).Woken? && (d.selfPipe || (d.events.None? && d.idle)) ==> p.Pending?
      // A query that fails is an xrun, a suspend or an error; the second is made if the first worked.
      ensures d.IsEvent(limit) && d.capture.NoAvail? ==>
                p == if capture.state.Suspended? || d.capture.errno == EPIPE then Recover
                     else PollFailed(d.capture.errno)
      ensures d.IsEvent(limit) && d.capture.Frames? && d.playback.NoAvail? ==>
                p == if playback.state.Suspended? || d.playback.errno == EPIPE then Recover
                     else PollFailed(d.playback.errno)
      ensures d.IsEvent(limit) && d.capture.Frames? && d.playback.Frames? ==>
                p == if d.capture.n < period || d.playback.n < period then Pending
                     else if d.status.None? then Ready else PollFailed(d.status.value)
      ensures !p.Recover? ==> pendingXrun == old(pendingXrun)
      ensures playback.queued <= old(playback.queued)
      ensures capture.device.Steady() ==> (CanRestart() <==> old(CanRestart()))
      ensures capture.device.Steady() && !old(capture.state).Draining? ==> capture.state == old(capture.state)
      ensures capture.device.Steady() && !old(playback.state).Draining? ==> playback.state == old(playback.state)
    {
      hide Exact;
      hide Owed;
      hide WholeBlocks;
      var polled := PollBoth(clock, limit, d.poll);
      if polled.PollError? {
        return PollFailed(polled.errno);
      }
      if polled.TimedOut? {
        p := InspectStates();
        return;
      }
      if d.selfPipe {
        return Pending;
      }
      if d.events.Some? {
        return PollFailed(d.events.value);
      }
      if d.idle {
        return Pending;
      }
      p := InspectBoth(d);
    }

    /** Time passes over both handles. */
    method PollBoth(clock: Clock, limit: Option<nat>, answer: PollResult) returns (r: PollResult)
      requires Valid()
      modifies clock`now, capture`state, capture`queued, playback`state, playback`queued
      ensures Valid() && r == PollAnswer(answer, limit)
      ensures playback.queued <= old(playback.queued)
      ensures capture.device.Steady() ==> (CanRestart() <==> old(CanRestart()))
      ensures capture.device.Steady() && !old(capture.state).Draining? ==> capture.state == old(capture.state)
      ensures capture.device.Steady() && !old(playback.state).Draining? ==> playback.state == old(playback.state)
    {
      r := Poll(capture, clock, limit, answer);
      playback.Elapse();
    }

    method InspectStates() returns (p: DuplexPoll)
      requires Valid()
      modifies this`pendingXrun, this`log
      ensures Valid()
      ensures p == if NeedsAttention(capture.state) then Outcome(capture.state) else Outcome(playback.state)
      ensures log == if p.Recover? then old(log) + [Mark] else old(log)
      ensures !p.Recover? ==> pendingXrun == old(pendingXrun)
    {
      p := InspectState(capture);
      if p.Pending? {
        p := InspectState(playback);
      }
    }

    /** Whether both handles have a whole period. */
    method InspectBoth(d: Report) returns (p: DuplexPoll)
      requires Valid()
      modifies this`pendingXrun, this`log, capture`state, capture`queued, playback`state, playback`queued
      ensures Valid()
      ensures log == if p.Recover? then old(log) + [Mark] else old(log)
      ensures !p.Recover? ==> pendingXrun == old(pendingXrun)
      ensures d.capture.NoAvail? ==> p == AvailOutcome(capture.state, d.capture.errno)
      ensures d.capture.Frames? && d.playback.NoAvail? ==> p == AvailOutcome(playback.state, d.playback.errno)
      ensures d.capture.Frames? && d.playback.Frames? ==>
                p == if d.capture.n < period || d.playback.n < period then Pending
                     else if d.status.None? then Ready else PollFailed(d.status.value)
      ensures playback.queued <= old(playback.queued)
      ensures capture.device.Steady() ==> (CanRestart() <==> old(CanRestart()))
      ensures capture.device.Steady() && !old(capture.state).Draining? ==> capture.state == old(capture.state)
      ensures capture.device.Steady() && !old(playback.state).Draining? ==> playback.state == old(playback.state)
    {
      hide Exact;
      hide Owed;
      hide WholeBlocks;
      p := InspectAvail(capture, d.capture);
      if !p.Ready? {
        return;
      }
      p := InspectAvail(playback, d.playback);
      if !p.Ready? {
        return;
      }
      if d.capture.n < period || d.playback.n < period {
        p := Pending;
      } else if d.status.Some? {
        p := PollFailed(d.status.value);
      }
    }

    /** The state of one handle after a poll that timed out. */
    method InspectState(handle: Pcm) returns (p: DuplexPoll)
      requires Valid() && (handle == capture || handle == playback)
      modifies this`pendingXrun, this`log
      ensures Valid() && p == Outcome(handle.state)
      ensures log == if p.Recover? then old(log) + [Mark] else old(log)
    {
      var state := handle.GetState();
      match state {
        case Disconnected => p := PollFailed(ENODEV);
        case XRun | Suspended =>
          MarkXrun();
          p := Recover;
        case _ => p := Pending;
      }
    }

    method InspectAvail(handle: Pcm, answer: Avail) returns (p: DuplexPoll)
      requires Valid() && (handle == capture || handle == playback)
      modifies this`pendingXrun, this`log, handle`state, handle`queued
      ensures Valid()
      ensures log == if p.Recover? then old(log) + [Mark] else old(log)
      ensures p == if answer.Frames? then Ready else AvailOutcome(handle.state, answer.errno)
      ensures handle.queued <= old(handle.queued)
      ensures handle.device.Steady() ==> (CanRestart() <==> old(CanRestart()))
      ensures handle.device.Steady() && !old(handle.state).Draining? ==> handle.state == old(handle.state)
    {
      hide Exact;
      hide Owed;
      hide WholeBlocks;
      var r := handle.AvailDelay(answer);
      if r.Frames? {
        return Ready;
      }
      var state := handle.GetState();
      if state.Suspended? || r.errno == EPIPE {
        MarkXrun();
        return Recover;
      }
      return PollFailed(r.errno);
    }

    /** One turn of the worker's loop. A recovery marks its xrun a second time. */
    method WorkerTurn(captureBuffer: array<Frame>, playbackBuffer: array<Frame>, draining: bool, clock: Clock,
                      limit: Option<nat>, d: Report)
      returns (polled: DuplexPoll, result: Ret, cycle: Cycle)
      requires Valid() && captureBuffer.Length == playbackBuffer.Length == period
      requires captureBuffer != playbackBuffer
      modifies this`linked, this`pendingXrun, this`log, capture, playback, captureBuffer, playbackBuffer, clock`now
      ensures Valid()
      ensures |old(log)| <= |log| && log[..|old(log)|] == old(log)
      ensures draining ==> forall e <- log[|old(log)|..] :: !e.Deliver?
      ensures polled.Ready? <==> d.IsReady(limit, period)
      ensures polled.Pending? ==> result.Ok? && log == old(log)
      ensures polled.PollFailed? ==> result == Err(polled.errno) && log == old(log)
      ensures polled.Recover? ==>
                && pendingXrun && log == old(log) + [Mark, Mark] && (result.Ok? ==> BothRunning())
                && (capture.device.Reliable() ==> (result.Ok? <==> old(CanRecover())))
      // With a period ready in both directions a device that works completes the cycle.
      ensures polled.Ready? && capture.device.Reliable() && old(capture.state).Running? && old(HasRoom()) ==>
                cycle.Complete?
      // A cycle that completes moves one period each way, and the callback has run exactly once unless suppressed.
      ensures polled.Ready? && cycle.Complete? ==>
                && result.Ok?
                && capture.moved == old(capture.moved) + captureBuffer[..]
                && playback.moved == old(playback.moved) + playbackBuffer[..]
                && log == old(log) + (if draining then [] else [Xrun.Deliver(captureBuffer[..], old(pendingXrun))])
                && (draining ==> playbackBuffer[..] == Silence(period))
      // One that does not was restarted, moved nothing in the direction that was not ready, or fails.
      ensures polled.Ready? && cycle.Recovered? ==> pendingXrun && (result.Ok? ==> BothRunning())
      ensures polled.Ready? && cycle.NothingRead? ==>
                && result.Ok? && log == old(log)
                && capture.moved == old(capture.moved) && playback.moved == old(playback.moved)
      ensures polled.Ready? && cycle.NothingWritten? ==>
                && result.Ok? && playback.moved == old(playback.moved)
                && capture.moved == old(capture.moved) + captureBuffer[..]
      ensures polled.Ready? && cycle.Broken? ==> result.Err?
    {
      hide Exact;
      hide Owed;
      hide WholeBlocks;
      cycle := NothingRead;
      polled := PollForDuplexPeriod(clock, limit, d);
      result := Ok;
      match polled {
        case Pending =>
        case Recover => result := RecoverDuplex();
        case PollFailed(errno) => result := Err(errno);
        case Ready => result, cycle := ProcessDuplex(captureBuffer, playbackBuffer, draining);
      }
    }

    method OneAccess(handle: Pcm, access: PcmAccess)
      requires Valid() && (handle == capture || handle == playback)
      modifies capture, playback
      ensures Valid() && capture.peer == old(capture.peer)
    {
      hide Exact;
      hide Owed;
      hide WholeBlocks;
      match access {
        case PrepareIt => var _ := handle.Prepare();
        case DropIt => var _ := handle.Drop();
        case StartIt => var _ := handle.Start();
        case PauseIt(enable) => var _ := handle.Pause(enable);
        case DrainIt(answer) => var _ := handle.Drain(answer);
        case ResumeIt(failure, running) => var _ := handle.Resume(failure, running);
        case WaitForIt(avail) => var _ := handle.AvailDelay(avail);
        case Transfer(frames) => OneTransfer(handle, frames);
      }
    }

    method OneTransfer(handle: Pcm, frames: nat)
      requires Valid() && (handle == capture || handle == playback)
      modifies handle`state, handle`queued, handle`moved
      ensures Valid()
    {
      hide Exact;
      hide Owed;
      hide WholeBlocks;
      var buffer := new Frame[frames + 1];
      if handle.direction.Input? {
        var _ := handle.Readi(buffer, 0);
      } else {
        var _ := handle.Writei(buffer, 0);
      }
    }

    /** Any order of single accesses, so that a start or a pause may run beside the worker. `Valid` still holds
        after each. What matters is that `linked` is stored by the thread whose `link` worked, and that a stop,
        which finds neither thread between the two, clears it before it unlinks. */
    method AnyAccesses(length: nat)
      requires Valid()
      modifies this`linked, this`pendingXrun, this`log, capture, playback, capture.device
      ensures Valid()
      ensures |old(log)| <= |log| && log[..|old(log)|] == old(log)
    {
      hide Exact;
      hide Owed;
      hide WholeBlocks;
      var storing := false;
      for turn := 0 to length
        invariant Valid() && (storing ==> Grouped())
        invariant |old(log)| <= |log| && log[..|old(log)|] == old(log)
      {
        var choice: int := *;
        if choice == 0 {
          var access: PcmAccess, first: bool := *, *;
          OneAccess(if first then capture else playback, access);
        } else if choice == 1 {
          var tied := capture.Link(playback);
          storing := storing || tied.Ok?;
        } else if choice == 2 {
          linked := linked || storing;
          storing := false;
        } else if choice == 3 {
          if !storing {
            Untie();
          }
        } else if choice == 4 {
          MarkXrun();
        } else if choice == 5 {
          var input := new Frame[period];
          var output := new Frame[period];
          Deliver(input, output);
        } else {
          capture.device.fault := *;
        }
      }
    }

    /** Any history of a stream: turns of the worker and control calls in any order, whatever the
        device answers and however its mood changes. `Valid` carries what every history keeps: the belief
        about the link group is sound, callbacks get whole periods, and each is told of an xrun exactly when
        one is owed. The worker ends with the loss of the device. */
    method AnyHistory(length: nat, clock: Clock)
      requires Valid()
      modifies this`linked, this`pendingXrun, this`log, capture, playback, capture.device, clock`now
      ensures Valid()
      ensures |old(log)| <= |log| && log[..|old(log)|] == old(log)
    {
      var captureBuffer := new Frame[period];
      var playbackBuffer := new Frame[period];
      var alive := true;
      for turn := 0 to length
        invariant Valid() && fresh(captureBuffer) && fresh(playbackBuffer)
        invariant |old(log)| <= |log| && log[..|old(log)|] == old(log)
      {
        var choice: int := *;
        if choice == 0 {
          var _ := StartDuplex();
        } else if choice == 1 {
          var canPause: Option<bool> := *;
          var _ := PauseDuplex(canPause);
        } else if choice == 2 {
          var limit: int := *;
          var answers: Answers := *;
          var _, _ := StopDuplex(clock, if limit < 0 then None else Some(limit), answers);
        } else if choice == 3 {
          capture.device.fault := *;
        } else if alive {
          var draining: bool, limit: Option<nat>, d: Report := *, *, *;
          var _, result, _ := WorkerTurn(captureBuffer, playbackBuffer, draining, clock, limit, d);
          alive := result != Err(ENODEV);
        }
      }
    }
  }

  /** One access to a handle by either thread. */
  datatype PcmAccess =
    | PrepareIt | DropIt | StartIt | PauseIt(enable: bool) | DrainIt(answer: DrainAnswer)
    | ResumeIt(failure: Option<Errno>, running: bool) | WaitForIt(avail: Avail) | Transfer(frames: nat)

  /** Neither tying the handles nor starting playback by itself works. */
  function HalfFault(): Fault { Only({LinkCall, StartCall(Output)}) }

  method Build(device: Device, period: nat, capacity: nat) returns (s: DuplexStream)
    requires period > 0
    ensures s.Valid() && fresh(s) && fresh(s.capture) && fresh(s.playback)
    ensures s.capture.device == device && s.period == period && !s.linked && !s.Grouped()
    ensures s.capture.state.Prepared? && s.playback.state.Prepared?
    ensures s.playback.queued == 0 && s.playback.capacity == capacity
  {
    var capture := new Pcm(device, Input, capacity, None);
    var playback := new Pcm(device, Output, capacity, None);
    s := new DuplexStream(capture, playback, period);
  }

  /** A start that fails once, because the device refuses START, fails again on a device that works by then:
      the silence of the first attempt is still queued, and there is no room for that of the second. */
  method FailedStartBlocksTheNext(period: nat, capacity: nat) returns (s: DuplexStream, first: Ret, second: Ret)
    requires period > 0 && DEFAULT_PERIODS * period <= capacity < 2 * DEFAULT_PERIODS * period
    ensures first.Err? && second.Err? && s.capture.device.Reliable()
  {
    var device := new Device(Only({StartCall(Input)}));
    s := Build(device, period, capacity);
    first := s.StartDuplex();
    device.fault := Nothing;
    second := s.StartDuplex();
  }

  /** A start during which the device can neither tie the handles nor start playback sets capture going and
      fails. On a device that works by then the next start succeeds, and playback has still not been started. */
  method HalfStartIsTakenForRunning(period: nat, capacity: nat) returns (s: DuplexStream, first: Ret, second: Ret)
    requires period > 0 && DEFAULT_PERIODS * period <= capacity
    ensures first.Err? && second.Ok? && s.capture.device.Reliable()
    ensures s.capture.state.Running? && s.playback.state.Prepared? && !s.Grouped()
  {
    var device := new Device(HalfFault());
    s := Build(device, period, capacity);
    first := s.StartDuplex();
    device.fault := Nothing;
    second := s.StartDuplex();
  }

  /** A stop during which the device refuses to unlink leaves a group that nobody knows about. On a device
      that works by then, the next start fails, and another stop does not help: the flag keeps it from trying
      to unlink again. */
  method FailedUnlinkBlocksTheNext(period: nat, capacity: nat, clock: Clock)
    returns (s: DuplexStream, started: Ret, stopped: Option<Ret>, again: Ret)
    requires period > 0 && DEFAULT_PERIODS * period <= capacity
    modifies clock
    ensures started.Ok? && stopped == Some(Ok) && again.Err?
    ensures s.capture.device.Reliable() && s.Grouped() && !s.linked
  {
    var device := new Device(Nothing);
    s := Build(device, period, capacity);
    started := s.StartDuplex();
    device.fault := Only({UnlinkCall});
    var answers := Answers(true, 0, [], Setup, true, true);
    ghost var q;
    stopped, q := s.StopDuplex(clock, Some(0), answers);
    device.fault := Nothing;
    again := s.StartDuplex();
    var _, _ := s.StopDuplex(clock, Some(0), answers);
  }
}
