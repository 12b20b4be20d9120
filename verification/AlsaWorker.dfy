/** The worker of a stream with one handle, in either direction. */
module AlsaWorker {
  import opened AlsaPcm
  import opened Xrun
  import opened AlsaDrain
  import opened Wrappers

  datatype WorkerPoll = Pending | Ready | Recover | PollFailed(errno: Errno)

  /** How a suspended handle comes back: what the hardware parameters say, or `None` if they could not be read, how
      `resume()` fails, and whether a handle that is resumed runs at once. */
  datatype Wake = Wake(canResume: Option<bool>, failure: Option<Errno>, running: bool) {
    /** There is no soft resume, as the parameters say or the attempt shows. */
    predicate NeedsRestart() { canResume == Some(false) || (canResume == Some(true) && failure == Some(ENOSYS)) }

    predicate Fails() {
      canResume.None? || (canResume.value && failure.Some? && failure.value != ENOSYS && failure.value != EAGAIN)
    }
  }

  /** Everything the device answers while a period is waited for. A hang-up is reported as the loss of the device,
      ENODEV; the query of the events may also fail. */
  datatype Report = Report(poll: PollResult, selfPipe: bool, events: Option<Errno>, idle: bool, avail: Avail,
                           status: Option<Errno>, wake: Wake) {
    predicate IsEvent(limit: Option<nat>) { PollAnswer(poll, limit).Woken? && !selfPipe && events.None? && !idle }

    /** The device has reported a whole period, and nothing fails. */
    predicate IsReady(limit: Option<nat>, period: nat) {
      IsEvent(limit) && avail.Frames? && avail.n >= period && status.None?
    }
  }

  /** How a cycle went: `Resumed` is a suspended device that is coming back without a restart. */
  datatype Cycle = Complete | NotReady | Restarted | Resumed | Broken

  /** The log once an output callback has been given its turn. */
  function AfterCallback(log: seq<Event<Frame>>, draining: bool, xrun: bool): seq<Event<Frame>> {
    if draining then log else log + [Xrun.Deliver([], xrun)]
  }

  class Stream {
    const handle: Pcm
    const direction: Direction
    const period: nat
    var pendingXrun: bool
    ghost var log: seq<Event<Frame>>

    constructor (handle: Pcm, period: nat)
      requires handle.Valid() && handle.peer == null && period > 0
      ensures Valid() && this.handle == handle && this.period == period
    {
      this.handle, this.direction, this.period := handle, handle.direction, period;
      pendingXrun, log := false, [];
      new;
      assert !Owed(log);
    }

    ghost predicate Valid()
      reads this, handle
    {
      && handle.peer == null && handle.Valid() && handle.direction == direction && period > 0
      && (pendingXrun <==> Owed(log))
      && Exact(log)
      && (direction.Input? ==> WholeBlocks(log, period))
    }

    /** A handle that takes frames and has room for a period of them. */
    predicate HasRoom()
      reads this, handle
    {
      (handle.state.Prepared? || handle.state.Running?) && handle.queued + period <= handle.capacity
    }

    method MarkXrun()
      requires Valid()
      modifies this`pendingXrun, this`log
      ensures Valid() && pendingXrun && log == old(log) + [Mark]
    {
      OwedAfter(log, Mark);
      ExactAfter(log, Mark);
      pendingXrun := true;
      log := log + [Mark];
    }

    /** Hands `input` to the callback together with the pending xrun; an output callback gets none. */
    method Deliver(ghost input: seq<Frame>)
      requires Valid() && (direction.Input? ==> |input| == period)
      modifies this`pendingXrun, this`log
      ensures Valid() && !pendingXrun
      ensures log == old(log) + [Xrun.Deliver(input, old(pendingXrun))]
    {
      ghost var call := Xrun.Deliver(input, pendingXrun);
      OwedAfter(log, call);
      ExactAfter(log, call);
      pendingXrun := false;
      log := log + [call];
    }

    /** Arms the handle again after an xrun; capture must also be started, playback starts itself. */
    method RecoverStream() returns (r: Ret)
      requires Valid()
      modifies this`pendingXrun, this`log, handle`state, handle`queued, handle`lost
      ensures Valid() && pendingXrun && log == old(log) + [Mark]
      ensures r.Ok? ==> handle.state == if direction.Input? then Running else Prepared
      ensures handle.device.Reliable() ==> (r.Ok? <==> Idle(old(handle.state)))
    {
      MarkXrun();
      r := handle.Prepare();
      if r.Ok? && direction.Input? {
        r := handle.Start();
      }
    }

    /** A soft resume where the hardware has one; otherwise the xrun is marked and the caller restarts. */
    method TryResume(wake: Wake) returns (p: WorkerPoll)
      requires Valid()
      modifies this`pendingXrun, this`log, handle`state
      ensures Valid() && !p.Ready?
      ensures log == if p.Recover? then old(log) + [Mark] else old(log)
      ensures p.Recover? <==> wake.NeedsRestart()
      ensures wake.canResume.None? ==> p == PollFailed(EIO)
      ensures wake.canResume == Some(true) && wake.Fails() ==> p == PollFailed(wake.failure.value)
      ensures !wake.NeedsRestart() && !wake.Fails() && (direction.Output? || handle.device.Reliable()) ==> p.Pending?
      ensures p.Recover? ==> handle.state == old(handle.state)
      ensures handle.state == old(handle.state) || handle.state.Prepared? || handle.state.Running?
      // A handle that was resumed runs or is armed, and a capture is set going in either case.
      ensures p.Pending? && wake.failure.None? ==>
                && (handle.state.Prepared? || handle.state.Running?)
                && (wake.running || (handle.device.Reliable() && direction.Input?) ==> handle.state.Running?)
    {
      if wake.canResume.None? {
        return PollFailed(EIO);
      }
      if !wake.canResume.value {
        MarkXrun();
        return Recover;
      }
      var resumed := handle.Resume(wake.failure, wake.running);
      if resumed.Ok? {
        if direction.Input? {
          // The device may have come back armed rather than running; EBUSY means it already runs.
          var started := handle.Start();
          if started.Err? && started.errno != EBUSY {
            return PollFailed(started.errno);
          }
        }
        return Pending;
      }
      match resumed.errno {
        case EAGAIN => p := Pending;
        case ENOSYS =>
          MarkXrun();
          p := Recover;
        case _ => p := PollFailed(resumed.errno);
      }
    }

    /** Waits for a whole period. */
    method PollForPeriod(clock: Clock, limit: Option<nat>, d: Report) returns (p: WorkerPoll)
      requires Valid()
      modifies this`pendingXrun, this`log, handle`state, handle`queued, clock`now
      ensures Valid()
      ensures log == if p.Recover? then old(log) + [Mark] else old(log)
      ensures p.Ready? <==> d.IsReady(limit, period)
      ensures d.poll.PollError? ==> p == PollFailed(d.poll.errno)
      // A poll that times out looks for what the events may have missed.
      ensures PollAnswer(d.poll, limit).TimedOut? ==>
                && (handle.state.XRun? ==> p.Recover?)
                && (handle.state.Disconnected? ==> p == PollFailed(ENODEV))
                && (handle.state.Suspended? ==> (p.Recover? <==> d.wake.NeedsRestart()))
                && (p.Recover? ==> handle.state.XRun? || d.wake.NeedsRestart())
      ensures PollAnswer(d.poll, limit).Woken? && !d.selfPipe && d.events.Some? ==> p == PollFailed(d.events.value)
      ensures PollAnswer(d.poll, limit).Woken? && (d.selfPipe || (d.events.None? && d.idle)) ==> p.Pending?
      ensures d.IsEvent(limit) && d.avail.Frames? ==>
                p == if d.avail.n < period then Pending
                     else if d.status.None? then Ready else PollFailed(d.status.value)
      // A query that fails is an xrun, a suspend or an error.
      ensures d.IsEvent(limit) && d.avail.NoAvail? && p.Recover? ==> d.avail.errno == EPIPE || d.wake.NeedsRestart()
      ensures d.IsEvent(limit) && d.avail.NoAvail? && d.wake.NeedsRestart() ==>
                p.Recover? || (d.avail.errno != EPIPE && p == PollFailed(d.avail.errno))
      ensures d.IsEvent(limit) && d.avail.NoAvail? && handle.device.Steady() && !old(handle.state).Suspended? ==>
                p == if d.avail.errno == EPIPE then Recover else PollFailed(d.avail.errno)
      ensures p.Ready? ==> pendingXrun == old(pendingXrun) && handle.queued <= old(handle.queued)
      ensures (p.Ready? || p.Recover?) && handle.device.Steady() && !old(handle.state).Draining? ==>
                handle.state == old(handle.state)
    {
      var polled := Poll(handle, clock, limit, d.poll);
      if polled.PollError? {
        return PollFailed(polled.errno);
      }
      if polled.TimedOut? {
        p := InspectState(d.wake);
        return;
      }
      if d.selfPipe {
        return Pending;
      }
      if d.events.Some? {
        return PollFailed(d.events.value);
      }
      if d.idle {
        return Pending;
      }
      var avail := handle.AvailDelay(d.avail);
      if avail.NoAvail? {
        p := InspectFailure(avail.errno, d.wake);
      } else {
        p := if avail.n < period then Pending else if d.status.Some? then PollFailed(d.status.value) else Ready;
      }
    }

    /** What the handle's state calls for when a poll timed out. */
    method InspectState(wake: Wake) returns (p: WorkerPoll)
      requires Valid()
      modifies this`pendingXrun, this`log, handle`state
      ensures Valid() && !p.Ready?
      ensures log == if p.Recover? then old(log) + [Mark] else old(log)
      ensures old(handle.state).Disconnected? ==> p == PollFailed(ENODEV)
      ensures p.Recover? <==> old(handle.state).XRun? || (old(handle.state).Suspended? && wake.NeedsRestart())
      ensures old(handle.state).Suspended? && wake.Fails() ==> p.PollFailed?
      ensures p.Recover? ==> handle.state == old(handle.state)
      ensures handle.state == old(handle.state) ||
              (old(handle.state).Suspended? && (handle.state.Prepared? || handle.state.Running?))
      ensures old(handle.state) !in {Suspended, Disconnected, XRun} ==> p.Pending?
    {
      var state := handle.GetState();
      match state {
        case Disconnected => p := PollFailed(ENODEV);
        case XRun =>
          MarkXrun();
          p := Recover;
        case Suspended => p := TryResume(wake);
        case _ => p := Pending;
      }
    }

    /** What it calls for when the query for available frames failed. */
    method InspectFailure(errno: Errno, wake: Wake) returns (p: WorkerPoll)
      requires Valid()
      modifies this`pendingXrun, this`log, handle`state
      ensures Valid() && !p.Ready?
      ensures log == if p.Recover? then old(log) + [Mark] else old(log)
      ensures p.Recover? ==> handle.state == old(handle.state)
      ensures old(handle.state).Suspended? ==> (p.Recover? <==> wake.NeedsRestart()) && (wake.Fails() ==> p.PollFailed?)
      ensures !old(handle.state).Suspended? ==>
                handle.state == old(handle.state) && p == if errno == EPIPE then Recover else PollFailed(errno)
    {
      var state := handle.GetState();
      if state.Suspended? {
        p := TryResume(wake);
      } else if errno == EPIPE {
        MarkXrun();
        p := Recover;
      } else {
        p := PollFailed(errno);
      }
    }

    /** What a failed transfer leads to, given whether any frame had moved. */
    method HandleFailure(errno: Errno, moved: bool, wake: Wake) returns (r: Ret, cycle: Cycle, stop: Stop)
      requires Valid()
      modifies this`pendingXrun, this`log, handle`state, handle`queued, handle`lost
      ensures Valid()
      ensures stop == Stop(errno, moved, old(handle.state).Suspended?)
      ensures Answered(stop, wake, r, cycle)
      ensures cycle.Restarted? ==>
                pendingXrun && (r.Ok? ==> handle.state == if direction.Input? then Running else Prepared)
      ensures cycle.Restarted? && handle.device.Reliable() ==> (r.Ok? <==> Idle(old(handle.state)))
      ensures log == old(log) || log == old(log) + [Mark] || log == old(log) + [Mark, Mark]
      ensures !cycle.Restarted? ==> log == old(log)
    {
      var state := handle.GetState();
      stop := Stop(errno, moved, state.Suspended?);
      if errno == EAGAIN && !moved {
        return Ok, NotReady, stop;
      }
      if state.Suspended? {
        var resumed := TryResume(wake);
        match resumed {
          case Recover =>
            r := RecoverStream();
            cycle := Restarted;
          case PollFailed(failure) => return Err(failure), Broken, stop;
          case _ => return Ok, Resumed, stop;
        }
      } else if errno == EAGAIN || errno == EPIPE {
        r := RecoverStream();
        cycle := Restarted;
      } else {
        return Err(errno), Broken, stop;
      }
    }

    /** Each way for a transfer to stop has its consequence: a spurious wakeup none, an underrun a restart, a suspend
        a resume or, where there is none, a restart, and anything else the error. */
    predicate Answered(stop: Stop, wake: Wake, r: Ret, cycle: Cycle) {
      && (cycle.NotReady? <==> stop.IsSpurious())
      && (cycle.Restarted? <==> stop.IsUnderrun() || (!stop.IsSpurious() && stop.suspended && wake.NeedsRestart()))
      && (stop.suspended && wake.Fails() && !stop.IsSpurious() ==> cycle.Broken?)
      && (cycle.Broken? && !stop.suspended ==> r == Err(stop.errno))
      && (cycle.Resumed? ==> stop.suspended)
      && (cycle.Broken? ==> r.Err?)
      && (cycle.NotReady? || cycle.Resumed? ==> r.Ok?)
      && !cycle.Complete?
    }

    method ProcessInput(buffer: array<Frame>, draining: bool, wake: Wake)
      returns (r: Ret, cycle: Cycle, stop: Option<Stop>)
      requires Valid() && direction.Input? && buffer.Length == period
      modifies this`pendingXrun, this`log, handle, buffer
      ensures Valid()
      ensures r.Ok? ==> !cycle.Broken?
      ensures cycle.Complete? <==> stop.None?
      ensures stop.Some? ==> Answered(stop.value, wake, r, cycle)
      ensures stop.Some? ==> (stop.value.moved <==> handle.moved != old(handle.moved))
      // A whole period was read and is what the callback got, or the callback did not run.
      ensures cycle.Complete? ==>
                && r.Ok?
                && handle.moved == old(handle.moved) + buffer[..]
                && log == old(log) + (if draining then [] else [Xrun.Deliver(buffer[..], old(pendingXrun))])
      ensures !cycle.Complete? ==> log == old(log) || log == old(log) + [Mark] || log == old(log) + [Mark, Mark]
      ensures cycle.NotReady? ==> log == old(log) && handle.moved == old(handle.moved)
      ensures cycle.Restarted? ==> pendingXrun && (r.Ok? ==> handle.state.Running?)
      ensures handle.device.Reliable() && old(handle.state).Running? ==> cycle.Complete?
    {
      var read, failure := 0, None;
      while read < period
        modifies handle`state, handle`queued, handle`moved, buffer
        invariant 0 <= read <= period && Valid() && failure.None?
        invariant handle.moved == old(handle.moved) + buffer[..read]
        invariant handle.device.Reliable() && old(handle.state).Running? ==> handle.state.Running?
      {
        var io := handle.Readi(buffer, read);
        if io.Failed? {
          failure := Some(io.errno);
          break;
        }
        read := read + io.n;
      }
      if failure.Some? {
        var ended: Stop;
        r, cycle, ended := HandleFailure(failure.value, read > 0, wake);
        stop := Some(ended);
        return;
      }
      if !draining {
        Deliver(buffer[..]);
      }
      return Ok, Complete, None;
    }

    /** Writes until the whole buffer is out or the device fails. */
    method WriteBuffer(buffer: array<Frame>) returns (written: nat, failure: Option<Errno>)
      requires Valid() && buffer.Length == period
      modifies handle`state, handle`queued, handle`moved
      ensures Valid() && written <= period && (failure.None? <==> written == period)
      ensures handle.moved == old(handle.moved) + buffer[..written]
      ensures handle.device.Reliable() && old(HasRoom()) ==>
                failure.None? && (handle.state.Prepared? || handle.state.Running?)
      // A period that fills the buffer up to the threshold sets the stream going.
      ensures handle.device.Reliable() && old(HasRoom()) && old(handle.state).Running? ==> handle.state.Running?
      ensures handle.device.Reliable() && old(HasRoom()) && old(handle.state).Prepared? ==>
                && (handle.StartsAt(old(handle.queued) + period) ==> handle.state.Running?)
                && (!handle.StartsAt(old(handle.queued) + period) ==>
                      handle.state.Prepared? && handle.queued == old(handle.queued) + period)
    {
      written, failure := 0, None;
      while written < period
        modifies handle`state, handle`queued, handle`moved
        invariant 0 <= written <= period && Valid() && failure.None?
        invariant handle.moved == old(handle.moved) + buffer[..written]
        invariant handle.device.Reliable() && old(HasRoom()) ==>
                    && (handle.state.Prepared? || handle.state.Running?)
                    && handle.queued <= old(handle.queued) + written
        invariant handle.device.Reliable() && old(HasRoom()) && handle.state.Prepared? ==>
                    && old(handle.state).Prepared? && handle.queued == old(handle.queued) + written
                    && (written > 0 ==> !handle.StartsAt(old(handle.queued) + written))
        invariant handle.device.Reliable() && old(HasRoom()) && old(handle.state).Prepared? &&
                  handle.state.Running? ==>
                    handle.StartsAt(old(handle.queued) + written)
      {
        var io := handle.Writei(buffer, written);
        if io.Failed? {
          failure := Some(io.errno);
          break;
        }
        written := written + io.n;
      }
    }

    method ProcessOutput(buffer: array<Frame>, equilibrium: Frame, draining: bool, wake: Wake)
      returns (r: Ret, cycle: Cycle, stop: Option<Stop>)
      requires Valid() && direction.Output? && buffer.Length == period
      modifies this`pendingXrun, this`log, handle, buffer
      ensures Valid()
      ensures r.Ok? ==> !cycle.Broken?
      ensures cycle.Complete? <==> stop.None?
      ensures stop.Some? ==> Answered(stop.value, wake, r, cycle)
      ensures stop.Some? ==> (stop.value.moved <==> handle.moved != old(handle.moved))
      // The whole buffer went out once and in order, the callback's or silence.
      ensures cycle.Complete? ==>
                && r.Ok?
                && handle.moved == old(handle.moved) + buffer[..] && handle.lost == old(handle.lost)
                && log == AfterCallback(old(log), draining, old(pendingXrun))
                && (draining ==> forall f <- buffer[..] :: f == equilibrium)
      // The callback ran exactly once unless suppressed, and xruns were marked only after it.
      ensures var called := AfterCallback(old(log), draining, old(pendingXrun));
              log == called || log == called + [Mark] || log == called + [Mark, Mark]
      ensures cycle.NotReady? ==> handle.moved == old(handle.moved)
      ensures cycle.Restarted? ==> pendingXrun && (r.Ok? ==> handle.state.Prepared?)
      ensures handle.device.Reliable() && old(HasRoom()) ==> cycle.Complete?
      ensures handle.device.Reliable() && old(HasRoom()) && old(handle.state).Running? ==> handle.state.Running?
      ensures handle.device.Reliable() && old(HasRoom()) && old(handle.state).Prepared? ==>
                && (handle.StartsAt(old(handle.queued) + period) ==> handle.state.Running?)
                && (!handle.StartsAt(old(handle.queued) + period) ==>
                      handle.state.Prepared? && handle.queued == old(handle.queued) + period)
    {
      forall k | 0 <= k < period {
        buffer[k] := equilibrium;
      }
      if !draining {
        Deliver([]);
        for k := 0 to period
          modifies buffer
        {
          buffer[k] := *;
        }
      }
      var written, failure := WriteBuffer(buffer);
      if failure.Some? {
        var ended: Stop;
        r, cycle, ended := HandleFailure(failure.value, written > 0, wake);
        stop := Some(ended);
        return;
      }
      return Ok, Complete, None;
    }

    /** The PCM part of `start()`: an input is set going, an output starts by itself once it is fed. */
    method StartPcm() returns (r: Ret)
      requires Valid()
      modifies handle`state, handle`queued, handle`lost
      ensures Valid()
      ensures r.Ok? ==>
                && (old(handle.state).Paused? ==> handle.state.Running?)
                && (old(handle.state).Prepared? || old(handle.state).Setup? ==>
                      handle.state == if direction.Input? then Running else Prepared)
      ensures !old(handle.state).Setup? ==> handle.queued == old(handle.queued) && handle.lost == old(handle.lost)
      ensures old(handle.state) !in {Prepared, Paused, Setup} ==> r.Ok? && handle.state == old(handle.state)
      ensures direction.Output? && old(handle.state).Prepared? ==> r.Ok? && handle.state.Prepared?
      ensures handle.device.Reliable() ==> r.Ok?
    {
      r := Ok;
      var state := handle.GetState();
      match state {
        case Prepared =>
          if direction.Input? {
            r := handle.Start();
          }
        case Paused =>
          r := handle.Pause(false);
        case Setup =>
          r := handle.Prepare();
          if r.Ok? && direction.Input? {
            r := handle.Start();
          }
        case _ =>
      }
    }

    /** `pause()`: in hardware if that is supported, otherwise by discarding the buffer with the worker
        parked. A device that works refuses only a hardware pause of a stream that is not running. */
    method SuspendPcm(canPause: Option<bool>) returns (r: Ret)
      requires Valid()
      modifies handle`state, handle`queued, handle`lost
      ensures Valid()
      ensures r.Ok? ==> canPause.Some? && !handle.state.Running?
      ensures r.Ok? && canPause.value ==>
                handle.state.Paused? && handle.queued == old(handle.queued) && handle.lost == old(handle.lost)
      ensures r.Ok? && !canPause.value ==>
                handle.state == if old(handle.state).Running? then Prepared else old(handle.state)
      ensures r.Ok? && !canPause.value && old(handle.state).Running? ==>
                handle.queued == 0 && handle.lost == old(handle.lost) + old(handle.queued)
      ensures handle.device.Reliable() ==>
                (r.Ok? <==> canPause.Some? &&
                            (canPause.value ==> old(handle.state).Running? || old(handle.state).Paused?))
    {
      if canPause.None? {
        return Err(EIO);
      }
      r := Ok;
      var state := handle.GetState();
      if canPause.value {
        if !state.Paused? {
          r := handle.Pause(true);
        }
      } else if state.Running? {
        r := DiscardBuffer(handle);
      }
    }

    /** `stop()`, with the worker parked: an input discards what it has captured, an output drains. */
    method StopPcm(clock: Clock, timeout: Option<nat>, a: Answers) returns (r: Option<Ret>, ghost q: Progress)
      requires Valid()
      modifies handle`state, handle`queued, handle`lost, clock`now
      ensures Valid()
      ensures r == Some(Ok) ==>
                if direction.Input? then handle.state.Prepared? || handle.state.Setup?
                else handle.state.Prepared? || LeftToWorker(handle.state)
      ensures direction.Input? && old(handle.state).Setup? ==> r == Some(Ok) && handle.state.Setup?
      ensures direction.Input? && !old(handle.state).Setup? && r == Some(Ok) ==> handle.state.Prepared?
      // An output is drained with just this time limit.
      ensures direction.Output? ==>
                && At(handle, clock, q) && r == q.result
                && q == Drained(old(Seen(handle, clock)), clock.limit, timeout, a)
                && KeepsLimit(old(Seen(handle, clock)), q, clock.limit, timeout, a)
      // Without a time limit an output plays everything that is queued, whatever the device does, and
      // without any time it throws everything away.
      ensures direction.Output? && r == Some(Ok) && timeout.None? ==>
                && handle.queued == 0 && handle.lost == old(handle.lost)
                && handle.state == if a.last.Disconnected? then Disconnected else Prepared
      ensures direction.Output? && r == Some(Ok) && timeout == Some(0) ==>
                handle.lost == old(handle.lost) + old(handle.queued)
      // A device that works stops an input unless it is gone, and an output if it can be drained.
      ensures handle.device.Reliable() && direction.Input? ==> (r == Some(Ok) <==> !old(handle.state).Disconnected?)
      ensures direction.Output? && Obliging(a) && r.Some? ==>
                && (r.value.Ok? <==> !old(handle.state).Disconnected? &&
                                     (timeout == Some(0) || !old(handle.state).Suspended?))
                && (r.value.Ok? ==> handle.state.Prepared?)
    {
      if direction.Output? {
        ObligingDrain(Seen(handle, clock), clock.limit, timeout, a);
        DrainKeepsLimit(Seen(handle, clock), clock.limit, timeout, a);
        UnlimitedDrainPlaysEverything(Seen(handle, clock), clock.limit, a);
        ZeroTimeDiscards(Seen(handle, clock), clock.limit, a);
        hide Drained;
        hide KeepsLimit;
        r, q := DrainPcm(handle, clock, timeout, a);
        return;
      }
      q := Seen(handle, clock);
      var state := handle.GetState();
      if state.Setup? {
        return Some(Ok), q;
      }
      var discarded := DiscardBuffer(handle);
      return Some(discarded), q;
    }

    /** Pausing a running stream and starting it again brings it back: with a hardware pause nothing that
        was queued is lost, and an output whose buffer was discarded waits to be fed. */
    method PauseAndStart(canPause: bool) returns (r: Ret)
      requires Valid() && handle.device.Reliable() && handle.state.Running?
      modifies handle`state, handle`queued, handle`lost
      ensures Valid() && r.Ok?
      ensures canPause ==>
                handle.state.Running? && handle.queued == old(handle.queued) && handle.lost == old(handle.lost)
      ensures !canPause ==> handle.state == if direction.Input? then Running else Prepared
    {
      r := SuspendPcm(Some(canPause));
      r := StartPcm();
    }

    /** One turn of the worker's loop. */
    method Turn(buffer: array<Frame>, equilibrium: Frame, draining: bool, clock: Clock, limit: Option<nat>, d: Report)
      returns (polled: WorkerPoll, result: Ret, cycle: Cycle)
      requires Valid() && buffer.Length == period
      modifies this`pendingXrun, this`log, handle, buffer, clock`now
      ensures Valid()
      ensures |old(log)| <= |log| && log[..|old(log)|] == old(log)
      ensures polled.Ready? <==> d.IsReady(limit, period)
      ensures polled.Pending? ==> result.Ok? && log == old(log)
      ensures polled.PollFailed? ==> result == Err(polled.errno) && log == old(log)
      ensures polled.Recover? ==>
                && pendingXrun && log == old(log) + [Mark, Mark]
                && (result.Ok? ==> handle.state == if direction.Input? then Running else Prepared)
                && (handle.device.Reliable() && !old(handle.state).Draining? ==>
                      (result.Ok? <==> Idle(old(handle.state))))
      // With a period ready a device that works moves it and the callback runs, unless suppressed.
      ensures polled.Ready? && handle.device.Reliable() &&
              (if direction.Input? then old(handle.state).Running? else old(HasRoom())) ==>
                cycle.Complete?
      // A cycle that completes moves exactly one period, and the callback has run exactly once unless suppressed.
      ensures polled.Ready? && cycle.Complete? ==>
                && result.Ok?
                && handle.moved == old(handle.moved) + buffer[..]
                && (draining ==> log == old(log))
                && (!draining && direction.Input? ==>
                      log == old(log) + [Xrun.Deliver(buffer[..], old(pendingXrun))])
                && (!draining && direction.Output? ==> log == old(log) + [Xrun.Deliver([], old(pendingXrun))])
                && (draining && direction.Output? ==> forall f <- buffer[..] :: f == equilibrium)
      ensures polled.Ready? && cycle.Broken? ==> result.Err?
    {
      cycle := NotReady;
      polled := PollForPeriod(clock, limit, d);
      result := Ok;
      match polled {
        case Pending =>
        case Recover => result := RecoverStream();
        case PollFailed(errno) => result := Err(errno);
        case Ready =>
          var stop: Option<Stop>;
          if direction.Input? {
            result, cycle, stop := ProcessInput(buffer, draining, d.wake);
          } else {
            result, cycle, stop := ProcessOutput(buffer, equilibrium, draining, d.wake);
          }
      }
    }

    /** Any run of the worker, with the suppression flag and the device free to change every turn.
        Across all of it, each callback reports an xrun exactly when one is owed. */
    method Run(turns: nat, equilibrium: Frame, clock: Clock, limit: Option<nat>) returns (lost: bool)
      requires Valid()
      modifies this`pendingXrun, this`log, handle, handle.device, clock`now
      ensures Valid()
      ensures |old(log)| <= |log| && log[..|old(log)|] == old(log)
    {
      var buffer := new Frame[period];
      lost := false;
      for turn := 0 to turns
        invariant Valid() && fresh(buffer)
        invariant |old(log)| <= |log| && log[..|old(log)|] == old(log)
      {
        var draining: bool, d: Report := *, *;
        handle.device.fault := *;
        var _, result, _ := Turn(buffer, equilibrium, draining, clock, limit, d);
        if result == Err(ENODEV) {
          return true;
        }
      }
    }
  }

  /** An output on a device that works is set going by its second period, and survives a pause. */
  method FeedAndPause(period: nat, capacity: nat, equilibrium: Frame, canPause: bool) returns (s: Stream, r: Ret)
    requires period > 0 && 2 * period <= capacity
    ensures r.Ok? && s.Valid()
    ensures canPause ==> s.handle.state.Running? && s.handle.lost == 0
    ensures !canPause ==> s.handle.state.Prepared?
  {
    var device := new Device(Nothing);
    var handle := new Pcm(device, Output, capacity, Some(2 * period));
    s := new Stream(handle, period);
    var buffer := new Frame[period];
    var wake := Wake(None, None, false);
    var _, _, _ := s.ProcessOutput(buffer, equilibrium, false, wake);
    var _, _, _ := s.ProcessOutput(buffer, equilibrium, false, wake);
    assert handle.state.Running?;
    r := s.PauseAndStart(canPause);
  }
}
