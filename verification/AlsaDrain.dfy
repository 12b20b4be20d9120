/** Draining a parked output handle, with an optional time limit.
 *
 * What the device and the clock do is given beforehand, one `Round` of answers for each turn of the loop, so
 * that the outcome is a function of them. Claims for all answers are claims about that function.
 */
module AlsaDrain {
  import opened AlsaPcm
  import opened Wrappers

  /** The longest a poll can be asked to last, 2^31 - 1 milliseconds. */
  const MAX_POLL_MILLIS := 0x7fff_ffff

  /** A monotonic clock in nanoseconds. */
  class Clock {
    /** The last instant the clock can represent. */
    const limit: nat
    var now: nat

    constructor (limit: nat)
      ensures this.limit == limit
    {
      this.limit := limit;
      now := 0;
    }

    method Pass(elapsed: nat)
      modifies this`now
      ensures now == old(now) + elapsed
    {
      now := now + elapsed;
    }
  }

  datatype PollResult = TimedOut | Woken | PollError(errno: Errno)

  /** A poll on the handle's descriptors: when it began and how long it was allowed to last. */
  datatype PollCall = PollCall(at: nat, limit: Option<nat>)

  /** One turn of the drain loop: what `drain()` answers, the time until the poll begins and what becomes of
      the handle by then, what the poll answers, how long it takes and what becomes of the handle meanwhile,
      and whether `drop()` works. */
  datatype Round = Round(drain: DrainAnswer, read: nat, lapse: PcmState, poll: PollResult, waited: nat,
                         drift: PcmState, drop: bool)

  /** Everything the device answers during a drain: whether its descriptors can be had, how long until the
      deadline is computed, the rounds, what becomes of the handle before its state is looked at, and whether
      the last `drop()` and `prepare()` work. */
  datatype Answers = Answers(usable: bool, first: nat, rounds: seq<Round>, last: PcmState, drop: bool, prepare: bool)

  // ---------------------------------------------------------------------------------------------
  // The drain as a function of the answers
  // ---------------------------------------------------------------------------------------------

  /** The handle, the other member of its link group if there is one, the clock, and the loop's result and
      polls so far. */
  datatype Progress = Progress(
    state: PcmState, queued: nat, lost: nat, peer: Option<PcmState>, now: nat, result: Option<Ret>,
    polls: seq<PollCall>)

  /** A drain that has not begun. */
  predicate Fresh(p: Progress) { p.result.None? && p.polls == [] && (p.state.Setup? ==> p.queued == 0) }

  /** `None` is also the answer for a deadline the clock cannot represent. */
  function Deadline(started: nat, timeout: Option<nat>, limit: nat): Option<nat> {
    if timeout.Some? && started + timeout.value <= limit then Some(started + timeout.value) else None
  }

  function Min(a: nat, b: nat): (least: nat)
    ensures least <= a && least <= b && (least == a || least == b)
  {
    if a < b then a else b
  }

  /** Whole milliseconds up to the deadline, as far as a poll can be told. */
  function MillisLeft(deadline: nat, at: nat): nat
    requires at <= deadline
  {
    Min((deadline - at) / 1_000_000, MAX_POLL_MILLIS)
  }

  function PollLimit(deadline: Option<nat>, at: nat): Option<nat>
    requires deadline.Some? ==> at <= deadline.value
  {
    if deadline.None? then None else Some(MillisLeft(deadline.value, at))
  }

  /** A poll without a limit does not time out. */
  function PollAnswer(answer: PollResult, limit: Option<nat>): PollResult {
    if answer.TimedOut? && limit.None? then Woken else answer
  }

  /** A poll that times out has lasted as long as it could. */
  function PollTime(answer: PollResult, limit: Option<nat>, waited: nat): nat {
    if PollAnswer(answer, limit).TimedOut? && waited < limit.value * 1_000_000 then limit.value * 1_000_000
    else waited
  }

  /** What the handle is after a poll. */
  function Drifted(st: PcmState, drift: PcmState): PcmState { if Drifts(st, drift) then drift else st }

  /** Time passes over the handle. A drain that is over has played everything. */
  function Passed(p: Progress, drift: PcmState, elapsed: nat): Progress {
    var st := Drifted(p.state, drift);
    p.(state := st, queued := if p.state.Draining? && st.Setup? then 0 else p.queued, now := p.now + elapsed)
  }

  /** The whole group is in a state. */
  function AllIn(p: Progress, st: PcmState): Progress {
    p.(state := st, queued := 0, lost := p.lost + p.queued, peer := if p.peer.Some? then Some(st) else None)
  }

  /** The other member of the group does not stand in the way of a `drop()`. */
  predicate PeerThere(peer: Option<PcmState>) { peer.Some? ==> !peer.value.Disconnected? }

  /** Nor does it in that of a `prepare()`. */
  predicate PeerIdle(peer: Option<PcmState>) { peer.Some? ==> Idle(peer.value) }

  function AfterDrop(p: Progress, works: bool): Progress {
    if works && !p.state.Disconnected? && PeerThere(p.peer) then AllIn(p, Setup) else p
  }

  function AfterPrepare(p: Progress, works: bool): Progress {
    if works && Idle(p.state) && PeerIdle(p.peer) then AllIn(p, Prepared)
    else if p.result == Some(Ok) then p.(result := Some(Err(EBUSY)))
    else p
  }

  /** What a poll makes of the handle. */
  function AfterPoll(p: Progress, deadline: Option<nat>, a: Round): Progress
    requires deadline.Some? ==> p.now <= deadline.value
  {
    var limit := PollLimit(deadline, p.now);
    var q := Passed(p, a.drift, PollTime(a.poll, limit, a.waited)).(polls := p.polls + [PollCall(p.now, limit)]);
    match PollAnswer(a.poll, limit)
    case Woken => q
    case PollError(errno) => q.(result := Some(Err(errno)))
    case TimedOut => AfterDrop(q, a.drop).(result := Some(Ok))
  }

  /** One turn of the loop. */
  function AfterRound(p: Progress, deadline: Option<nat>, a: Round): Progress {
    var r := DrainResult(p.state, a.drain);
    if r != Err(EAGAIN) then
      p.(state := AfterDrain(p.state, a.drain), queued := if r.Ok? then 0 else p.queued, result := Some(r))
    else
      var q := Passed(p.(state := Draining), a.lapse, a.read);
      if deadline.Some? && deadline.value <= q.now then AfterDrop(q, a.drop).(result := Some(Ok))
      else AfterPoll(q, deadline, a)
  }

  /** The loop, as far as the answers reach; no result if it goes on. */
  function AfterRounds(p: Progress, deadline: Option<nat>, rounds: seq<Round>): Progress
    decreases |rounds|
  {
    if rounds == [] || p.result.Some? then p
    else AfterRounds(AfterRound(p, deadline, rounds[0]), deadline, rounds[1..])
  }

  /** Leaving the handle armed. */
  function Rearmed(p: Progress, a: Answers): Progress {
    if p.result.None? then p
    else
      var q := Passed(p, a.last, 0);
      if q.state.Setup? then AfterPrepare(q, a.prepare)
      else if q.state.Draining? then AfterPrepare(AfterDrop(q, a.drop), a.prepare)
      else q
  }

  /** When the loop starts. */
  function Started(p: Progress, a: Answers): Progress {
    p.(now := p.now + a.first, result := if a.usable then None else Some(Err(EIO)))
  }

  /** The whole drain. */
  function Drained(p: Progress, limit: nat, timeout: Option<nat>, a: Answers): Progress {
    if timeout == Some(0) then AfterPrepare(AfterDrop(p.(result := Some(Ok)), a.drop), a.prepare)
    else
      var q := Started(p, a);
      if q.result.Some? then q
      else Rearmed(AfterRounds(q, Deadline(q.now, timeout, limit), a.rounds), a)
  }

  // ---------------------------------------------------------------------------------------------
  // The code
  // ---------------------------------------------------------------------------------------------

  /** The other member of the link group keeps its state, or is halted or armed along with `handle`. */
  twostate predicate PeerFollows(handle: Pcm)
    reads handle, handle.peer
  {
    && handle.peer == old(handle.peer)
    && (handle.peer != null ==>
          handle.peer.state == old(handle.peer.state) || handle.peer.state.Setup? || handle.peer.state.Prepared?)
  }

  /** A poll of the worker, with its answer given. */
  method Poll(handle: Pcm, clock: Clock, limit: Option<nat>, answer: PollResult) returns (r: PollResult)
    requires handle.Valid()
    modifies handle`state, handle`queued, clock`now
    ensures handle.Valid() && Drifts(old(handle.state), handle.state)
    ensures handle.device.Steady() ==>
              handle.state == old(handle.state) || (old(handle.state).Draining? && handle.state.Setup?)
    ensures handle.queued <= old(handle.queued)
    ensures r == PollAnswer(answer, limit)
  {
    handle.Elapse();
    r := PollAnswer(answer, limit);
    var waited: int := *;
    clock.Pass(PollTime(r, limit, if waited < 0 then 0 else waited));
  }

  /** `drop()` halts the handle and `prepare()` arms it again. */
  method DiscardBuffer(handle: Pcm) returns (r: Ret)
    requires handle.Valid()
    modifies handle.Group()`state, handle.Group()`queued, handle.Group()`lost
    ensures handle.Valid()
    ensures r.Ok? ==> handle.All(Prepared) && old(handle.CanDrop())
    ensures r.Ok? ==> handle.Emptied()
    ensures r.Err? ==> handle.Untouched() || handle.All(Setup)
    ensures handle.device.Grants(DropCall) && handle.device.Grants(PrepareCall) && old(handle.CanDrop()) ==> r.Ok?
  {
    r := handle.Drop();
    if r.Ok? {
      r := handle.Prepare();
    }
  }

  /** The handle and the clock, before a drain. */
  ghost function Seen(handle: Pcm, clock: Clock): Progress
    reads handle, handle.peer, clock
  {
    Progress(handle.state, handle.queued, handle.lost,
             if handle.peer == null then None else Some(handle.peer.state), clock.now, None, [])
  }

  /** They are now as they should be after some part of the drain. */
  ghost predicate At(handle: Pcm, clock: Clock, p: Progress)
    reads handle, handle.peer, clock
  {
    Seen(handle, clock) == p.(result := None, polls := [])
  }

  method LetPass(handle: Pcm, clock: Clock, drift: PcmState, elapsed: nat, ghost p: Progress)
    returns (ghost q: Progress)
    requires handle.Valid() && At(handle, clock, p)
    modifies handle`state, handle`queued, clock`now
    ensures handle.Valid() && At(handle, clock, q) && q == Passed(p, drift, elapsed)
  {
    handle.ElapseTo(drift, 0);
    clock.Pass(elapsed);
    q := Passed(p, drift, elapsed);
  }

  /** `drop()`, whose failure the drain ignores. */
  method HaltIf(handle: Pcm, clock: Clock, works: bool, ghost p: Progress) returns (ghost q: Progress)
    requires handle.Valid() && At(handle, clock, p)
    modifies handle.Group()`state, handle.Group()`queued, handle.Group()`lost
    ensures handle.Valid() && PeerFollows(handle) && At(handle, clock, q)
    ensures q == AfterDrop(p, works) && q.result == p.result
  {
    var _ := handle.DropIf(works);
    q := AfterDrop(p, works);
  }

  /** `prepare()`, whose failure counts if nothing else has failed. */
  method ArmIf(handle: Pcm, clock: Clock, works: bool, soFar: Ret, ghost p: Progress)
    returns (r: Ret, ghost q: Progress)
    requires handle.Valid() && At(handle, clock, p) && p.result == Some(soFar)
    modifies handle.Group()`state, handle.Group()`queued, handle.Group()`lost
    ensures handle.Valid() && PeerFollows(handle) && At(handle, clock, q)
    ensures q == AfterPrepare(p, works) && q.result == Some(r)
  {
    r := soFar;
    var armed := handle.PrepareIf(works);
    if armed.Err? && r.Ok? {
      r := armed;
    }
    q := AfterPrepare(p, works);
  }

  /** The second half of a turn: a poll, and `drop()` if it times out. */
  method PollRound(handle: Pcm, clock: Clock, deadline: Option<nat>, a: Round, ghost p: Progress)
    returns (over: Option<Ret>, ghost q: Progress)
    requires handle.Valid() && At(handle, clock, p) && p.result.None? && (deadline.Some? ==> p.now <= deadline.value)
    modifies handle.Group()`state, handle.Group()`queued, handle.Group()`lost, clock`now
    ensures handle.Valid() && PeerFollows(handle) && At(handle, clock, q)
    ensures q == AfterPoll(p, deadline, a) && q.result == over
  {
    hide AfterDrop;
    hide MillisLeft;
    hide PollTime;
    var limit := PollLimit(deadline, clock.now);
    var answer := PollAnswer(a.poll, limit);
    q := LetPass(handle, clock, a.drift, PollTime(a.poll, limit, a.waited), p);
    q := q.(polls := p.polls + [PollCall(p.now, limit)]);
    match answer {
      case TimedOut =>
        q := HaltIf(handle, clock, a.drop, q);
        over := Some(Ok);
      case Woken => over := None;
      case PollError(errno) => over := Some(Err(errno));
    }
    q := q.(result := over);
  }

  /** One turn of the drain loop: `None` to go round again, otherwise the result so far. */
  method DrainRound(handle: Pcm, clock: Clock, deadline: Option<nat>, a: Round, ghost p: Progress)
    returns (over: Option<Ret>, ghost q: Progress)
    requires handle.Valid() && At(handle, clock, p) && p.result.None?
    modifies handle.Group()`state, handle.Group()`queued, handle.Group()`lost, clock`now
    ensures handle.Valid() && PeerFollows(handle) && At(handle, clock, q)
    ensures q == AfterRound(p, deadline, a) && q.result == over
  {
    hide AfterDrop;
    hide AfterPoll;
    var drained := handle.Drain(a.drain);
    if drained != Err(EAGAIN) {
      return Some(drained), AfterRound(p, deadline, a);
    }
    q := LetPass(handle, clock, a.lapse, a.read, p.(state := Draining));
    if deadline.Some? && deadline.value <= clock.now {
      q := HaltIf(handle, clock, a.drop, q);
      return Some(Ok), q.(result := Some(Ok));
    }
    over, q := PollRound(handle, clock, deadline, a, q);
  }

  /** Leaves the handle armed so that the worker can go on, keeping the first error. */
  method Rearm(handle: Pcm, clock: Clock, soFar: Ret, a: Answers, ghost p: Progress)
    returns (r: Ret, ghost q: Progress)
    requires handle.Valid() && At(handle, clock, p) && p.result == Some(soFar)
    modifies handle.Group()`state, handle.Group()`queued, handle.Group()`lost, clock`now
    ensures handle.Valid() && PeerFollows(handle) && At(handle, clock, q)
    ensures q == Rearmed(p, a) && q.result == Some(r)
    ensures soFar.Err? ==> r == soFar
  {
    r := soFar;
    q := LetPass(handle, clock, a.last, 0, p);
    var state := handle.GetState();
    if state.Draining? {
      q := HaltIf(handle, clock, a.drop, q);
    }
    if state.Setup? || state.Draining? {
      r, q := ArmIf(handle, clock, a.prepare, r, q);
    }
  }

  /** The loop, as far as the answers reach. */
  method DrainLoop(handle: Pcm, clock: Clock, deadline: Option<nat>, rounds: seq<Round>, ghost p: Progress)
    returns (r: Option<Ret>, ghost q: Progress)
    requires handle.Valid() && At(handle, clock, p) && p.result.None?
    modifies handle.Group()`state, handle.Group()`queued, handle.Group()`lost, clock`now
    ensures handle.Valid() && PeerFollows(handle) && At(handle, clock, q)
    ensures q == AfterRounds(p, deadline, rounds) && q.result == r
  {
    hide AfterRound;
    r, q := None, p;
    var n := 0;
    while n < |rounds| && r.None?
      invariant n <= |rounds| && handle.Valid() && PeerFollows(handle) && At(handle, clock, q) && q.result == r
      invariant AfterRounds(q, deadline, rounds[n..]) == AfterRounds(p, deadline, rounds)
    {
      r, q := DrainRound(handle, clock, deadline, rounds[n], q);
      assert rounds[n..][1..] == rounds[n + 1..];
      n := n + 1;
    }
  }

  /** Drains `handle`, waiting at most `timeout`. The outcome is `Drained`; `None` means that the drain was
      still going on when the answers ended. */
  method DrainPcm(handle: Pcm, clock: Clock, timeout: Option<nat>, a: Answers)
    returns (r: Option<Ret>, ghost q: Progress)
    requires handle.Valid()
    modifies handle.Group()`state, handle.Group()`queued, handle.Group()`lost, clock`now
    ensures handle.Valid() && PeerFollows(handle) && At(handle, clock, q) && q.result == r
    ensures q == Drained(old(Seen(handle, clock)), clock.limit, timeout, a)
    // It ends armed, with an error, or in a state the worker recovers from.
    ensures r == Some(Ok) ==> handle.state.Prepared? || LeftToWorker(handle.state)
  {
    OkOutsidePreparedIff(Seen(handle, clock), clock.limit, timeout, a);
    hide AfterRounds;
    hide Rearmed;
    hide AfterDrop;
    hide AfterPrepare;
    hide EndsOutOfReach;
    hide LeftToWorker;
    q := Seen(handle, clock);
    if timeout == Some(0) {
      q := HaltIf(handle, clock, a.drop, q.(result := Some(Ok)));
      var armed: Ret;
      armed, q := ArmIf(handle, clock, a.prepare, Ok, q);
      return Some(armed), q;
    }
    clock.Pass(a.first);
    var deadline := Deadline(clock.now, timeout, clock.limit);
    q := Started(q, a);
    if !a.usable {
      return Some(Err(EIO)), q;
    }
    r, q := DrainLoop(handle, clock, deadline, a.rounds, q);
    if r.Some? {
      var result: Ret;
      result, q := Rearm(handle, clock, r.value, a, q);
      r := Some(result);
    }
  }

  // ---------------------------------------------------------------------------------------------
  // Where a successful drain leaves the handle
  // ---------------------------------------------------------------------------------------------

  /** The states in which a drain may leave a handle to the worker's own recovery. */
  predicate LeftToWorker(st: PcmState) { st.XRun? || st.Suspended? || st.Disconnected? }

  /** The time limit is up in this round: when the clock is read, or because the poll times out. */
  predicate TimeIsUp(p: Progress, deadline: Option<nat>, a: Round) {
    && DrainResult(p.state, a.drain) == Err(EAGAIN)
    && deadline.Some? && (a.poll.TimedOut? || deadline.value <= p.now + a.read)
  }

  /** What the handle is by then. */
  function AtTheEnd(p: Progress, deadline: Option<nat>, a: Round): PcmState
    requires deadline.Some?
  {
    var st := Drifted(Draining, a.lapse);
    if deadline.value <= p.now + a.read then st else Drifted(st, a.drift)
  }

  /** A handle in this state is not brought back: `drop()` does not halt it and it is, or afterwards turns into,
      one to be left to the worker; or it is halted and is gone when it is looked at. */
  predicate OutOfReach(st: PcmState, halted: bool, last: PcmState) {
    if halted && !st.Disconnected? then last.Disconnected? else LeftToWorker(Drifted(st, last))
  }

  /** The drain is over, and the handle is gone when it is looked at; or the time is up, with the handle out of
      reach. */
  predicate LosesHandle(p: Progress, deadline: Option<nat>, a: Round, last: PcmState) {
    if DrainResult(p.state, a.drain).Ok? then last.Disconnected?
    else TimeIsUp(p, deadline, a) && OutOfReach(AtTheEnd(p, deadline, a), a.drop && PeerThere(p.peer), last)
  }

  /** The loop ends in such a round. */
  predicate EndsOutOfReach(p: Progress, deadline: Option<nat>, rounds: seq<Round>, last: PcmState)
    decreases |rounds|
  {
    && rounds != [] && p.result.None?
    && var q, a := AfterRound(p, deadline, rounds[0]), rounds[0];
       if q.result.None? then EndsOutOfReach(q, deadline, rounds[1..], last)
       else LosesHandle(p, deadline, a, last)
  }

  /** How the last round leaves the handle and the clock, if it reports success. */
  lemma LastRound(p: Progress, deadline: Option<nat>, b: Round)
    requires p.result.None? && AfterRound(p, deadline, b).result.Some?
    ensures var q, done := AfterRound(p, deadline, b), DrainResult(p.state, b.drain).Ok?;
            && (q.result == Some(Ok) <==> done || TimeIsUp(p, deadline, b))
            && (done ==> q.state.Setup? && q.queued == 0 && q.lost == p.lost)
            && (TimeIsUp(p, deadline, b) ==>
                  && InDrain(AtTheEnd(p, deadline, b))
                  && EndsInTime(q.now, deadline, p.now + b.read)
                  && var st := AtTheEnd(p, deadline, b);
                     if b.drop && PeerThere(p.peer) && !st.Disconnected? then q.state.Setup? && q.queued == 0
                     else q.state == st && (st.Setup? ==> q.queued == 0))
  {
    hide MillisLeft;
  }

  predicate InDrain(st: PcmState) { st.Draining? || st.Setup? || LeftToWorker(st) }

  /** At the deadline, or after the poll that began at `at`. */
  predicate EndsInTime(now: nat, deadline: Option<nat>, at: nat) {
    && deadline.Some?
    && (now >= deadline.value || (at <= deadline.value && now >= at + MillisLeft(deadline.value, at) * 1_000_000))
  }

  lemma ArmedUnless(q: Progress, a: Answers)
    requires q.result.Some?
    requires q.result == Some(Ok) ==> InDrain(q.state) && (q.state.Setup? ==> q.queued == 0)
    ensures var e := Rearmed(q, a);
            && (e.result == Some(Ok) && !e.state.Prepared? <==>
                  q.result == Some(Ok) && LeftToWorker(Drifted(q.state, a.last)))
            && (e.result == Some(Ok) && !e.state.Prepared? ==> LeftToWorker(e.state))
            && (e.result == Some(Ok) && e.state.Prepared? ==> e.queued == 0)
  {
  }

  lemma RoundOutOfReach(p: Progress, deadline: Option<nat>, b: Round, a: Answers)
    requires p.result.None? && AfterRound(p, deadline, b).result.Some?
    ensures var e := Rearmed(AfterRound(p, deadline, b), a);
            && (e.result == Some(Ok) && !e.state.Prepared? <==> LosesHandle(p, deadline, b, a.last))
            && (e.result == Some(Ok) && !e.state.Prepared? ==> LeftToWorker(e.state))
            && (e.result == Some(Ok) && e.state.Prepared? ==> e.queued == 0)
  {
    LastRound(p, deadline, b);
    ArmedUnless(AfterRound(p, deadline, b), a);
    hide AfterRound;
    hide Rearmed;
    hide AtTheEnd;
    hide TimeIsUp;
    hide DrainResult;
    hide EndsInTime;
  }

  lemma {:induction false} RoundsOutOfReach(p: Progress, deadline: Option<nat>, rounds: seq<Round>, a: Answers)
    requires p.result.None?
    ensures var e := Rearmed(AfterRounds(p, deadline, rounds), a);
            && (e.result == Some(Ok) && !e.state.Prepared? <==> EndsOutOfReach(p, deadline, rounds, a.last))
            && (e.result == Some(Ok) && !e.state.Prepared? ==> LeftToWorker(e.state))
            && (e.result == Some(Ok) && e.state.Prepared? ==> e.queued == 0)
    decreases |rounds|
  {
    if rounds != [] {
      var q := AfterRound(p, deadline, rounds[0]);
      if q.result.None? {
        RoundsOutOfReach(q, deadline, rounds[1..], a);
      } else {
        RoundOutOfReach(p, deadline, rounds[0], a);
        assert AfterRounds(q, deadline, rounds[1..]) == q;
      }
    }
  }

  /** A drain reports success and leaves the handle other than armed if and only if the device went away after
      the drain was over, or the time was up with the handle out of reach of `drop()`. It is then lost, dry or
      asleep: never running, and never paused. */
  lemma OkOutsidePreparedIff(p: Progress, limit: nat, timeout: Option<nat>, a: Answers)
    requires p.result.None?
    ensures var e := Drained(p, limit, timeout, a);
            && (e.result == Some(Ok) && !e.state.Prepared? <==>
                && timeout != Some(0) && a.usable
                && EndsOutOfReach(Started(p, a), Deadline(p.now + a.first, timeout, limit), a.rounds, a.last))
            && (e.result == Some(Ok) && !e.state.Prepared? ==> LeftToWorker(e.state))
  {
    if timeout != Some(0) && a.usable {
      var q := Started(p, a);
      RoundsOutOfReach(q, Deadline(q.now, timeout, limit), a.rounds, a);
    }
    hide AfterRounds;
    hide EndsOutOfReach;
    hide Rearmed;
  }

  /** A single busy round, with the handle turning into `st` while it is polled or, if `late`, already before
      the clock is read, which shows the deadline to have passed. */
  function Loss(st: PcmState, late: bool, timeout: nat): Answers {
    var read, lapse := if late then timeout else 0, if late then st else Draining;
    Answers(true, 0, [Round(Busy, read, lapse, TimedOut, 0, st, false)], st, false, false)
  }

  /** Each of the three states does occur, both ways. */
  lemma EachIsLeftBehind(st: PcmState, late: bool, queued: nat, now: nat, limit: nat, timeout: nat)
    requires LeftToWorker(st) && timeout > 0 && now + timeout <= limit
    ensures var p := Progress(Running, queued, 0, None, now, None, []);
            var e := Drained(p, limit, Some(timeout), Loss(st, late, timeout));
            e.result == Some(Ok) && e.state == st && |e.polls| == if late then 0 else 1
  {
    var p, a := Progress(Running, queued, 0, None, now, None, []), Loss(st, late, timeout);
    OneRound(Started(p, a), Deadline(now, Some(timeout), limit), a.rounds[0]);
  }

  lemma OneRound(p: Progress, deadline: Option<nat>, a: Round)
    requires p.result.None?
    ensures AfterRounds(p, deadline, [a]) == AfterRound(p, deadline, a)
  {
    assert AfterRounds(AfterRound(p, deadline, a), deadline, [a][1..]) == AfterRound(p, deadline, a);
  }

  // ---------------------------------------------------------------------------------------------
  // How a drain ends, with success or with an error
  // ---------------------------------------------------------------------------------------------

  predicate IsBusy(p: Progress, b: Round) { DrainResult(p.state, b.drain) == Err(EAGAIN) }

  /** The round ends the drain with an error, its own or that of the poll. */
  predicate Fails(p: Progress, deadline: Option<nat>, b: Round) {
    if IsBusy(p, b) then !TimeIsUp(p, deadline, b) && b.poll.PollError? else DrainResult(p.state, b.drain).Err?
  }

  function FailureOf(p: Progress, deadline: Option<nat>, b: Round): Errno
    requires Fails(p, deadline, b)
  {
    if IsBusy(p, b) then b.poll.errno else DrainResult(p.state, b.drain).errno
  }

  /** The handle after the poll of a busy round. */
  function AfterBoth(b: Round): PcmState { Drifted(Drifted(Draining, b.lapse), b.drift) }

  predicate Halts(p: Progress, deadline: Option<nat>, b: Round) {
    TimeIsUp(p, deadline, b) && b.drop && PeerThere(p.peer) && !AtTheEnd(p, deadline, b).Disconnected?
  }

  /** How the last round leaves the handle. */
  function EndState(p: Progress, deadline: Option<nat>, b: Round): PcmState {
    if Fails(p, deadline, b) then if IsBusy(p, b) then AfterBoth(b) else p.state
    else if Halts(p, deadline, b) then Setup
    else if TimeIsUp(p, deadline, b) then AtTheEnd(p, deadline, b)
    else Setup
  }

  /** And the other member of the group. */
  function EndPeer(p: Progress, deadline: Option<nat>, b: Round): Option<PcmState> {
    if Halts(p, deadline, b) && p.peer.Some? then Some(Setup) else p.peer
  }

  /** Frames that the round has left unplayed. */
  function Unplayed(p: Progress, deadline: Option<nat>, b: Round): nat {
    if !IsBusy(p, b) then if DrainResult(p.state, b.drain).Ok? then 0 else p.queued
    else if Drifted(Draining, b.lapse).Setup? then 0
    else if deadline.Some? && deadline.value <= p.now + b.read then p.queued
    else if AfterBoth(b).Setup? then 0
    else p.queued
  }

  lemma RoundEnds(p: Progress, deadline: Option<nat>, b: Round)
    requires p.result.None? && Consistent(p)
    ensures var q := AfterRound(p, deadline, b);
            && (q.result.None? <==> IsBusy(p, b) && !TimeIsUp(p, deadline, b) && !b.poll.PollError?)
            && (q.result.None? ==>
                  && q.state == AfterBoth(b) && q.peer == p.peer
                  && q.lost == p.lost && q.queued == Unplayed(p, deadline, b))
            && (q.result.Some? ==>
                  && q.result == Some(if Fails(p, deadline, b) then Err(FailureOf(p, deadline, b)) else Ok)
                  && q.state == EndState(p, deadline, b) && q.peer == EndPeer(p, deadline, b)
                  && q.lost + q.queued == p.lost + Unplayed(p, deadline, b))
            && Consistent(q)
  {
    hide MillisLeft;
    hide PollTime;
  }

  /** Whether a handle that the loop leaves in this state ends up armed. One that is halted only has to be
      prepared, one that still drains has to be halted first, and any other is left as it is. */
  predicate ArmsAt(st: PcmState, peer: Option<PcmState>, a: Answers) {
    var seen := Drifted(st, a.last);
    if seen.Setup? then a.prepare && PeerIdle(peer)
    else if seen.Draining? then a.drop && PeerThere(peer) && a.prepare
    else seen.Prepared?
  }

  /** What is done after the loop, for any handle it may leave. */
  lemma ArmingEnds(q: Progress, a: Answers)
    requires q.result.Some? && Consistent(q)
    ensures var e := Rearmed(q, a);
            && (e.state.Prepared? <==> ArmsAt(q.state, q.peer, a))
            && (q.result.value.Err? ==> e.result == q.result)
            && (q.result == Some(Ok) ==>
                  e.result == if Drifted(q.state, a.last).Setup? || Drifted(q.state, a.last).Draining? then
                                Some(if ArmsAt(q.state, q.peer, a) then Ok else Err(EBUSY))
                              else Some(Ok))
            && e.lost + e.queued == q.lost + (if q.state.Draining? && a.last.Setup? then 0 else q.queued)
            && (e.state.Prepared? && !q.state.Prepared? ==> e.queued == 0)
  {
  }

  /** The last round of the loop and what it starts from, if the answers reach so far. */
  function LastOf(p: Progress, deadline: Option<nat>, rounds: seq<Round>): Option<(Progress, Round)>
    decreases |rounds|
  {
    if rounds == [] || p.result.Some? then None
    else
      var q := AfterRound(p, deadline, rounds[0]);
      if q.result.Some? then Some((p, rounds[0])) else LastOf(q, deadline, rounds[1..])
  }

  lemma {:induction false} LoopEnds(p: Progress, deadline: Option<nat>, rounds: seq<Round>)
    requires p.result.None? && Consistent(p)
    ensures var l, e := LastOf(p, deadline, rounds), AfterRounds(p, deadline, rounds);
            && (l.None? <==> e.result.None?)
            && (l.Some? ==>
                  && e == AfterRound(l.value.0, deadline, l.value.1)
                  && l.value.0.result.None? && Consistent(l.value.0))
            && (l.Some? ==> l.value.0.lost == p.lost && l.value.0.queued <= p.queued)
    decreases |rounds|
  {
    hide EndState;
    hide EndPeer;
    hide AfterBoth;
    if rounds != [] {
      RoundEnds(p, deadline, rounds[0]);
      var q := AfterRound(p, deadline, rounds[0]);
      hide AfterRound;
      if q.result.None? {
        LoopEnds(q, deadline, rounds[1..]);
      } else {
        assert AfterRounds(q, deadline, rounds[1..]) == q;
      }
    }
  }

  /** How a drain ends whose last round is `b`, from `q`. If that round fails, its failure is the result, and the
      handle is armed all the same if and only if it was found halted and could be prepared, or found draining and
      could also be halted, or was armed all along. Otherwise the result is success or, if arming the handle fails,
      EBUSY. Every frame is played, or lost, or still queued, and nothing is queued in a handle armed by the drain. */
  predicate EndsWith(e: Progress, q: Progress, b: Round, deadline: Option<nat>, lost: nat, a: Answers) {
    var st, peer := EndState(q, deadline, b), EndPeer(q, deadline, b);
    && (e.state.Prepared? <==> ArmsAt(st, peer, a))
    && (Fails(q, deadline, b) ==> e.result == Some(Err(FailureOf(q, deadline, b))))
    && (!Fails(q, deadline, b) ==>
          e.result == Some(if ArmsAt(st, peer, a) || LeftToWorker(Drifted(st, a.last)) then Ok else Err(EBUSY)))
    && e.lost + e.queued == lost + (if st.Draining? && a.last.Setup? then 0 else Unplayed(q, deadline, b))
    && (e.state.Prepared? && !st.Prepared? ==> e.queued == 0)
  }

  lemma RoundArms(p: Progress, deadline: Option<nat>, b: Round, a: Answers)
    requires p.result.None? && Consistent(p) && AfterRound(p, deadline, b).result.Some?
    ensures EndsWith(Rearmed(AfterRound(p, deadline, b), a), p, b, deadline, p.lost, a)
  {
    RoundEnds(p, deadline, b);
    EndStates(p, deadline, b);
    ArmingEnds(AfterRound(p, deadline, b), a);
    hide AfterRound;
    hide Rearmed;
    hide Unplayed;
    hide ArmsAt;
    hide EndState;
    hide EndPeer;
    hide Fails;
  }

  /** A round that does not fail leaves the handle draining, halted, or to the worker. */
  lemma EndStates(p: Progress, deadline: Option<nat>, b: Round)
    ensures !Fails(p, deadline, b) ==> InDrain(EndState(p, deadline, b))
  {
  }

  /** Every drain that is given time, whatever the answers, ends like that, if they reach so far. */
  lemma DrainEnds(p: Progress, limit: nat, timeout: Option<nat>, a: Answers)
    requires Fresh(p) && timeout != Some(0) && a.usable
    ensures var e, deadline := Drained(p, limit, timeout, a), Deadline(p.now + a.first, timeout, limit);
            var last := LastOf(Started(p, a), deadline, a.rounds);
            && (last.None? <==> e.result.None?)
            && (last.Some? ==> EndsWith(e, last.value.0, last.value.1, deadline, p.lost, a))
  {
    var deadline := Deadline(p.now + a.first, timeout, limit);
    var s, last := Started(p, a), LastOf(Started(p, a), deadline, a.rounds);
    LoopEnds(s, deadline, a.rounds);
    if last.Some? {
      RoundArms(last.value.0, deadline, last.value.1, a);
    }
    hide AfterRounds;
    hide AfterRound;
    hide Rearmed;
    hide LastOf;
    hide EndsWith;
  }

  /** A poll that fails while the handle drains: the error is reported, what is queued is lost, and the handle is
      armed. */
  lemma FailedPollStillArms(p: Progress, limit: nat, errno: Errno)
    requires Fresh(p) && Drainable(p.state) && PeerThere(p.peer)
    ensures var rounds := [Round(Busy, 0, Draining, PollError(errno), 0, Draining, true)];
            var e := Drained(p, limit, None, Answers(true, 0, rounds, Draining, true, true));
            e.result == Some(Err(errno)) && e.state.Prepared? && e.queued == 0 && e.lost == p.lost + p.queued
  {
    var rounds := [Round(Busy, 0, Draining, PollError(errno), 0, Draining, true)];
    var a := Answers(true, 0, rounds, Draining, true, true);
    OneRound(Started(p, a), None, rounds[0]);
  }

  // ---------------------------------------------------------------------------------------------
  // What is thrown away
  // ---------------------------------------------------------------------------------------------

  /** A halted handle has nothing queued. */
  predicate Consistent(p: Progress) { p.state.Setup? ==> p.queued == 0 }

  /** Frames have been thrown away by a drain that reports success. */
  predicate Discards(p: Progress, e: Progress) { e.result == Some(Ok) && e.lost != p.lost }

  lemma RoundGoesOn(p: Progress, deadline: Option<nat>, b: Round)
    requires p.result.None? && Consistent(p)
    ensures var q := AfterRound(p, deadline, b);
            q.result.None? ==> q.lost == p.lost && Consistent(q) && q.now >= p.now
  {
    hide MillisLeft;
  }

  lemma RoundDiscards(p: Progress, deadline: Option<nat>, b: Round, a: Answers)
    requires p.result.None? && Consistent(p)
    ensures var q := AfterRound(p, deadline, b);
            && (q.result.None? ==> q.lost == p.lost && Consistent(q) && q.now >= p.now)
            && (q.result.Some? && Discards(p, Rearmed(q, a)) ==> EndsInTime(q.now, deadline, p.now + b.read))
  {
    RoundGoesOn(p, deadline, b);
    if AfterRound(p, deadline, b).result.Some? {
      LastRound(p, deadline, b);
    }
    hide AfterRound;
    hide AtTheEnd;
    hide TimeIsUp;
    hide DrainResult;
    hide EndsInTime;
  }

  lemma {:induction false} UnlimitedRoundsKeep(p: Progress, rounds: seq<Round>, a: Answers)
    requires p.result.None? && Consistent(p)
    ensures !Discards(p, Rearmed(AfterRounds(p, None, rounds), a))
    decreases |rounds|
  {
    if rounds != [] {
      var q := AfterRound(p, None, rounds[0]);
      RoundDiscards(p, None, rounds[0], a);
      if q.result.None? {
        UnlimitedRoundsKeep(q, rounds[1..], a);
      } else {
        assert AfterRounds(q, None, rounds[1..]) == q;
      }
    }
  }

  /** A drain without a time limit that reports success has played everything, whatever the device did, and
      leaves the handle armed unless it is gone by then. */
  lemma UnlimitedDrainPlaysEverything(p: Progress, limit: nat, a: Answers)
    requires Fresh(p)
    ensures var e := Drained(p, limit, None, a);
            e.result == Some(Ok) ==>
              e.lost == p.lost && e.queued == 0 && e.state == if a.last.Disconnected? then Disconnected else Prepared
  {
    if a.usable {
      var q := Started(p, a);
      UnlimitedRoundsKeep(q, a.rounds, a);
      UnlimitedRoundsEnd(q, a.rounds, a);
    }
  }

  lemma {:induction false} UnlimitedRoundsEnd(p: Progress, rounds: seq<Round>, a: Answers)
    requires p.result.None?
    ensures var e := Rearmed(AfterRounds(p, None, rounds), a);
            e.result == Some(Ok) ==>
              e.queued == 0 && e.state == if a.last.Disconnected? then Disconnected else Prepared
    decreases |rounds|
  {
    if rounds != [] {
      var q := AfterRound(p, None, rounds[0]);
      if q.result.None? {
        UnlimitedRoundsEnd(q, rounds[1..], a);
      } else {
        assert AfterRounds(q, None, rounds[1..]) == q;
      }
    }
  }

  /** A success that throws frames away more than a millisecond before the deadline. */
  predicate DiscardsEarly(p: Progress, e: Progress, deadline: nat) { Discards(p, e) && e.now + 1_000_000 <= deadline }

  lemma {:induction false} RoundsDiscardLate(p: Progress, deadline: nat, rounds: seq<Round>, a: Answers)
    requires p.result.None? && Consistent(p) && p.now + 2_147_483_648_000_000 > deadline
    ensures !DiscardsEarly(p, Rearmed(AfterRounds(p, Some(deadline), rounds), a), deadline)
    decreases |rounds|
  {
    if rounds != [] {
      var q := AfterRound(p, Some(deadline), rounds[0]);
      RoundDiscards(p, Some(deadline), rounds[0], a);
      if q.result.None? {
        RoundsDiscardLate(q, deadline, rounds[1..], a);
      } else {
        assert AfterRounds(q, Some(deadline), rounds[1..]) == q;
      }
    }
  }

  lemma DiscardsLate(p: Progress, limit: nat, timeout: nat, a: Answers)
    requires Fresh(p)
    requires 0 < timeout < 2_147_483_648_000_000 && p.now + a.first + timeout <= limit
    ensures !DiscardsEarly(p, Drained(p, limit, Some(timeout), a), p.now + a.first + timeout)
  {
    if a.usable {
      RoundsDiscardLate(Started(p, a), p.now + a.first + timeout, a.rounds, a);
    }
  }

  /** The poll that is cut off at the longest time a poll can last. */
  function CutOff(): Answers {
    Answers(true, 0, [Round(Busy, 0, Draining, TimedOut, 0, Draining, true)], Setup, true, true)
  }

  lemma CutOffDiscardsEarly(p: Progress, limit: nat, timeout: nat)
    requires Fresh(p) && Drainable(p.state) && p.queued > 0 && PeerThere(p.peer)
    requires timeout >= 2_147_483_648_000_000 && p.now + timeout <= limit
    ensures DiscardsEarly(p, Drained(p, limit, Some(timeout), CutOff()), p.now + timeout)
  {
    OneRound(Started(p, CutOff()), Some(p.now + timeout), CutOff().rounds[0]);
  }

  /** A drain may report success having thrown frames away long before its deadline if and only if its time
      limit is at least 2^31 milliseconds, one more than a poll can last. */
  lemma EarlyDiscardIff(p: Progress, limit: nat, timeout: nat)
    requires Fresh(p) && Drainable(p.state) && p.queued > 0 && PeerThere(p.peer)
    requires timeout > 0 && p.now + timeout <= limit
    ensures (exists a: Answers ::
               a.first == 0 && DiscardsEarly(p, Drained(p, limit, Some(timeout), a), p.now + timeout))
            <==> timeout >= 2_147_483_648_000_000
  {
    if timeout >= 2_147_483_648_000_000 {
      CutOffDiscardsEarly(p, limit, timeout);
    } else {
      forall a: Answers | a.first == 0
        ensures !DiscardsEarly(p, Drained(p, limit, Some(timeout), a), p.now + timeout)
      {
        DiscardsLate(p, limit, timeout, a);
      }
    }
  }

  // ---------------------------------------------------------------------------------------------
  // The deadline
  // ---------------------------------------------------------------------------------------------

  /** A poll made between the start and the deadline, and allowed to last until then at most. */
  predicate PollRespects(p: PollCall, started: nat, deadline: Option<nat>) {
    started <= p.at &&
    match deadline
    case None => p.limit == None
    case Some(d) => p.limit.Some? && p.at + p.limit.value * 1_000_000 <= d
  }

  lemma {:induction false} RoundsRespect(p: Progress, deadline: Option<nat>, rounds: seq<Round>, started: nat)
    requires started <= p.now && forall c <- p.polls :: PollRespects(c, started, deadline)
    ensures forall c <- AfterRounds(p, deadline, rounds).polls :: PollRespects(c, started, deadline)
    decreases |rounds|
  {
    if rounds != [] && p.result.None? {
      RoundRespects(p, deadline, rounds[0], started);
      RoundsRespect(AfterRound(p, deadline, rounds[0]), deadline, rounds[1..], started);
    }
  }

  lemma RoundRespects(p: Progress, deadline: Option<nat>, a: Round, started: nat)
    requires started <= p.now && forall c <- p.polls :: PollRespects(c, started, deadline)
    ensures started <= AfterRound(p, deadline, a).now
    ensures forall c <- AfterRound(p, deadline, a).polls :: PollRespects(c, started, deadline)
  {
  }

  /** No poll lasts past the deadline, and none but an unlimited drain waits without limit. */
  lemma PollsRespectTheDeadline(p: Progress, limit: nat, timeout: Option<nat>, a: Answers)
    requires Fresh(p)
    ensures forall c <- Drained(p, limit, timeout, a).polls ::
              PollRespects(c, p.now + a.first, Deadline(p.now + a.first, timeout, limit))
  {
    if timeout != Some(0) && a.usable {
      var q := Started(p, a);
      RoundsRespect(q, Deadline(q.now, timeout, limit), a.rounds, q.now);
    }
  }

  /** The clock has moved on whenever it is read. */
  predicate Ticks(rounds: seq<Round>) { forall k :: 0 <= k < |rounds| ==> rounds[k].read > 0 }

  /** What a time limit means for a drain, whatever the device answers: no poll lasts past the deadline; with a
      clock that moves on whenever it is read the drain ends; and below 2^31 milliseconds no frames are thrown away
      by a success more than a millisecond before the deadline. */
  ghost predicate KeepsLimit(p: Progress, e: Progress, limit: nat, timeout: Option<nat>, a: Answers) {
    var deadline := Deadline(p.now + a.first, timeout, limit);
    && (forall c <- e.polls :: PollRespects(c, p.now + a.first, deadline))
    && (deadline.Some? && Ticks(a.rounds) && |a.rounds| > timeout.value ==> e.result.Some?)
    && (deadline.Some? && 0 < timeout.value < 2_147_483_648_000_000 ==> !DiscardsEarly(p, e, deadline.value))
  }

  lemma DrainKeepsLimit(p: Progress, limit: nat, timeout: Option<nat>, a: Answers)
    requires Fresh(p)
    ensures KeepsLimit(p, Drained(p, limit, timeout, a), limit, timeout, a)
  {
    PollsRespectTheDeadline(p, limit, timeout, a);
    if timeout.Some? && p.now + a.first + timeout.value <= limit {
      if Ticks(a.rounds) && |a.rounds| > timeout.value {
        LimitedDrainEnds(p, limit, timeout.value, a);
      }
      if 0 < timeout.value < 2_147_483_648_000_000 {
        DiscardsLate(p, limit, timeout.value, a);
      }
    }
    hide Drained;
  }

  lemma {:induction false} RoundsEnd(p: Progress, deadline: nat, rounds: seq<Round>)
    requires Ticks(rounds) && AfterRounds(p, Some(deadline), rounds).result.None?
    ensures rounds == [] || p.now + |rounds| <= deadline
    decreases |rounds|
  {
    if rounds != [] {
      RoundsEnd(AfterRound(p, Some(deadline), rounds[0]), deadline, rounds[1..]);
    }
  }

  /** A drain whose deadline the clock can represent ends, after at most as many rounds as it has nanoseconds. */
  lemma LimitedDrainEnds(p: Progress, limit: nat, timeout: nat, a: Answers)
    requires p.now + a.first + timeout <= limit && Ticks(a.rounds) && |a.rounds| > timeout
    ensures Drained(p, limit, Some(timeout), a).result.Some?
  {
    var q := Started(p, a);
    if timeout > 0 && a.usable && AfterRounds(q, Some(q.now + timeout), a.rounds).result.None? {
      RoundsEnd(q, q.now + timeout, a.rounds);
    }
  }

  // ---------------------------------------------------------------------------------------------
  // A device that works
  // ---------------------------------------------------------------------------------------------

  /** The handle does nothing but drain. */
  predicate OnlyDrains(drift: PcmState) { drift.Draining? || drift.Setup? }

  /** Every legal call works, polls do not fail, and the handle does nothing but drain. */
  predicate Obliging(a: Answers) {
    && a.usable && a.drop && a.prepare && OnlyDrains(a.last)
    && forall k :: 0 <= k < |a.rounds| ==> ObligingRound(a.rounds[k])
  }

  predicate ObligingRound(a: Round) {
    !a.drain.Faulty? && !a.poll.PollError? && a.drop && OnlyDrains(a.lapse) && OnlyDrains(a.drift)
  }

  lemma {:induction false} ObligingRounds(p: Progress, deadline: Option<nat>, rounds: seq<Round>, a: Answers)
    requires p.result.None? && Drainable(p.state)
    requires Obliging(a) && forall k :: 0 <= k < |rounds| ==> ObligingRound(rounds[k])
    ensures var e := Rearmed(AfterRounds(p, deadline, rounds), a);
            && (e.result == Some(Ok) ==> e.state.Prepared?)
            && (e.result.Some? && PeerIdle(p.peer) ==> e.result == Some(Ok))
    decreases |rounds|
  {
    hide PollTime;
    hide MillisLeft;
    if rounds != [] {
      var q := AfterRound(p, deadline, rounds[0]);
      if q.result.None? {
        ObligingRounds(q, deadline, rounds[1..], a);
      } else {
        assert AfterRounds(q, deadline, rounds[1..]) == q;
      }
    }
  }

  /** On a device that works, a drain that ends succeeds, armed and with nothing queued, exactly if the handle
      can be drained, or merely halted where there is no time at all. In a link group the other member must
      not be in the way: it must not be lost, and must be idle where there is time. */
  lemma ObligingDrain(p: Progress, limit: nat, timeout: Option<nat>, a: Answers)
    requires p.result.None?
    ensures var e := Drained(p, limit, timeout, a);
            Obliging(a) ==>
              && (e.result == Some(Ok) ==> e.state.Prepared? && e.queued == 0)
              && (timeout == Some(0) ==> (e.result == Some(Ok) <==> !p.state.Disconnected? && PeerThere(p.peer)))
              && (timeout != Some(0) && e.result == Some(Ok) ==> Drainable(p.state))
              && (timeout != Some(0) && e.result.Some? && PeerIdle(p.peer) && Drainable(p.state) ==>
                    e.result == Some(Ok))
  {
    if Obliging(a) && timeout != Some(0) {
      var q := Started(p, a);
      RoundsOutOfReach(q, Deadline(q.now, timeout, limit), a.rounds, a);
      if Drainable(p.state) {
        ObligingRounds(q, Deadline(q.now, timeout, limit), a.rounds, a);
      }
    }
  }

  /** Without any time everything queued is thrown away. */
  lemma ZeroTimeDiscards(p: Progress, limit: nat, a: Answers)
    ensures var e := Drained(p, limit, Some(0), a);
            && e.result.Some?
            && (e.result == Some(Ok) <==>
                  a.prepare && ((a.drop && !p.state.Disconnected? && PeerThere(p.peer)) ||
                                (Idle(p.state) && PeerIdle(p.peer))))
            && (e.result == Some(Ok) ==> e.lost == p.lost + p.queued && e.queued == 0 && e.state.Prepared?)
            && (e.result != Some(Ok) ==> e.lost + e.queued == p.lost + p.queued)
  {
  }
}
