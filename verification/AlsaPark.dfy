/** The protocol between an ALSA worker thread and the thread that controls its stream.
 *
 * Both threads are modelled one shared-memory access at a time. `WorkerStep` and `ControlStep` say
 * what the next access of each thread does; a run is any interleaving of the two. Atomics are
 * sequentially consistent and control calls are serialised, so there is one control thread.
 *
 * Neither thread stores "I hold the mutex": the program counters say who does, and a thread can
 * take the mutex only while the other does not hold it.
 */
module AlsaPark {
  import opened Wrappers

  datatype Call = NoCall | Start | Pause | Stop | DropStream

  /** Where the worker is; the name says which access comes next. */
  datatype Worker =
    | LatchCheck | LatchPark
    | Head | CheckParked
    | AckLock | AckSet | AckTest | AckWait | AckWoken | AckClear
    | Poll | ClearPipe
    | UsePcm | CheckDraining | Callback | FinishPcm
    | ExitStore | ExitLock | ExitNotify | Done

  /** Where the control thread is. `Exclusive` lies between the return of `park_worker` and
      `unpark_worker`; `HwPause` and `StartPcm` use the PCM without parking the worker. */
  datatype Control =
    | Idle
    | SetDraining | HwPause
    | ReleaseFlag | ReleaseToken
    | SetParked | Wake | SetParkedAgain
    | ParkLock | ParkTest | ParkWait | ParkWoken
    | Exclusive
    | UnparkLock | UnparkAck | UnparkClear | UnparkNotify
    | ClearDraining | StartPcm
    | SetDropping | ShutdownWake | Join | Gone

  /** The shared variables, both program counters and the call being made (or last made). */
  datatype Memory = Memory(
    dropping: bool, draining: bool, parked: bool, ack: bool,
    pipe: nat,
    released: bool, token: bool)

  datatype State = State(w: Worker, c: Control, call: Call, m: Memory)

  const Init := State(LatchCheck, Idle, NoCall, Memory(false, false, false, false, 0, false, false))

  predicate WorkerHolds(w: Worker) { w.AckSet? || w.AckTest? || w.AckClear? || w.ExitNotify? }

  predicate ControlHolds(c: Control) { c.ParkTest? || c.UnparkAck? || c.UnparkClear? }

  /** The worker is in the loop that waits for `parked` to fall. */
  predicate InAckLoop(w: Worker) { w.AckTest? || w.AckWait? || w.AckWoken? }

  /** The worker has left its loop for good; it makes no further PCM access. */
  predicate Exited(w: Worker) { w.ExitLock? || w.ExitNotify? || w.Done? }

  /** The worker is at an access to the PCM or inside the user's callback. */
  predicate TouchesPcm(w: Worker) { w.UsePcm? || w.CheckDraining? || w.Callback? || w.FinishPcm? }

  /** `Go` is the ordinary next access. `Spurious` is a wakeup nobody asked for. In `poll`, `Event`
      is the device or the timeout and `Skip` an error; around the PCM, `Skip` abandons the cycle and
      `Lost` is a disconnected device. */
  datatype WorkerChoice = Go | Spurious | Event | Skip | Lost

  datatype ControlChoice = Proceed | WakeSpuriously | Invoke(callee: Call) | Finish

  datatype Action = W(worker: WorkerChoice) | C(control: ControlChoice)

  /** The only other thread that can be waiting on the condition variable. */
  function NotifyControl(c: Control): Control { if c == ParkWait then ParkWoken else c }

  function NotifyWorker(w: Worker): Worker { if w == AckWait then AckWoken else w }

  function WorkerStep(s: State, choice: WorkerChoice): Option<State> {
    match s.w
    case LatchCheck =>
      if choice.Go? then Some(s.(w := if s.m.released then Head else LatchPark)) else None
    case LatchPark =>
      if choice.Go? && s.m.token then Some(s.(w := LatchCheck, m := s.m.(token := false)))
      else if choice.Spurious? then Some(s.(w := LatchCheck)) else None
    case Head =>
      if choice.Go? then Some(s.(w := if s.m.dropping then Done else CheckParked)) else None
    case CheckParked =>
      if choice.Go? then Some(s.(w := if s.m.parked then AckLock else Poll)) else None
    case AckLock => if choice.Go? && !ControlHolds(s.c) then Some(s.(w := AckSet)) else None
    case AckSet =>
      if choice.Go? then Some(s.(w := AckTest, c := NotifyControl(s.c), m := s.m.(ack := true))) else None
    case AckTest =>
      if choice.Go? then Some(s.(w := if s.m.parked then AckWait else AckClear)) else None
    case AckWait => if choice.Spurious? then Some(s.(w := AckWoken)) else None
    case AckWoken => if choice.Go? && !ControlHolds(s.c) then Some(s.(w := AckTest)) else None
    case AckClear => if choice.Go? then Some(s.(w := Poll, m := s.m.(ack := false))) else None
    case Poll =>
      if choice.Go? && s.m.pipe > 0 then Some(s.(w := ClearPipe))
      else if choice.Event? && s.m.pipe == 0 then Some(s.(w := UsePcm))
      else if choice.Skip? then Some(s.(w := Head)) else None
    case ClearPipe =>
      if choice.Go? && s.m.pipe > 0 then Some(s.(w := Head, m := s.m.(pipe := s.m.pipe - 1))) else None
    case UsePcm =>
      if choice.Go? then Some(s.(w := CheckDraining))
      else if choice.Skip? then Some(s.(w := Head))
      else if choice.Lost? then Some(s.(w := ExitStore)) else None
    case CheckDraining =>
      if choice.Go? then Some(s.(w := if s.m.draining then FinishPcm else Callback)) else None
    case Callback => if choice.Go? then Some(s.(w := FinishPcm)) else None
    case FinishPcm =>
      if choice.Go? then Some(s.(w := Head))
      else if choice.Lost? then Some(s.(w := ExitStore)) else None
    case ExitStore =>
      if choice.Go? then Some(s.(w := ExitLock, m := s.m.(dropping := true))) else None
    case ExitLock => if choice.Go? && !ControlHolds(s.c) then Some(s.(w := ExitNotify)) else None
    case ExitNotify => if choice.Go? then Some(s.(w := Done, c := NotifyControl(s.c))) else None
    case _ => None
  }

  function FirstAccess(call: Call): Control {
    match call
    case NoCall => Idle
    case Start => ClearDraining
    case Pause => SetDraining
    case Stop => SetDraining
    case DropStream => ReleaseFlag
  }

  /** What a call does once it has released the latch. */
  function AfterRelease(call: Call): Control {
    match call
    case Start => UnparkLock
    case DropStream => SetDropping
    case _ => SetParked
  }

  /** And once it has released the worker. */
  function AfterUnpark(call: Call): Control {
    match call
    case Start => StartPcm
    case DropStream => ShutdownWake
    case _ => Idle
  }

  function ControlStep(s: State, choice: ControlChoice): Option<State> {
    match s.c
    case Idle =>
      if choice.Invoke? && choice.callee != NoCall then
        Some(s.(c := FirstAccess(choice.callee), call := choice.callee))
      else None
    case SetDraining =>
      if choice.Proceed? then
        Some(s.(c := if s.call == Pause then HwPause else ReleaseFlag, m := s.m.(draining := true)))
      else None
    case HwPause =>
      if choice.Finish? then Some(s.(c := Idle))
      else if choice.Proceed? then Some(s.(c := ReleaseFlag)) else None
    case ClearDraining =>
      if choice.Proceed? then Some(s.(c := ReleaseFlag, m := s.m.(draining := false))) else None
    case ReleaseFlag =>
      if choice.Proceed? then Some(s.(c := ReleaseToken, m := s.m.(released := true))) else None
    case ReleaseToken =>
      if choice.Proceed? then Some(s.(c := AfterRelease(s.call), m := s.m.(token := true))) else None
    case SetParked =>
      if choice.Proceed? then Some(s.(c := Wake, m := s.m.(parked := true))) else None
    case Wake =>
      if choice.Proceed? then Some(s.(c := SetParkedAgain, m := s.m.(pipe := s.m.pipe + 1))) else None
    case SetParkedAgain =>
      if choice.Proceed? then Some(s.(c := ParkLock, m := s.m.(parked := true))) else None
    case ParkLock => if choice.Proceed? && !WorkerHolds(s.w) then Some(s.(c := ParkTest)) else None
    case ParkTest =>
      if choice.Proceed? then Some(s.(c := if s.m.ack || s.m.dropping then Exclusive else ParkWait)) else None
    case ParkWait => if choice.WakeSpuriously? then Some(s.(c := ParkWoken)) else None
    case ParkWoken => if choice.Proceed? && !WorkerHolds(s.w) then Some(s.(c := ParkTest)) else None
    case Exclusive => if choice.Proceed? then Some(s.(c := UnparkLock)) else None
    case SetDropping =>
      if choice.Proceed? then Some(s.(c := UnparkLock, m := s.m.(dropping := true))) else None
    case UnparkLock =>
      if choice.Proceed? && !WorkerHolds(s.w) then Some(s.(c := UnparkAck)) else None
    case UnparkAck =>
      if choice.Proceed? then Some(s.(c := UnparkClear, m := s.m.(ack := false))) else None
    case UnparkClear =>
      if choice.Proceed? then Some(s.(c := UnparkNotify, m := s.m.(parked := false))) else None
    case UnparkNotify =>
      if choice.Proceed? then Some(s.(w := NotifyWorker(s.w), c := AfterUnpark(s.call))) else None
    case StartPcm => if choice.Proceed? then Some(s.(c := Idle)) else None
    case ShutdownWake =>
      if choice.Proceed? then Some(s.(c := Join, m := s.m.(pipe := s.m.pipe + 1))) else None
    case Join => if choice.Proceed? && s.w == Done then Some(s.(c := Gone)) else None
    case _ => None
  }

  function Step(s: State, a: Action): Option<State> {
    match a
    case W(choice) => WorkerStep(s, choice)
    case C(choice) => ControlStep(s, choice)
  }

  ghost predicate Next(s: State, t: State) { exists a :: Step(s, a) == Some(t) }

  ghost predicate StepsAt(run: seq<State>, k: nat)
    requires k < |run| - 1
  {
    Next(run[k], run[k + 1])
  }

  /** A run is a finite interleaving from the state in which the stream was just built. */
  ghost predicate IsRun(run: seq<State>) {
    && run != []
    && run[0] == Init
    && forall k: nat :: k < |run| - 1 ==> StepsAt(run, k)
  }

  // ---------------------------------------------------------------------------------------------
  // The inductive invariant
  // ---------------------------------------------------------------------------------------------

  predicate IsParkingCall(call: Call) { call.Pause? || call.Stop? }

  /** The park request has been made and `park_worker` has not returned. */
  predicate Requesting(c: Control) {
    c.Wake? || c.SetParkedAgain? || c.ParkLock? || c.ParkTest? || c.ParkWait? || c.ParkWoken?
  }

  /** `park_worker` has returned and the matching unpark has not yet cleared anything. */
  predicate Owning(s: State) {
    s.c == Exclusive || ((s.c.UnparkLock? || s.c.UnparkAck?) && IsParkingCall(s.call))
  }

  predicate ParkInForce(s: State) {
    Requesting(s.c) || Owning(s) || (s.c == UnparkClear && IsParkingCall(s.call))
  }

  /** The shutdown of a dropped stream has set `dropping`. */
  predicate ShuttingDown(s: State) {
    && s.call == DropStream
    && (s.c.UnparkLock? || s.c.UnparkAck? || s.c.UnparkClear? || s.c.UnparkNotify?
        || s.c.ShutdownWake? || s.c.Join? || s.c.Gone?)
  }

  /** Both threads wait for each other: the worker for `parked` to fall, the control thread for an
      acknowledgement that the worker only gives on entry. */
  predicate Doomed(s: State) {
    InAckLoop(s.w) && Requesting(s.c) && s.m.parked && !s.m.ack && !s.m.dropping
  }

  predicate WellFormedCall(s: State) {
    && ((s.c.ClearDraining? || s.c.StartPcm?) ==> s.call == Start)
    && (s.c == HwPause ==> s.call == Pause)
    && (s.c == SetDraining || s.c == SetParked || Requesting(s.c) || s.c == Exclusive ==> IsParkingCall(s.call))
    && ((s.c.SetDropping? || s.c.ShutdownWake? || s.c.Join? || s.c.Gone?) ==> s.call == DropStream)
    && ((s.c.ReleaseFlag? || s.c.ReleaseToken? || s.c.UnparkLock? || s.c.UnparkAck? || s.c.UnparkClear?
         || s.c.UnparkNotify?) ==> s.call != NoCall)
    && (s.call == DropStream ==> (s.c.ReleaseFlag? || s.c.ReleaseToken? || s.c.SetDropping?) || ShuttingDown(s))
  }

  /** The flags say where the two threads are, and a true acknowledgement is never stale. */
  predicate FlagsInv(s: State) {
    && !(WorkerHolds(s.w) && ControlHolds(s.c))
    && (s.m.parked <==> ParkInForce(s))
    && (Exited(s.w) || ShuttingDown(s) ==> s.m.dropping)
    && (s.m.dropping ==> Exited(s.w) || ShuttingDown(s))
    && (s.m.ack ==> s.m.parked && InAckLoop(s.w))
    && (s.w.AckLock? || s.w.AckSet? ==> Requesting(s.c) && !s.m.dropping && !s.m.ack)
    && (Owning(s) ==> (s.m.ack && InAckLoop(s.w)) || (s.m.dropping && Exited(s.w)))
    && (s.c.UnparkClear? && IsParkingCall(s.call) ==> !s.m.ack && (InAckLoop(s.w) || Exited(s.w)))
  }

  /** Nobody sleeps through the event it waits for. */
  predicate WakeupInv(s: State) {
    && (s.w.AckWait? ==> s.m.parked || s.c.UnparkNotify?)
    && (s.c.ParkWait? ==> !s.m.ack && (s.m.dropping ==> s.w.ExitLock? || s.w.ExitNotify?))
    && (s.w.LatchPark? ==> !s.m.released || s.m.token || s.c.ReleaseToken?)
    && (s.m.released || s.c.Idle? || s.c.SetDraining? || s.c.HwPause? || s.c.ClearDraining? || s.c.ReleaseFlag?)
    && (s.m.released || s.w.LatchCheck? || s.w.LatchPark?)
    && (s.c.Idle? && s.call.Start? ==> s.m.released)
  }

  /** The pipe holds a token for every request the worker has not seen. */
  predicate PipeInv(s: State) {
    && (s.w.ClearPipe? ==> s.m.pipe > 0)
    && (Requesting(s.c) && !s.c.Wake? ==>
          || s.m.pipe > 0 || s.w.Head? || s.w.CheckParked? || s.w.AckLock? || s.w.AckSet?
          || InAckLoop(s.w) || Exited(s.w))
    && (s.c.Join? || s.c.Gone? ==> s.m.pipe > 0 || s.w.Head? || s.w.Done?)
    && (s.c.Gone? ==> s.w.Done?)
  }

  /** The callback is suppressed while a parking call owns the PCM, and after `stop`, and no longer once a
      `start` has begun. */
  predicate SilenceInv(s: State) {
    && (s.call.Start? && !s.c.ClearDraining? ==> !s.m.draining)
    && (!s.c.Idle? && IsParkingCall(s.call) && !s.c.SetDraining? ==> s.m.draining)
    && (s.c.UnparkNotify? && IsParkingCall(s.call) ==> !s.w.Callback?)
    && (s.c.Idle? && s.call.Stop? ==> Silent(s))
    && (s.c.Idle? && s.call.Pause? ==> s.m.draining)
  }

  predicate Silent(s: State) { s.m.draining && !s.w.Callback? }

  predicate Inv(s: State) {
    && WellFormedCall(s)
    && FlagsInv(s)
    && WakeupInv(s)
    && PipeInv(s)
    && SilenceInv(s)
  }

  // One lemma for each stretch of the two programs.

  lemma LatchKeepsInv(s: State, choice: WorkerChoice)
    requires Inv(s) && (s.w.LatchCheck? || s.w.LatchPark?)
    requires WorkerStep(s, choice).Some?
    ensures Inv(WorkerStep(s, choice).value)
  {
  }

  lemma HeadKeepsInv(s: State, choice: WorkerChoice)
    requires Inv(s) && (s.w.Head? || s.w.CheckParked? || s.w.ClearPipe?)
    requires WorkerStep(s, choice).Some?
    ensures Inv(WorkerStep(s, choice).value)
  {
  }

  lemma AckEntryKeepsInv(s: State, choice: WorkerChoice)
    requires Inv(s) && (s.w.AckLock? || s.w.AckSet? || s.w.AckTest?)
    requires WorkerStep(s, choice).Some?
    ensures Inv(WorkerStep(s, choice).value)
  {
  }

  lemma AckExitKeepsInv(s: State, choice: WorkerChoice)
    requires Inv(s) && (s.w.AckWait? || s.w.AckWoken? || s.w.AckClear?)
    requires WorkerStep(s, choice).Some?
    ensures Inv(WorkerStep(s, choice).value)
  {
  }

  lemma PollKeepsInv(s: State, choice: WorkerChoice)
    requires Inv(s) && s.w.Poll?
    requires WorkerStep(s, choice).Some?
    ensures Inv(WorkerStep(s, choice).value)
  {
  }

  lemma CycleStartKeepsInv(s: State, choice: WorkerChoice)
    requires Inv(s) && (s.w.UsePcm? || s.w.CheckDraining?)
    requires WorkerStep(s, choice).Some?
    ensures Inv(WorkerStep(s, choice).value)
  {
  }

  lemma CycleEndKeepsInv(s: State, choice: WorkerChoice)
    requires Inv(s) && (s.w.Callback? || s.w.FinishPcm?)
    requires WorkerStep(s, choice).Some?
    ensures Inv(WorkerStep(s, choice).value)
  {
  }

  lemma ExitKeepsInv(s: State, choice: WorkerChoice)
    requires Inv(s) && (s.w.ExitStore? || s.w.ExitLock? || s.w.ExitNotify? || s.w.Done?)
    requires WorkerStep(s, choice).Some?
    ensures Inv(WorkerStep(s, choice).value)
  {
  }

  lemma BeginKeepsInv(s: State, choice: ControlChoice)
    requires Inv(s) && (s.c.Idle? || s.c.SetDraining? || s.c.HwPause? || s.c.ClearDraining? || s.c.StartPcm?)
    requires ControlStep(s, choice).Some?
    ensures Inv(ControlStep(s, choice).value)
  {
  }

  lemma ReleaseKeepsInv(s: State, choice: ControlChoice)
    requires Inv(s) && (s.c.ReleaseFlag? || s.c.ReleaseToken? || s.c.SetParked?)
    requires ControlStep(s, choice).Some?
    ensures Inv(ControlStep(s, choice).value)
  {
  }

  lemma RequestKeepsInv(s: State, choice: ControlChoice)
    requires Inv(s) && (Requesting(s.c) || s.c.Exclusive?)
    requires ControlStep(s, choice).Some?
    ensures Inv(ControlStep(s, choice).value)
  {
  }

  lemma UnparkKeepsInv(s: State, choice: ControlChoice)
    requires Inv(s) && (s.c.UnparkLock? || s.c.UnparkAck? || s.c.UnparkClear? || s.c.UnparkNotify?)
    requires ControlStep(s, choice).Some?
    ensures Inv(ControlStep(s, choice).value)
  {
  }

  lemma ShutdownKeepsInv(s: State, choice: ControlChoice)
    requires Inv(s) && (s.c.SetDropping? || s.c.ShutdownWake? || s.c.Join? || s.c.Gone?)
    requires ControlStep(s, choice).Some?
    ensures Inv(ControlStep(s, choice).value)
  {
  }

  lemma WorkerKeepsInv(s: State, choice: WorkerChoice)
    requires Inv(s) && WorkerStep(s, choice).Some?
    ensures Inv(WorkerStep(s, choice).value)
  {
    match s.w
    case LatchCheck | LatchPark => LatchKeepsInv(s, choice);
    case Head | CheckParked | ClearPipe => HeadKeepsInv(s, choice);
    case AckLock | AckSet | AckTest => AckEntryKeepsInv(s, choice);
    case AckWait | AckWoken | AckClear => AckExitKeepsInv(s, choice);
    case Poll => PollKeepsInv(s, choice);
    case UsePcm | CheckDraining => CycleStartKeepsInv(s, choice);
    case Callback | FinishPcm => CycleEndKeepsInv(s, choice);
    case ExitStore | ExitLock | ExitNotify | Done => ExitKeepsInv(s, choice);
  }

  lemma ControlKeepsInv(s: State, choice: ControlChoice)
    requires Inv(s) && ControlStep(s, choice).Some?
    ensures Inv(ControlStep(s, choice).value)
  {
    match s.c
    case Idle | SetDraining | HwPause | ClearDraining | StartPcm => BeginKeepsInv(s, choice);
    case ReleaseFlag | ReleaseToken | SetParked => ReleaseKeepsInv(s, choice);
    case Wake | SetParkedAgain | ParkLock | ParkTest | ParkWait | ParkWoken | Exclusive =>
      RequestKeepsInv(s, choice);
    case UnparkLock | UnparkAck | UnparkClear | UnparkNotify => UnparkKeepsInv(s, choice);
    case SetDropping | ShutdownWake | Join | Gone => ShutdownKeepsInv(s, choice);
  }

  lemma NextKeepsInv(s: State, t: State)
    requires Inv(s) && Next(s, t)
    ensures Inv(t)
  {
    var a :| Step(s, a) == Some(t);
    match a
    case W(choice) => WorkerKeepsInv(s, choice);
    case C(choice) => ControlKeepsInv(s, choice);
  }

  lemma {:induction false} RunInv(run: seq<State>, k: nat)
    requires IsRun(run) && k < |run|
    ensures Inv(run[k])
  {
    if k > 0 {
      RunInv(run, k - 1);
      assert StepsAt(run, k - 1);
      NextKeepsInv(run[k - 1], run[k]);
    }
  }

  // ---------------------------------------------------------------------------------------------
  // Exclusive access
  // ---------------------------------------------------------------------------------------------

  /** In every interleaving, from the return of `park_worker` to `unpark_worker`, the worker sits in
      the wait of `acknowledge_park` or has exited, and no step it can take brings it to the PCM. */
  lemma ParkedMeansExclusive(run: seq<State>, k: nat)
    requires IsRun(run) && k < |run| && Owning(run[k])
    ensures (InAckLoop(run[k].w) && run[k].m.parked && run[k].m.ack) || (Exited(run[k].w) && run[k].m.dropping)
    ensures !TouchesPcm(run[k].w)
    ensures forall choice :: WorkerStep(run[k], choice).Some? ==> !TouchesPcm(WorkerStep(run[k], choice).value.w)
  {
    RunInv(run, k);
  }

  /** A true acknowledgement always answers the request in force, and between control calls no
      request and no acknowledgement is left behind, whatever the call's outcome was. */
  lemma AcknowledgementIsFresh(run: seq<State>, k: nat)
    requires IsRun(run) && k < |run|
    ensures run[k].m.ack ==> run[k].m.parked && InAckLoop(run[k].w) && (Requesting(run[k].c) || Owning(run[k]))
    ensures run[k].c.Idle? ==> !run[k].m.parked && !run[k].m.ack
  {
    RunInv(run, k);
  }

  /** A `pause()` or `stop()` on its way to the park. */
  predicate Parking(s: State) {
    IsParkingCall(s.call) && (s.c.ReleaseFlag? || s.c.ReleaseToken? || s.c.SetParked? || Requesting(s.c))
  }

  /** A `stop()`, and a `pause()` that is not done in hardware, do not return before they have had the PCM for
      themselves. */
  lemma {:induction false} ParkingCallsPark(run: seq<State>, i: nat, j: nat)
    requires IsRun(run) && i <= j < |run|
    requires Parking(run[i]) && forall k :: i <= k <= j ==> !Owning(run[k])
    ensures Parking(run[j])
  {
    if i < j {
      ParkingCallsPark(run, i, j - 1);
      assert StepsAt(run, j - 1);
      ParkingGoesOn(run[j - 1], run[j]);
    }
  }

  lemma ParkingGoesOn(s: State, t: State)
    requires Parking(s) && Next(s, t)
    ensures Parking(t) || Owning(t)
  {
    var a :| Step(s, a) == Some(t);
    match a
    case W(choice) =>
      WorkerOnlyNotifies(s, choice);
      hide WorkerStep;
    case C(choice) => ControlGoesOn(s, choice);
  }

  lemma WorkerOnlyNotifies(s: State, choice: WorkerChoice)
    requires WorkerStep(s, choice).Some?
    ensures var t := WorkerStep(s, choice).value; t.call == s.call && (t.c == s.c || t.c == NotifyControl(s.c))
  {
  }

  lemma ControlGoesOn(s: State, choice: ControlChoice)
    requires Parking(s) && ControlStep(s, choice).Some?
    ensures var t := ControlStep(s, choice).value; Parking(t) || Owning(t)
  {
  }

  /** And that is the way both of them go. */
  lemma ParkingBegins(s: State)
    requires WellFormedCall(s) && ((s.c.SetDraining? && s.call.Stop?) || s.c.HwPause?)
    ensures ControlStep(s, Proceed).Some? && Parking(ControlStep(s, Proceed).value)
  {
  }

  // ---------------------------------------------------------------------------------------------
  // Callback suppression
  // ---------------------------------------------------------------------------------------------

  /** `start` clears `draining` in the step from `run[k]`. */
  predicate Restarts(run: seq<State>, k: nat)
    requires k < |run| - 1
  {
    run[k].c.ClearDraining? && !run[k + 1].c.ClearDraining?
  }

  lemma RunStaysSilent(run: seq<State>, k: nat)
    requires IsRun(run) && k < |run| - 1 && Silent(run[k]) && !Restarts(run, k)
    ensures Silent(run[k + 1])
  {
    assert StepsAt(run, k);
    DrainingLasts(run[k], run[k + 1]);
  }

  lemma {:induction false} SilenceUntilRestart(run: seq<State>, i: nat, j: nat)
    requires IsRun(run) && i <= j < |run| && Silent(run[i])
    requires forall k: nat :: i <= k < j ==> !Restarts(run, k)
    ensures Silent(run[j])
  {
    if i < j {
      SilenceUntilRestart(run, i, j - 1);
      RunStaysSilent(run, j - 1);
    }
  }

  /** Once `stop()` has returned, or `park_worker` has returned inside any `pause()` or `stop()`, the
      worker is outside the data callback and stays outside it until a `start()` clears `draining`. */
  lemma StopSilencesTheCallback(run: seq<State>, i: nat, j: nat)
    requires IsRun(run) && i <= j < |run|
    requires (run[i].c.Idle? && run[i].call.Stop?) || Owning(run[i])
    requires forall k: nat :: i <= k < j ==> !Restarts(run, k)
    ensures !run[j].w.Callback?
  {
    RunInv(run, i);
    SilenceUntilRestart(run, i, j);
  }

  /** A call of `pause()` that ended in a hardware pause has not waited for the worker. From its return on,
      the worker is in the callback only if it was there at the return and has not left it since. */
  lemma {:induction false} PauseLeavesOneCallback(run: seq<State>, i: nat, j: nat)
    requires IsRun(run) && i <= j < |run| && run[i].c.Idle? && run[i].call.Pause?
    requires forall k: nat :: i <= k < j ==> !Restarts(run, k)
    ensures run[j].m.draining
    ensures run[j].w.Callback? ==> forall k :: i <= k <= j ==> run[k].w.Callback?
  {
    if i == j {
      RunInv(run, i);
    } else {
      PauseLeavesOneCallback(run, i, j - 1);
      assert StepsAt(run, j - 1) && !Restarts(run, j - 1);
      DrainingLasts(run[j - 1], run[j]);
    }
  }

  /** So a stream that `pause()` has returned for is silent until the next `start()` if and only if the
      worker was outside the callback at the return. */
  lemma PauseSilencesIff(run: seq<State>, i: nat, j: nat)
    requires IsRun(run) && i <= j < |run| && run[i].c.Idle? && run[i].call.Pause?
    requires forall k: nat :: i <= k < j ==> !Restarts(run, k)
    ensures (forall k :: i <= k <= j ==> !run[k].w.Callback?) <==> !run[i].w.Callback?
  {
    forall k: nat | i <= k <= j && run[k].w.Callback?
      ensures run[i].w.Callback?
    {
      PauseLeavesOneCallback(run, i, k);
    }
  }

  // ---------------------------------------------------------------------------------------------
  // A stream that was started plays
  // ---------------------------------------------------------------------------------------------

  /** Once `start()` has returned nothing suppresses the callback, whatever was called before, and a worker
      with a period in its hands calls it. */
  lemma StartEndsSilence(run: seq<State>, k: nat)
    requires IsRun(run) && k < |run| && run[k].c.Idle? && run[k].call.Start?
    ensures !run[k].m.draining
    ensures run[k].w.CheckDraining? ==>
              WorkerStep(run[k], Go).Some? && WorkerStep(run[k], Go).value.w.Callback?
  {
    RunInv(run, k);
  }

  /** How many steps the worker of a started stream is from its next callback; a token left in the pipe costs
      it one more turn of the loop. */
  function PlayRank(s: State): nat {
    4 * s.m.pipe +
    match s.w
    case Callback => 0
    case CheckDraining => 1
    case UsePcm => 2
    case ClearPipe => 2
    case Poll => 3
    case CheckParked | AckClear => 4
    case Head | AckTest => 5
    case LatchCheck | FinishPcm | AckWoken => 6
    case LatchPark => 7
    case _ => 0
  }

  /** The worker has not met the loss of the device. */
  predicate Playing(s: State) { s.c.Idle? && s.call.Start? && !Exited(s.w) && !s.w.ExitStore? }

  /** As long as the device reports its periods and fails nowhere, the worker is never blocked, and every step
      of it brings the next callback closer. */
  lemma PlayProgress(s: State)
    requires Inv(s) && Playing(s) && !s.w.Callback?
    ensures WorkerStep(s, Go).Some? || WorkerStep(s, Event).Some?
    ensures forall choice :: choice in {Go, Event} && WorkerStep(s, choice).Some? ==>
              var t := WorkerStep(s, choice).value;
              Playing(t) && PlayRank(t) < PlayRank(s)
  {
  }

  /** The device reports a period whenever it is polled, nothing fails, and no control call comes in between. */
  ghost predicate Undisturbed(run: seq<State>, k: nat)
    requires k < |run| - 1
  {
    WorkerStep(run[k], Go) == Some(run[k + 1]) || WorkerStep(run[k], Event) == Some(run[k + 1])
  }

  /** So after `start()` has returned the callback is called within as many steps as the rank says. */
  lemma {:induction false} StartedStreamPlays(run: seq<State>, i: nat, j: nat)
    requires IsRun(run) && i <= j < |run| && Playing(run[i])
    requires forall k: nat :: i <= k < j ==> Undisturbed(run, k) && !run[k].w.Callback?
    ensures Playing(run[j]) && j - i <= PlayRank(run[i]) - PlayRank(run[j])
    ensures run[j].w.Callback? || WorkerStep(run[j], Go).Some? || WorkerStep(run[j], Event).Some?
  {
    hide Inv;
    hide WorkerStep;
    hide PlayRank;
    hide Playing;
    if i < j {
      StartedStreamPlays(run, i, j - 1);
      RunInv(run, j - 1);
      PlayProgress(run[j - 1]);
    }
    if !run[j].w.Callback? {
      RunInv(run, j);
      PlayProgress(run[j]);
    }
  }

  lemma DrainingLasts(s: State, t: State)
    requires s.m.draining && Next(s, t) && (s.c.ClearDraining? ==> t.c.ClearDraining?)
    ensures t.m.draining && (t.w.Callback? ==> s.w.Callback?)
  {
    var a :| Step(s, a) == Some(t);
    match a
    case W(choice) => WorkerKeepsDraining(s, choice);
    case C(choice) => ControlKeepsDraining(s, choice);
  }

  lemma WorkerKeepsDraining(s: State, choice: WorkerChoice)
    requires s.m.draining && WorkerStep(s, choice).Some?
    ensures var t := WorkerStep(s, choice).value; t.m.draining && (t.w.Callback? ==> s.w.Callback?)
  {
  }

  lemma ControlKeepsDraining(s: State, choice: ControlChoice)
    requires s.m.draining && ControlStep(s, choice).Some?
    requires s.c.ClearDraining? ==> ControlStep(s, choice).value.c.ClearDraining?
    ensures var t := ControlStep(s, choice).value; t.m.draining && (t.w.Callback? ==> s.w.Callback?)
  {
    match s.c
    case UnparkNotify =>
    case ClearDraining =>
    case ReleaseToken =>
    case _ =>
  }

  // ---------------------------------------------------------------------------------------------
  // Deadlock
  // ---------------------------------------------------------------------------------------------

  /** The step from `run[k]` asks for a park while the worker is still waiting inside the previous
      acknowledgement. */
  predicate AsksEarly(run: seq<State>, k: nat)
    requires k < |run| - 1
  {
    run[k].c.SetParked? && run[k + 1].c.Wake? && InAckLoop(run[k].w)
  }

  lemma DoomStep(s: State, t: State)
    requires Inv(s) && Next(s, t)
    ensures Doomed(t) <==> Doomed(s) || (s.c.SetParked? && t.c.Wake? && InAckLoop(s.w))
  {
    var a :| Step(s, a) == Some(t);
    match a
    case W(choice) => WorkerDoomStep(s, choice);
    case C(choice) => ControlDoomStep(s, choice);
  }

  lemma WorkerDoomStep(s: State, choice: WorkerChoice)
    requires Inv(s) && WorkerStep(s, choice).Some?
    ensures Doomed(WorkerStep(s, choice).value) <==> Doomed(s)
  {
    if s.w.AckSet? || InAckLoop(s.w) || s.w.ExitStore? {
    }
  }

  lemma ControlDoomStep(s: State, choice: ControlChoice)
    requires Inv(s) && ControlStep(s, choice).Some?
    ensures Doomed(ControlStep(s, choice).value) <==> Doomed(s) || (s.c.SetParked? && InAckLoop(s.w))
  {
  }

  lemma RunDoomStep(run: seq<State>, k: nat)
    requires IsRun(run) && k < |run| - 1
    ensures Doomed(run[k + 1]) <==> Doomed(run[k]) || AsksEarly(run, k)
  {
    RunInv(run, k);
    assert StepsAt(run, k);
    DoomStep(run[k], run[k + 1]);
  }

  /** A reachable state is deadlocked exactly when some park request of the run came while the worker
      had not yet left the acknowledgement of the request before. */
  lemma {:induction false} DeadlockedIffAskedEarly(run: seq<State>, k: nat)
    requires IsRun(run) && k < |run|
    ensures Doomed(run[k]) <==> exists i: nat :: i < k && AsksEarly(run, i)
  {
    if k > 0 {
      DeadlockedIffAskedEarly(run, k - 1);
      RunDoomStep(run, k - 1);
    }
  }

  /** A deadlock lasts, and the control thread never gets the PCM or returns. */
  lemma {:induction false} DeadlockIsForever(run: seq<State>, i: nat, j: nat)
    requires IsRun(run) && i <= j < |run| && Doomed(run[i])
    ensures Doomed(run[j]) && Requesting(run[j].c)
  {
    if i < j {
      DeadlockIsForever(run, i, j - 1);
      RunDoomStep(run, j - 1);
    }
  }

  /** How many steps the worker is from acknowledging a park it has not started to acknowledge. */
  function ParkRank(w: Worker): nat {
    match w
    case AckSet => 1
    case AckLock => 2
    case CheckParked => 3
    case Head => 4
    case LatchCheck | ClearPipe | FinishPcm => 5
    case LatchPark | Callback => 6
    case CheckDraining => 7
    case UsePcm => 8
    case Poll => 9
    case AckClear => 10
    case ExitNotify => 1
    case ExitLock => 2
    case ExitStore => 3
    case AckTest | AckWait | AckWoken | Done => 0
  }

  /** While the control thread waits in `park_worker` and the state is not deadlocked, the worker can
      always step without help, and each of its steps wakes the control thread or lowers the rank. */
  lemma ParkProgress(s: State)
    requires Inv(s) && s.c.ParkWait? && !Doomed(s)
    ensures WorkerStep(s, Go).Some?
    ensures forall choice :: WorkerStep(s, choice).Some? ==>
              var t := WorkerStep(s, choice).value;
              t.c.ParkWoken? || (t.c.ParkWait? && ParkRank(t.w) < ParkRank(s.w))
  {
  }

  /** The park request has been made and nothing has answered it yet. */
  predicate Unanswered(s: State) { Requesting(s.c) && !s.c.Wake? && !s.m.ack && !s.m.dropping }

  lemma WorkerParkStep(s: State, choice: WorkerChoice)
    requires Inv(s) && Unanswered(s) && !Doomed(s) && WorkerStep(s, choice).Some?
    ensures var t := WorkerStep(s, choice).value; t.w != s.w && (!Unanswered(t) || ParkRank(t.w) < ParkRank(s.w))
  {
  }

  lemma ControlParkStep(s: State, choice: ControlChoice)
    requires Unanswered(s) && ControlStep(s, choice).Some?
    ensures ControlStep(s, choice).value.w == s.w
  {
  }

  /** How often the worker steps between two states of a run. Every step of it moves its program counter,
      and while a request is unanswered nothing else does. */
  function WorkerSteps(run: seq<State>, i: nat, j: nat): nat
    requires i <= j < |run|
  {
    if i == j then 0 else WorkerSteps(run, i, j - 1) + if run[j - 1].w != run[j].w then 1 else 0
  }

  lemma RunParkStep(run: seq<State>, k: nat)
    requires IsRun(run) && k < |run| - 1 && Unanswered(run[k]) && Unanswered(run[k + 1]) && !Doomed(run[k])
    ensures run[k + 1].w == run[k].w || ParkRank(run[k + 1].w) < ParkRank(run[k].w)
  {
    RunInv(run, k);
    assert StepsAt(run, k);
    var a :| Step(run[k], a) == Some(run[k + 1]);
    match a
    case W(choice) => WorkerParkStep(run[k], choice);
    case C(choice) => ControlParkStep(run[k], choice);
  }

  /** A park request that did not come early is answered after at most ten steps of the worker, however
      often the control thread wakes up and looks in between. */
  lemma {:induction false} ParkWaitIsBounded(run: seq<State>, i: nat, j: nat)
    requires IsRun(run) && i <= j < |run|
    requires forall k :: i <= k <= j ==> Unanswered(run[k])
    requires forall k: nat :: k < j ==> !AsksEarly(run, k)
    ensures WorkerSteps(run, i, j) <= ParkRank(run[i].w) - ParkRank(run[j].w) <= 10
  {
    if i < j {
      ParkWaitIsBounded(run, i, j - 1);
      DeadlockedIffAskedEarly(run, j - 1);
      RunParkStep(run, j - 1);
    }
  }

  /** And the worker can take each of them as soon as the control thread is not holding the mutex. */
  lemma WorkerCanAnswer(run: seq<State>, j: nat)
    requires IsRun(run) && j < |run| && Unanswered(run[j])
    requires forall k: nat :: k < j ==> !AsksEarly(run, k)
    ensures WorkerStep(run[j], Go).Some? || ControlHolds(run[j].c)
  {
    RunInv(run, j);
    DeadlockedIffAskedEarly(run, j);
  }

  /** While a control call is in progress, some thread can always step without a spurious wakeup or
      an event from the device, unless a request came early. */
  lemma OnlyEarlyRequestsBlock(run: seq<State>, k: nat)
    requires IsRun(run) && k < |run| && !run[k].c.Idle? && !run[k].c.Gone?
    requires forall i: nat :: i < k ==> !AsksEarly(run, i)
    ensures ControlStep(run[k], Proceed).Some? || WorkerStep(run[k], Go).Some?
  {
    RunInv(run, k);
    DeadlockedIffAskedEarly(run, k);
    if run[k].c.ParkWait? {
      ParkProgress(run[k]);
    } else if run[k].c.Join? && !run[k].w.Done? {
      ShutdownProgress(run[k]);
    }
  }

  ghost predicate Reachable(s: State) { exists run :: IsRun(run) && run[|run| - 1] == s }

  lemma Reach(s: State, a: Action) returns (t: State)
    requires Reachable(s) && Step(s, a).Some?
    ensures Reachable(t) && Step(s, a) == Some(t)
  {
    t := Step(s, a).value;
    var run :| IsRun(run) && run[|run| - 1] == s;
    var longer := run + [t];
    forall k: nat | k < |longer| - 1 ensures StepsAt(longer, k) {
      if k < |run| - 1 {
        assert StepsAt(run, k);
      }
    }
    assert IsRun(longer) && longer[|longer| - 1] == t;
  }

  /** A stream is started, the worker enters the callback, and `pause()` returns after a hardware pause
      while it is still there. */
  lemma PauseCanLeaveACallback()
    ensures exists s :: Reachable(s) && s.c.Idle? && s.call.Pause? && s.w.Callback?
  {
    var s := Starting();
    s := Started(s);
    s := Reach(s, W(Go));
    s := Reach(s, W(Go));
    s := Reach(s, W(Go));
    s := Reach(s, W(Event));
    s := Reach(s, W(Go));
    s := Reach(s, W(Go));
    s := Reach(s, C(Invoke(Pause)));
    s := Reach(s, C(Proceed));
    s := Reach(s, C(Finish));
  }

  lemma Starting() returns (s: State)
    ensures Reachable(s) && s == State(LatchCheck, UnparkLock, Start, Memory(false, false, false, false, 0, true, true))
  {
    assert IsRun([Init]);
    s := Reach([Init][0], C(Invoke(Start)));
    s := Reach(s, C(Proceed));
    s := Reach(s, C(Proceed));
    s := Reach(s, C(Proceed));
  }

  lemma Started(s: State) returns (t: State)
    requires Reachable(s)
    requires s == State(LatchCheck, UnparkLock, Start, Memory(false, false, false, false, 0, true, true))
    ensures Reachable(t) && t == State(LatchCheck, Idle, Start, Memory(false, false, false, false, 0, true, true))
  {
    t := Reach(s, C(Proceed));
    t := Reach(t, C(Proceed));
    t := Reach(t, C(Proceed));
    t := Reach(t, C(Proceed));
    t := Reach(t, C(Proceed));
  }

  /** A `stop()` has returned at `run[i]` and, if `j` is later, a `start()` at `run[j]`. */
  ghost predicate StopThenStart(run: seq<State>, i: nat, j: nat) {
    && IsRun(run) && i <= j < |run|
    && run[i].c.Idle? && run[i].call.Stop? && run[i].m.draining
    && (i < j ==> run[j].c.Idle? && run[j].call.Start?)
  }

  lemma Longer(run: seq<State>, i: nat, j: nat, a: Action) returns (longer: seq<State>)
    requires StopThenStart(run, i, j) && Step(Last(run), a).Some?
    ensures StopThenStart(longer, i, j) && |longer| == |run| + 1 && Step(Last(run), a) == Some(Last(longer))
  {
    longer := run + [Step(Last(run), a).value];
    forall k: nat | k < |longer| - 1
      ensures StepsAt(longer, k)
    {
      if k < |run| - 1 {
        assert StepsAt(run, k);
      }
    }
  }

  lemma RestartAfterStop(run: seq<State>, i: nat) returns (longer: seq<State>)
    requires StopThenStart(run, i, i)
    requires Last(run) == State(AckWoken, ClearDraining, Start, Memory(false, true, false, false, 1, true, true))
    ensures StopThenStart(longer, i, i) && |longer| == |run| + 4
    ensures Last(longer) == State(AckWoken, UnparkAck, Start, Memory(false, false, false, false, 1, true, true))
  {
    hide StopThenStart;
    longer := Longer(run, i, i, C(Proceed));
    longer := Longer(longer, i, i, C(Proceed));
    longer := Longer(longer, i, i, C(Proceed));
    longer := Longer(longer, i, i, C(Proceed));
  }

  lemma FinishRestart(run: seq<State>, i: nat) returns (longer: seq<State>)
    requires StopThenStart(run, i, i)
    requires Last(run) == State(AckWoken, UnparkAck, Start, Memory(false, false, false, false, 1, true, true))
    ensures StopThenStart(longer, i, i) && |longer| == |run| + 4
    ensures Last(longer) == State(AckWoken, Idle, Start, Memory(false, false, false, false, 1, true, true))
  {
    hide StopThenStart;
    longer := Longer(run, i, i, C(Proceed));
    longer := Longer(longer, i, i, C(Proceed));
    longer := Longer(longer, i, i, C(Proceed));
    longer := Longer(longer, i, i, C(Proceed));
  }

  /** The worker leaves the acknowledgement and takes the old token out of the pipe. */
  lemma WakeAfterRestart(run: seq<State>, i: nat, j: nat) returns (longer: seq<State>)
    requires StopThenStart(run, i, j)
    requires Last(run) == State(AckWoken, Idle, Start, Memory(false, false, false, false, 1, true, true))
    ensures StopThenStart(longer, i, j)
    ensures Last(longer) == State(Head, Idle, Start, Memory(false, false, false, false, 0, true, true))
  {
    hide StopThenStart;
    longer := Longer(run, i, j, W(Go));
    longer := Longer(longer, i, j, W(Go));
    longer := Longer(longer, i, j, W(Go));
    longer := Longer(longer, i, j, W(Go));
    longer := Longer(longer, i, j, W(Go));
  }

  lemma PlayAfterRestart(run: seq<State>, i: nat, j: nat) returns (longer: seq<State>)
    requires StopThenStart(run, i, j)
    requires Last(run) == State(Head, Idle, Start, Memory(false, false, false, false, 0, true, true))
    ensures StopThenStart(longer, i, j) && Last(longer).w.Callback?
  {
    hide StopThenStart;
    longer := Longer(run, i, j, W(Go));
    longer := Longer(longer, i, j, W(Go));
    longer := Longer(longer, i, j, W(Event));
    longer := Longer(longer, i, j, W(Go));
    longer := Longer(longer, i, j, W(Go));
  }

  /** A stream is stopped and started again, and plays. */
  lemma StopThenStartPlays() returns (run: seq<State>, i: nat, j: nat)
    ensures i < j && StopThenStart(run, i, j) && Last(run).w.Callback?
  {
    run, i := FirstStop();
    run := Longer(run, i, i, C(Invoke(Start)));
    run := RestartAfterStop(run, i);
    run := FinishRestart(run, i);
    j := |run| - 1;
    run := WakeAfterRestart(run, i, j);
    run := PlayAfterRestart(run, i, j);
  }

  predicate InStop(s: State) { s.call.Stop? && !s.c.Idle? }

  /** A run from the start that consists of `stop()` calls only: the first returned at `run[i]`, or is still
      going on if `i` is zero, and the second, if any, is still going on. */
  ghost predicate Stops(run: seq<State>, i: nat) {
    && IsRun(run) && i < |run|
    && (forall k :: 0 < k < i ==> InStop(run[k]))
    && (i > 0 ==> run[i].c.Idle? && run[i].call.Stop?)
    && (forall k :: i < k < |run| ==> InStop(run[k]))
  }

  function Last(run: seq<State>): State
    requires run != []
  {
    run[|run| - 1]
  }

  lemma Extend(run: seq<State>, i: nat, a: Action) returns (longer: seq<State>)
    requires Stops(run, i) && Step(Last(run), a).Some? && InStop(Step(Last(run), a).value)
    ensures Stops(longer, i) && Step(Last(run), a) == Some(Last(longer))
  {
    longer := run + [Step(Last(run), a).value];
    forall k: nat | k < |longer| - 1
      ensures StepsAt(longer, k)
    {
      if k < |run| - 1 {
        assert StepsAt(run, k);
      }
    }
  }

  lemma Return(run: seq<State>, a: Action) returns (longer: seq<State>, i: nat)
    requires Stops(run, 0) && Step(Last(run), a).Some?
    requires Step(Last(run), a).value.c.Idle? && Step(Last(run), a).value.call.Stop?
    ensures i > 0 && i == |longer| - 1 && Stops(longer, i) && Step(Last(run), a) == Some(Last(longer))
  {
    longer, i := run + [Step(Last(run), a).value], |run|;
    forall k: nat | k < |longer| - 1
      ensures StepsAt(longer, k)
    {
      if k < |run| - 1 {
        assert StepsAt(run, k);
      }
    }
  }

  /** A `stop()` issued in an idle state, up to its park request. */
  lemma Ask(run: seq<State>, i: nat) returns (longer: seq<State>)
    requires Stops(run, i) && Last(run).c.Idle?
    ensures Stops(longer, i) && Last(longer).c.ReleaseToken? && Last(longer).call.Stop?
    ensures Last(longer).w == Last(run).w
    ensures Last(longer).m == Last(run).m.(draining := true, released := true)
  {
    longer := Extend(run, i, C(Invoke(Stop)));
    longer := Extend(longer, i, C(Proceed));
    longer := Extend(longer, i, C(Proceed));
  }

  /** The park request, up to the wait for the mutex. */
  lemma Request(run: seq<State>, i: nat) returns (longer: seq<State>)
    requires Stops(run, i) && Last(run).c.ReleaseToken? && Last(run).call.Stop?
    ensures Stops(longer, i) && Last(longer).c.ParkLock? && Last(longer).call.Stop? && Last(longer).w == Last(run).w
    ensures Last(longer).m == Last(run).m.(token := true, parked := true, pipe := Last(run).m.pipe + 1)
  {
    longer := Extend(run, i, C(Proceed));
    longer := Extend(longer, i, C(Proceed));
    longer := Extend(longer, i, C(Proceed));
    longer := Extend(longer, i, C(Proceed));
  }

  lemma Acknowledge(run: seq<State>) returns (longer: seq<State>)
    requires Stops(run, 0)
    requires Last(run) == State(LatchCheck, ParkLock, Stop, Memory(false, true, true, false, 1, true, true))
    ensures Stops(longer, 0)
    ensures Last(longer) == State(AckWait, ParkLock, Stop, Memory(false, true, true, true, 1, true, true))
  {
    longer := Extend(run, 0, W(Go));
    longer := Extend(longer, 0, W(Go));
    longer := Extend(longer, 0, W(Go));
    longer := Extend(longer, 0, W(Go));
    longer := Extend(longer, 0, W(Go));
    longer := Extend(longer, 0, W(Go));
  }

  lemma LetGo(run: seq<State>) returns (longer: seq<State>)
    requires Stops(run, 0)
    requires Last(run) == State(AckWait, ParkLock, Stop, Memory(false, true, true, true, 1, true, true))
    ensures Stops(longer, 0)
    ensures Last(longer) == State(AckWait, UnparkClear, Stop, Memory(false, true, true, false, 1, true, true))
  {
    longer := Extend(run, 0, C(Proceed));
    longer := Extend(longer, 0, C(Proceed));
    longer := Extend(longer, 0, C(Proceed));
    longer := Extend(longer, 0, C(Proceed));
    longer := Extend(longer, 0, C(Proceed));
  }

  /** The first `stop()` returns; the worker has been woken but not scheduled. */
  lemma FirstStop() returns (run: seq<State>, i: nat)
    ensures i > 0 && Stops(run, i) && i == |run| - 1
    ensures Last(run) == State(AckWoken, Idle, Stop, Memory(false, true, false, false, 1, true, true))
  {
    run := [Init];
    assert Stops(run, 0);
    run := Ask(run, 0);
    run := Request(run, 0);
    run := Acknowledge(run);
    run := LetGo(run);
    run := Extend(run, 0, C(Proceed));
    run, i := Return(run, C(Proceed));
  }

  /** Two calls of `stop()` in a row, and nothing else, deadlock if the worker is not scheduled in between:
      the second request is stored before the worker has looked at `parked` again. */
  lemma DoubleStopCanDeadlock() returns (run: seq<State>, i: nat)
    ensures 0 < i < |run| - 1 && Stops(run, i) && Doomed(Last(run))
  {
    run, i := FirstStop();
    run := Ask(run, i);
    run := Request(run, i);
  }

  // ---------------------------------------------------------------------------------------------
  // Shutdown
  // ---------------------------------------------------------------------------------------------

  /** How many steps the worker is from its end once the stream has been dropped. */
  function ShutdownRank(w: Worker): nat {
    match w
    case Done => 0
    case ExitNotify => 1
    case ExitLock => 2
    case ExitStore => 3
    case Head => 4
    case LatchCheck | ClearPipe | FinishPcm => 5
    case LatchPark | Callback => 6
    case CheckDraining => 7
    case UsePcm => 8
    case Poll => 9
    case AckClear | CheckParked => 10
    case AckTest => 11
    case AckWoken => 12
    case AckSet => 12
    case AckWait | AckLock => 13
  }

  /** Once `shutdown_worker` has returned, the worker is not blocked in the latch, in the condition
      variable or in a poll with an empty pipe, and every step it takes brings it closer to its end. */
  lemma ShutdownProgress(s: State)
    requires Inv(s) && s.c.Join? && !s.w.Done?
    ensures WorkerStep(s, Go).Some?
    ensures ShutdownRank(s.w) <= 12 && !s.w.AckWait? && (s.w.LatchPark? ==> s.m.token) && (s.w.Poll? ==> s.m.pipe > 0)
    ensures forall choice :: WorkerStep(s, choice).Some? ==>
              ShutdownRank(WorkerStep(s, choice).value.w) < ShutdownRank(s.w)
  {
  }

  /** The worker has begun to end. */
  predicate Ending(w: Worker) { w.ExitStore? || Exited(w) }

  /** It begins to only when the device is lost or the stream is dropped, */
  lemma WorkerEndsIff(s: State, choice: WorkerChoice)
    requires !Ending(s.w) && WorkerStep(s, choice).Some?
    ensures Ending(WorkerStep(s, choice).value.w) <==> choice.Lost? || (s.w.Head? && s.m.dropping)
  {
  }

  /** and then ends, waiting for nothing but the mutex. */
  lemma EndingProgress(s: State)
    requires Inv(s) && Ending(s.w) && !s.w.Done?
    ensures WorkerStep(s, Go).Some? || ControlHolds(s.c)
    ensures forall choice :: WorkerStep(s, choice).Some? ==>
              var t := WorkerStep(s, choice).value;
              Ending(t.w) && t.m.dropping && ShutdownRank(t.w) < ShutdownRank(s.w)
  {
  }

  /** A drop that has returned has joined the worker. */
  lemma DropJoins(run: seq<State>, k: nat)
    requires IsRun(run) && k < |run| && run[k].c.Gone?
    ensures run[k].w.Done?
  {
    RunInv(run, k);
  }

  lemma RunShutdownStep(run: seq<State>, k: nat)
    requires IsRun(run) && k < |run| - 1 && run[k].c.Join? && run[k + 1].c.Join?
    ensures ShutdownRank(run[k + 1].w) < ShutdownRank(run[k].w)
  {
    RunInv(run, k);
    assert StepsAt(run, k);
    var a :| Step(run[k], a) == Some(run[k + 1]);
    if !run[k].w.Done? {
      ShutdownProgress(run[k]);
    }
  }

  /** The thread that drops a stream joins the worker after at most twelve further steps of it. */
  lemma {:induction false} JoinIsBounded(run: seq<State>, i: nat, j: nat)
    requires IsRun(run) && i <= j < |run|
    requires forall k :: i <= k <= j ==> run[k].c.Join?
    ensures j - i <= ShutdownRank(run[i].w) - ShutdownRank(run[j].w) <= 12
    ensures run[j].w.Done? || WorkerStep(run[j], Go).Some?
  {
    RunInv(run, j);
    RunInv(run, i);
    if !run[j].w.Done? {
      ShutdownProgress(run[j]);
    }
    if i < j {
      JoinIsBounded(run, i, j - 1);
      RunShutdownStep(run, j - 1);
    }
  }
}
