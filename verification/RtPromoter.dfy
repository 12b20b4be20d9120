/** The mailbox between an audio thread, which asks to be promoted to real-time priority, and the
 *  background thread that does it. One slot holds the latest request; a park token wakes the thread.
 */
module RtPromoter {
  import opened Runs
  import opened Wrappers

  /** Where the side that asks is: between a store and the matching `unpark`, or waiting for the
      background thread to end. */
  datatype Requester = Idle | Unpark | ShutdownUnpark | Join | Gone

  /** Where the background thread is; the name says which access comes next. */
  datatype Promoter = Check | Swap | Promote(frames: nat) | Park | Demote | Exited

  /** An attempt to promote the thread that asked, with the number of frames it gave. */
  datatype Attempt = Attempt(frames: nat, worked: bool)

  /** Priority changes so far: `promoted` is the thread's own record, `demoted` that it tried to undo it, and
      `attempts` what it really did. */
  datatype Priority = Priority(promoted: bool, demoted: bool, attempts: seq<Attempt>)

  /** `asked` and `taken` record every request and every non-zero request taken from the slot. */
  datatype Mail = Mail(pending: nat, asked: seq<nat>, taken: seq<nat>)

  datatype State = State(requester: Requester, promoter: Promoter, shutdown: bool, token: bool, mail: Mail,
                         priority: Priority)

  /** `Run` is the background thread's next access, `Fail` a promotion that fails, `Wake` a wakeup for no
      reason; `Proceed` is the requester's next access. */
  datatype Action = Run | Fail | Wake | Request(frames: nat) | Drop | Proceed

  const Init := State(Idle, Check, false, false, Mail(0, [], []), Priority(false, false, []))

  function Attempted(p: Priority, a: Attempt): Priority { p.(attempts := p.attempts + [a]) }

  function PromoterStep(s: State): Option<State> {
    match s.promoter
    case Check =>
      Some(s.(promoter := if !s.shutdown then Swap else if s.priority.promoted then Demote else Exited))
    case Swap =>
      if s.mail.pending != 0 then
        Some(s.(promoter := Promote(s.mail.pending),
                mail := s.mail.(pending := 0, taken := s.mail.taken + [s.mail.pending])))
      else
        Some(s.(promoter := Park))
    case Promote(frames) =>
      Some(s.(promoter := Check, priority := Attempted(s.priority, Attempt(frames, true)).(promoted := true)))
    case Park => if s.token then Some(s.(promoter := Check, token := false)) else None
    case Demote => Some(s.(promoter := Exited, priority := s.priority.(demoted := true)))
    case Exited => None
  }

  function RequesterStep(s: State): Option<State> {
    match s.requester
    case Unpark => Some(s.(requester := Idle, token := true))
    case ShutdownUnpark => Some(s.(requester := Join, token := true))
    case Join => if s.promoter.Exited? then Some(s.(requester := Gone)) else None
    case _ => None
  }

  function Step(s: State, a: Action): Option<State> {
    match a
    case Run => PromoterStep(s)
    case Fail =>
      if s.promoter.Promote? then
        Some(s.(promoter := Check, priority := Attempted(s.priority, Attempt(s.promoter.frames, false))))
      else None
    case Wake => if s.promoter.Park? then Some(s.(promoter := Check)) else None
    case Request(frames) =>
      if s.requester.Idle? then
        Some(s.(requester := Unpark, mail := s.mail.(pending := frames, asked := s.mail.asked + [frames])))
      else None
    case Drop => if s.requester.Idle? then Some(s.(requester := ShutdownUnpark, shutdown := true)) else None
    case Proceed => RequesterStep(s)
  }

  ghost predicate Reachable(s: State) { exists actions :: After(Step, Init, actions) == Some(s) }

  predicate Dropped(r: Requester) { r.ShutdownUnpark? || r.Join? || r.Gone? }

  /** A wakeup is on its way or already there. */
  predicate Woken(s: State) { s.token || s.requester.Unpark? || s.requester.ShutdownUnpark? }

  predicate MailInv(m: Mail) {
    && (m.pending != 0 ==> m.asked != [] && m.asked[|m.asked| - 1] == m.pending)
    && (m.pending == 0 && m.asked != [] && m.asked[|m.asked| - 1] != 0 ==>
          m.taken != [] && m.taken[|m.taken| - 1] == m.asked[|m.asked| - 1])
  }

  /** Every request that was taken has been tried, in order, except for the one that is being tried. */
  predicate Tried(taken: seq<nat>, attempts: seq<Attempt>, promoter: Promoter) {
    && |taken| == |attempts| + (if promoter.Promote? then 1 else 0)
    && (forall k :: 0 <= k < |attempts| ==> attempts[k].frames == taken[k])
    && (promoter.Promote? ==> taken[|taken| - 1] == promoter.frames)
  }

  predicate TakenWereAsked(m: Mail) { forall k :: 0 <= k < |m.taken| ==> m.taken[k] in m.asked && m.taken[k] != 0 }

  predicate Worked(attempts: seq<Attempt>) { exists k :: 0 <= k < |attempts| && attempts[k].worked }

  lemma WorkedAfter(attempts: seq<Attempt>, a: Attempt)
    ensures Worked(attempts + [a]) <==> Worked(attempts) || a.worked
  {
    assert a.worked ==> (attempts + [a])[|attempts|].worked;
    forall k | 0 <= k < |attempts| && attempts[k].worked
      ensures Worked(attempts + [a])
    {
      assert (attempts + [a])[k].worked;
    }
  }

  predicate Inv(s: State) {
    && Tried(s.mail.taken, s.priority.attempts, s.promoter)
    && TakenWereAsked(s.mail)
    && (s.priority.promoted <==> Worked(s.priority.attempts))
    && (s.priority.demoted ==> s.priority.promoted && s.promoter.Exited?)
    && (s.shutdown <==> Dropped(s.requester))
    && (s.promoter.Park? && (s.mail.pending != 0 || s.shutdown) ==> Woken(s))
    && (s.promoter.Swap? && s.shutdown ==> Woken(s))
    && (s.promoter.Demote? || s.promoter.Exited? ==> s.shutdown)
    && (s.promoter.Demote? ==> s.priority.promoted)
    && (s.promoter.Exited? && s.priority.promoted ==> s.priority.demoted)
    && (s.requester.Gone? ==> s.promoter.Exited?)
    && MailInv(s.mail)
  }

  lemma StepKeepsInv(s: State, a: Action)
    requires Inv(s) && Step(s, a).Some?
    ensures Inv(Step(s, a).value)
  {
    StepKeepsTried(s, a);
    StepKeepsTaken(s, a);
    StepKeepsMail(s, a);
    if s.promoter.Promote? {
      WorkedAfter(s.priority.attempts, Attempt(s.promoter.frames, a.Run?));
    }
    hide Tried;
    hide TakenWereAsked;
    hide Worked;
    hide MailInv;
  }

  lemma StepKeepsMail(s: State, a: Action)
    requires MailInv(s.mail) && Step(s, a).Some?
    ensures MailInv(Step(s, a).value.mail)
  {
  }

  lemma StepKeepsTried(s: State, a: Action)
    requires Tried(s.mail.taken, s.priority.attempts, s.promoter) && Step(s, a).Some?
    ensures var t := Step(s, a).value; Tried(t.mail.taken, t.priority.attempts, t.promoter)
  {
  }

  lemma StepKeepsTaken(s: State, a: Action)
    requires TakenWereAsked(s.mail) && MailInv(s.mail) && Step(s, a).Some?
    ensures TakenWereAsked(Step(s, a).value.mail)
  {
  }

  lemma ReachableInv(s: State)
    requires Reachable(s)
    ensures Inv(s)
  {
    var actions :| After(Step, Init, actions) == Some(s);
    forall t, a | Inv(t) && Step(t, a).Some?
      ensures Inv(Step(t, a).value)
    {
      StepKeepsInv(t, a);
    }
    RunKeeps(Step, Inv, Init, actions);
  }

  /** Every request taken from the slot leads to one attempt with its number of frames, and the thread counts as
      promoted if and only if one of them worked. */
  lemma EveryTakenIsTried(s: State)
    requires Reachable(s) && !s.promoter.Promote?
    ensures |s.priority.attempts| == |s.mail.taken|
    ensures forall k :: 0 <= k < |s.mail.taken| ==> s.priority.attempts[k].frames == s.mail.taken[k] != 0
    ensures s.priority.promoted <==> Worked(s.priority.attempts)
    ensures forall k :: 0 <= k < |s.mail.taken| ==> s.mail.taken[k] in s.mail.asked
    ensures s.priority.demoted ==> s.priority.promoted
  {
    ReachableInv(s);
  }

  /** How many accesses the background thread is from taking the request in the slot. */
  function ServeRank(p: Promoter): nat {
    match p
    case Swap => 1
    case Check => 2
    case Promote(_) | Park => 3
    case _ => 0
  }

  /** A request that is followed by neither another nor the drop is taken within three accesses of the thread, and
      tried with the next. */
  lemma {:induction false} RequestIsServed(s: State) returns (served: State)
    requires Inv(s) && s.mail.pending != 0 && s.requester.Idle?
    ensures After(Step, s, seq(ServeRank(s.promoter), _ => Run)) == Some(served)
    ensures ServeRank(s.promoter) <= 3
    ensures served.promoter == Promote(s.mail.pending) && served.mail.taken == s.mail.taken + [s.mail.pending]
    decreases ServeRank(s.promoter)
  {
    var actions := seq(ServeRank(s.promoter), _ => Run);
    var t := Step(s, actions[0]).value;
    StepKeepsInv(s, Run);
    if s.promoter.Swap? {
      assert actions[1..] == [];
      served := t;
    } else {
      served := RequestIsServed(t);
      assert actions[1..] == seq(ServeRank(t.promoter), _ => Run);
    }
  }

  /** The background thread can move whenever it has something to do: it is never parked without a token
      with a request in the slot, or after the promoter was dropped, once `unpark` is done. */
  lemma NeverSleepsOnWork(s: State)
    requires Reachable(s) && (s.mail.pending != 0 || s.shutdown)
    requires !s.requester.Unpark? && !s.requester.ShutdownUnpark?
    ensures s.promoter.Park? ==> s.token
    ensures Step(s, Run).Some? || s.promoter.Exited?
  {
    ReachableInv(s);
  }

  /** Asleep for good, it has taken the latest request, and it has not been told to stop. */
  lemma AsleepMeansServed(s: State)
    requires Reachable(s) && s.promoter.Park? && !Woken(s)
    ensures !s.shutdown && s.mail.pending == 0
    ensures s.mail.asked != [] && s.mail.asked[|s.mail.asked| - 1] != 0 ==>
              s.mail.taken != [] && s.mail.taken[|s.mail.taken| - 1] == s.mail.asked[|s.mail.asked| - 1]
  {
    ReachableInv(s);
  }

  /** It ends only when the promoter was dropped, and a thread it promoted has been demoted again, as far
      as that works; the drop does not return before. */
  lemma ExitDemotes(s: State)
    requires Reachable(s) && (s.promoter.Exited? || s.requester.Gone?)
    ensures s.shutdown && (s.priority.promoted ==> s.priority.demoted)
  {
    ReachableInv(s);
  }

  // ---------------------------------------------------------------------------------------------
  // After the drop
  // ---------------------------------------------------------------------------------------------

  /** Accesses the background thread still makes once `shutdown` is set. */
  function StepsLeft(p: Promoter): nat {
    match p
    case Swap => 4
    case Promote(_) => 3
    case Park => 3
    case Check => 2
    case Demote => 1
    case Exited => 0
  }

  predicate IsPromoterStep(a: Action) { a.Run? || a.Fail? || a.Wake? }

  function PromoterSteps(actions: seq<Action>): nat {
    if actions == [] then 0 else (if IsPromoterStep(actions[0]) then 1 else 0) + PromoterSteps(actions[1..])
  }

  /** The request in the slot, if any, will be taken before the thread ends. */
  predicate InTime(s: State) { s.mail.pending == 0 || s.promoter.Swap? }

  lemma ShutdownStep(s: State, a: Action)
    requires Inv(s) && s.shutdown && Step(s, a).Some?
    ensures var t := Step(s, a).value;
            && t.shutdown && (InTime(t) <==> InTime(s))
            && StepsLeft(t.promoter) + (if IsPromoterStep(a) then 1 else 0) <= StepsLeft(s.promoter)
  {
  }

  /** Once dropped, the thread makes at most four more accesses, so `drop` can join it; and a request
      still in the slot is taken in every such run, or in none. */
  lemma {:induction false} ShutdownRun(s: State, actions: seq<Action>)
    requires Inv(s) && s.shutdown && After(Step, s, actions).Some?
    ensures PromoterSteps(actions) <= StepsLeft(s.promoter) <= 4
    ensures InTime(After(Step, s, actions).value) <==> InTime(s)
    decreases |actions|
  {
    if actions != [] {
      ShutdownStep(s, actions[0]);
      StepKeepsInv(s, actions[0]);
      ShutdownRun(Step(s, actions[0]).value, actions[1..]);
    }
  }

  /** The last request is taken before the thread ends exactly if, when the promoter is dropped, the slot
      is empty or the thread has passed its check and is about to look into the slot. */
  lemma LastRequestTakenIff(s: State, actions: seq<Action>)
    requires Reachable(s) && s.shutdown && After(Step, s, actions).Some?
    requires After(Step, s, actions).value.promoter.Exited?
    ensures After(Step, s, actions).value.mail.pending == 0 <==> s.mail.pending == 0 || s.promoter.Swap?
  {
    ReachableInv(s);
    ShutdownRun(s, actions);
  }

  /** A request followed by a drop before the thread runs is never taken. */
  lemma RequestThenDropIsLost(frames: nat)
    requires frames != 0
    ensures var actions := [Request(frames), Proceed, Drop, Proceed, Run, Proceed];
            var end := After(Step, Init, actions);
            end.Some? && end.value.requester.Gone? && end.value.mail == Mail(frames, [frames], [])
  {
    var s1 := Step(Init, Request(frames)).value;
    var s2 := Step(s1, Proceed).value;
    var s3 := Step(s2, Drop).value;
    var s4 := Step(s3, Proceed).value;
    var s5 := Step(s4, Run).value;
    var s6 := Step(s5, Proceed).value;
    assert After(Step, s6, []) == Some(s6);
    assert After(Step, s5, [Proceed]) == Some(s6);
    assert After(Step, s4, [Run, Proceed]) == After(Step, s5, [Run, Proceed][1..]);
    assert After(Step, s3, [Proceed, Run, Proceed]) == After(Step, s4, [Proceed, Run, Proceed][1..]);
    assert After(Step, s2, [Drop, Proceed, Run, Proceed]) == After(Step, s3, [Drop, Proceed, Run, Proceed][1..]);
    assert After(Step, s1, [Proceed, Drop, Proceed, Run, Proceed]) ==
           After(Step, s2, [Proceed, Drop, Proceed, Run, Proceed][1..]);
  }
}
