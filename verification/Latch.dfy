/** The readiness latch: worker threads park until the stream handle has been given to the caller.
 *
 *  The flag lives behind one strong reference held by the latch; a waiter holds a strong reference for
 *  the moment between upgrading its weak one and parking. Every thread has one park token: `unpark` sets
 *  it, `park` consumes it or blocks, and may also return for no reason.
 */
module Latch {
  import opened Runs
  import opened Wrappers

  /** Where a waiter is in `wait`; the name says which access comes next. In `Load` and `DropRef` it holds
      a strong reference. */
  datatype Waiter = Upgrade | Load | DropRef | Park | Returned(ready: bool)

  /** Where the owner of the latch is; the number is the next thread to unpark. */
  datatype Owner = Ready | Releasing(next: nat) | Dropping(next: nat) | Gone

  datatype Thread = Thread(at: Waiter, token: bool)

  datatype State = State(owner: Owner, flag: bool, held: bool, threads: seq<Thread>)

  datatype Action = WaiterStep(k: nat) | Spurious(k: nat) | Release | Drop | Unpark

  predicate Holds(t: Thread) { t.at.Load? || t.at.DropRef? }

  /** Some strong reference is left, so upgrading succeeds. */
  predicate Alive(s: State) { s.held || exists k :: 0 <= k < |s.threads| && Holds(s.threads[k]) }

  function WaiterNext(s: State, t: Thread): Option<Thread> {
    match t.at
    case Upgrade => Some(t.(at := if Alive(s) then Load else Returned(false)))
    case Load => Some(t.(at := if s.flag then Returned(true) else DropRef))
    case DropRef => Some(t.(at := Park))
    case Park => if t.token then Some(Thread(Upgrade, false)) else None
    case Returned(_) => None
  }

  function UnparkNext(s: State): Option<State> {
    match s.owner
    case Releasing(k) =>
      if k < |s.threads| then
        Some(s.(owner := Releasing(k + 1), threads := s.threads[k := s.threads[k].(token := true)]))
      else
        Some(s.(owner := Ready))
    case Dropping(k) =>
      if k < |s.threads| then
        Some(s.(owner := Dropping(k + 1), threads := s.threads[k := s.threads[k].(token := true)]))
      else
        Some(s.(owner := Gone))
    case _ => None
  }

  function Step(s: State, a: Action): Option<State> {
    match a
    case WaiterStep(k) =>
      if k >= |s.threads| then None
      else
        var t := WaiterNext(s, s.threads[k]);
        if t.None? then None else Some(s.(threads := s.threads[k := t.value]))
    case Spurious(k) =>
      if k < |s.threads| && s.threads[k].at.Park? then
        Some(s.(threads := s.threads[k := s.threads[k].(at := Upgrade)]))
      else None
    case Release => if s.owner.Ready? then Some(s.(owner := Releasing(0), flag := true)) else None
    case Drop => if s.owner.Ready? then Some(s.(owner := Dropping(0), held := false)) else None
    case Unpark => UnparkNext(s)
  }

  /** `n` registered threads, none of which has looked at the latch yet. */
  function Init(n: nat): (s: State)
    ensures |s.threads| == n
  {
    State(Ready, false, true, seq(n, _ => Thread(Upgrade, false)))
  }

  ghost predicate Reachable(n: nat, s: State) { exists actions :: After(Step, Init(n), actions) == Some(s) }

  // ---------------------------------------------------------------------------------------------
  // Released: any number of waiters
  // ---------------------------------------------------------------------------------------------

  /** The owner will still unpark thread `k`. */
  predicate Owed(owner: Owner, k: nat) {
    (owner.Releasing? && owner.next <= k) || (owner.Dropping? && owner.next <= k)
  }

  predicate ReleasedThread(s: State, k: nat)
    requires k < |s.threads|
  {
    var t := s.threads[k];
    && (s.flag && (t.at.DropRef? || t.at.Park?) ==> t.token || Owed(s.owner, k))
    && (t.at == Returned(true) ==> s.flag)
    && (t.at == Returned(false) ==> !s.held)
  }

  predicate Inv(s: State) {
    && (s.held <==> s.owner.Ready? || s.owner.Releasing?)
    && (s.owner.Releasing? ==> s.flag)
    && forall k :: 0 <= k < |s.threads| ==> ReleasedThread(s, k)
  }

  lemma StepKeepsInv(s: State, a: Action)
    requires Inv(s) && Step(s, a).Some?
    ensures Inv(Step(s, a).value) && |Step(s, a).value.threads| == |s.threads|
  {
    var t := Step(s, a).value;
    forall k | 0 <= k < |t.threads|
      ensures ReleasedThread(t, k)
    {
      assert ReleasedThread(s, k);
    }
  }

  lemma ReachableInv(n: nat, s: State)
    requires Reachable(n, s)
    ensures Inv(s) && |s.threads| == n
  {
    var actions :| After(Step, Init(n), actions) == Some(s);
    var inv := (t: State) => Inv(t) && |t.threads| == n;
    forall t, a | inv(t) && Step(t, a).Some?
      ensures inv(Step(t, a).value)
    {
      StepKeepsInv(t, a);
    }
    RunKeeps(Step, inv, Init(n), actions);
  }

  /** Thread `k` is parked and nobody is going to wake it. */
  predicate Lost(s: State, k: nat) {
    k < |s.threads| && s.threads[k] == Thread(Park, false) && !Owed(s.owner, k)
  }

  /** However many threads wait, none of them sleeps through a release. */
  lemma ReleaseLosesNobody(n: nat, s: State, k: nat)
    requires Reachable(n, s) && s.flag
    ensures !Lost(s, k)
  {
    ReachableInv(n, s);
    if k < n {
      assert ReleasedThread(s, k);
    }
  }

  /** What `wait` returns can be trusted. */
  lemma AnswersAreTrue(n: nat, s: State, k: nat)
    requires Reachable(n, s) && k < n
    ensures |s.threads| == n
    ensures s.threads[k].at == Returned(true) ==> s.flag
    ensures s.threads[k].at == Returned(false) ==> !s.held
  {
    ReachableInv(n, s);
    assert ReleasedThread(s, k);
  }

  // ---------------------------------------------------------------------------------------------
  // Dropped without release: one waiter
  // ---------------------------------------------------------------------------------------------

  predicate SoleInv(s: State) {
    && |s.threads| == 1
    && (s.held <==> s.owner.Ready? || s.owner.Releasing?)
    && (!s.held && (Holds(s.threads[0]) || s.threads[0].at.Park?) ==> s.threads[0].token || Owed(s.owner, 0))
  }

  lemma StepKeepsSoleInv(s: State, a: Action)
    requires SoleInv(s) && Step(s, a).Some?
    ensures SoleInv(Step(s, a).value)
  {
    match a
    case WaiterStep(k) =>
      assert k == 0;
      assert Alive(s) <==> s.held || Holds(s.threads[0]);
    case _ =>
  }

  /** A single waiter does not sleep through the drop of an unreleased latch either. */
  lemma DropLosesNoSoleWaiter(s: State, k: nat)
    requires Reachable(1, s) && !s.held
    ensures !Lost(s, k)
  {
    var actions :| After(Step, Init(1), actions) == Some(s);
    forall t, a | SoleInv(t) && Step(t, a).Some?
      ensures SoleInv(Step(t, a).value)
    {
      StepKeepsSoleInv(t, a);
    }
    RunKeeps(Step, SoleInv, Init(1), actions);
  }

  // ---------------------------------------------------------------------------------------------
  // Dropped without release: two or more waiters
  // ---------------------------------------------------------------------------------------------

  lemma ReachStep(n: nat, s: State, a: Action) returns (t: State)
    requires Reachable(n, s) && Step(s, a).Some?
    ensures Step(s, a) == Some(t) && Reachable(n, t)
  {
    t := Step(s, a).value;
    var actions :| After(Step, Init(n), actions) == Some(s);
    AfterOneMore(Step, Init(n), actions, a);
    assert After(Step, Init(n), actions + [a]) == Some(t);
  }

  lemma {:induction false} UnparkAll(n: nat, s: State) returns (t: State)
    requires Reachable(n, s) && s.owner.Dropping? && s.owner.next <= |s.threads|
    ensures Reachable(n, t) && t.owner.Gone? && t.flag == s.flag && t.held == s.held && |t.threads| == |s.threads|
    ensures forall k :: 0 <= k < |t.threads| ==> t.threads[k].at == s.threads[k].at
    decreases |s.threads| - s.owner.next
  {
    t := ReachStep(n, s, Unpark);
    if t.owner.Dropping? {
      t := UnparkAll(n, t);
    }
  }

  /** Two or more waiters: one of them keeps the flag alive past the drop, and another, woken by its one
      token, finds the flag alive and parks again for good. */
  lemma DropLosesAWaiter(n: nat) returns (s: State)
    requires n >= 2
    ensures Reachable(n, s) && s.owner.Gone? && Lost(s, 1)
  {
    assert After(Step, Init(n), []) == Some(Init(n));
    s := ReachStep(n, Init(n), WaiterStep(0));
    s := ReachStep(n, s, Drop);
    s := UnparkAll(n, s);
    if !s.threads[1].token {
      s := Spin(n, s);
    } else {
      s := Spin(n, s);
      s := ReachStep(n, s, WaiterStep(1));
      s := Spin(n, s);
    }
  }

  /** While thread 0 holds on, thread 1 finds the flag alive and unset, and parks. */
  lemma Spin(n: nat, s: State) returns (t: State)
    requires Reachable(n, s) && |s.threads| >= 2 && !s.flag && s.owner.Gone?
    requires s.threads[0].at.Load? && s.threads[1].at.Upgrade?
    ensures Reachable(n, t) && |t.threads| == |s.threads| && !t.flag && t.owner.Gone?
    ensures t.threads[0] == s.threads[0] && t.threads[1] == s.threads[1].(at := Park)
  {
    assert Holds(s.threads[0]);
    t := ReachStep(n, s, WaiterStep(1));
    t := ReachStep(n, t, WaiterStep(1));
    t := ReachStep(n, t, WaiterStep(1));
  }

  /** Nothing but a wakeup for no reason ends that. */
  lemma {:induction false} LostForever(s: State, k: nat, actions: seq<Action>)
    requires Lost(s, k) && s.owner.Gone? && After(Step, s, actions).Some? && Spurious(k) !in actions
    ensures Lost(After(Step, s, actions).value, k)
    decreases |actions|
  {
    if actions != [] {
      LostForever(Step(s, actions[0]).value, k, actions[1..]);
    }
  }

  /** Dropping an unreleased latch wakes every registered waiter, whatever the interleaving, exactly if
      there is at most one. */
  lemma DropIsSafeIff(n: nat)
    ensures (forall s, k: nat :: Reachable(n, s) && !s.held ==> !Lost(s, k)) <==> n <= 1
  {
    if n >= 2 {
      var s := DropLosesAWaiter(n);
      ReachableInv(n, s);
      assert Reachable(n, s) && !s.held && Lost(s, 1);
    } else {
      forall s, k: nat | Reachable(n, s) && !s.held
        ensures !Lost(s, k)
      {
        if n == 1 {
          DropLosesNoSoleWaiter(s, k);
        } else {
          ReachableInv(n, s);
        }
      }
    }
  }

  // ---------------------------------------------------------------------------------------------
  // Waking up takes a bounded number of steps
  // ---------------------------------------------------------------------------------------------

  /** Steps thread `k` still takes before `wait` returns. */
  function StepsLeft(s: State, k: nat): nat
    requires k < |s.threads|
  {
    match s.threads[k].at
    case Upgrade => if s.flag then 2 else 1
    case Load => if s.flag then 1 else 4
    case DropRef => if s.flag then 4 else 3
    case Park => if s.flag then 3 else 2
    case Returned(_) => 0
  }

  function StepsOf(k: nat, actions: seq<Action>): nat {
    if actions == [] then 0 else (if actions[0] == WaiterStep(k) then 1 else 0) + StepsOf(k, actions[1..])
  }

  /** The latch has been released, or dropped under a single waiter. */
  predicate Over(s: State) { s.flag || (!s.held && |s.threads| == 1) }

  lemma OverStep(s: State, k: nat, a: Action)
    requires Inv(s) && Over(s) && k < |s.threads| && Step(s, a).Some?
    ensures var t := Step(s, a).value; |t.threads| == |s.threads| && Over(t) &&
                                       StepsLeft(t, k) + (if a == WaiterStep(k) then 1 else 0) <= StepsLeft(s, k)
  {
    match a
    case WaiterStep(j) =>
      if j == k && |s.threads| == 1 {
        assert Alive(s) <==> s.held || Holds(s.threads[0]);
      }
    case _ =>
  }

  /** Once the latch is over, no waiter takes more than four further steps, */
  lemma {:induction false} WaitIsBounded(s: State, k: nat, actions: seq<Action>)
    requires Inv(s) && Over(s) && k < |s.threads| && After(Step, s, actions).Some?
    ensures StepsOf(k, actions) <= StepsLeft(s, k) <= 4
    decreases |actions|
  {
    if actions != [] {
      OverStep(s, k, actions[0]);
      StepKeepsInv(s, actions[0]);
      WaitIsBounded(Step(s, actions[0]).value, k, actions[1..]);
    }
  }

  /** and each of them is possible as soon as the owner has been past it, until `wait` has returned. */
  lemma WaiterCanMove(n: nat, s: State, k: nat)
    requires Reachable(n, s) && Over(s) && k < |s.threads| && !Owed(s.owner, k)
    ensures Step(s, WaiterStep(k)).Some? || s.threads[k].at.Returned?
  {
    ReachableInv(n, s);
    if s.flag {
      ReleaseLosesNobody(n, s, k);
    } else {
      DropLosesNoSoleWaiter(s, k);
    }
  }
}
