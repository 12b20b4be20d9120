/** Device enumeration over PipeWire: bind everything that is announced, and quit once every sync sent so
 *  far has been answered.
 *
 *  The two wires are FIFO and the server answers requests in order. Everything else the server does is
 *  arbitrary: when it answers, which objects come and go, and what else it sends in between.
 */
module PipewireSync {
  const CORE: nat := 0

  datatype Request = GetRegistry | Bind(node: nat) | Sync(number: int)

  /** `Done` carries the object it is about; only those about the core answer a sync. `Other` is anything
      the listeners ignore. */
  datatype Event = Global(node: nat) | Info(node: nat) | Done(about: nat, number: int) | Other

  /** Why the main loop quit. The code does not keep the reason. */
  datatype Quit = Running | Answered | TimedOut

  /** What became of an announced object: not an audio node or not bound; bound but without a sync, so the
      listener is dropped again; or bound and followed by a sync. */
  datatype Outcome = Skipped | Dropped | Kept

  predicate IsAnswer(e: Event) { e.Done? && e.about == CORE }

  /** The answer a request is sure to get. The announcements that follow `GetRegistry` are not known until
      the server gets there. */
  function Answer(r: Request): seq<Event> {
    match r
    case GetRegistry => []
    case Bind(node) => [Info(node)]
    case Sync(number) => [Done(CORE, number)]
  }

  function Answers(requests: seq<Request>): seq<Event> {
    if requests == [] then [] else Answer(requests[0]) + Answers(requests[1..])
  }

  /** The syncs answered by these events, in order. */
  function Dones(events: seq<Event>): seq<int> {
    if events == [] then []
    else if IsAnswer(events[0]) then [events[0].number] + Dones(events[1..])
    else Dones(events[1..])
  }

  /** `e` is still to come, and some sync is answered after it. */
  ghost predicate Covered(events: seq<Event>, e: Event) {
    exists i, j :: 0 <= i < j < |events| && events[i] == e && IsAnswer(events[j])
  }

  lemma Associative(a: seq<Event>, b: seq<Event>, c: seq<Event>)
    ensures a + b + c == a + (b + c)
  {
  }

  lemma {:induction false} AnswersConcat(a: seq<Request>, b: seq<Request>)
    ensures Answers(a + b) == Answers(a) + Answers(b)
  {
    if a == [] {
      assert a + b == b;
    } else {
      AnswersConcat(a[1..], b);
      assert (a + b)[1..] == a[1..] + b;
      Associative(Answer(a[0]), Answers(a[1..]), Answers(b));
    }
  }

  lemma OneAnswer(r: Request)
    ensures Answers([r]) == Answer(r)
  {
    assert Answers([r]) == Answer(r) + Answers([r][1..]);
  }

  lemma TwoAnswers(q: Request, r: Request)
    ensures Answers([q, r]) == Answer(q) + Answer(r)
  {
    assert [q, r][1..] == [r];
    OneAnswer(r);
  }

  lemma OneDone(node: nat, number: int)
    ensures Dones([Info(node), Done(CORE, number)]) == [number]
  {
    assert [Info(node), Done(CORE, number)][1..] == [Done(CORE, number)];
    assert Dones([Done(CORE, number)]) == [number] + Dones([Done(CORE, number)][1..]);
  }

  lemma {:induction false} DonesConcat(a: seq<Event>, b: seq<Event>)
    ensures Dones(a + b) == Dones(a) + Dones(b)
  {
    if a == [] {
      assert a + b == b;
    } else {
      DonesConcat(a[1..], b);
      assert (a + b)[1..] == a[1..] + b;
    }
  }

  lemma {:induction false} DonesSeeEveryAnswer(events: seq<Event>, j: nat)
    requires j < |events| && IsAnswer(events[j])
    ensures events[j].number in Dones(events)
  {
    if j > 0 {
      DonesSeeEveryAnswer(events[1..], j - 1);
    }
  }

  /** With no answer outstanding, nothing is covered. */
  lemma NothingCovered(events: seq<Event>, e: Event)
    requires Dones(events) == []
    ensures !Covered(events, e)
  {
    if i, j :| 0 <= i < j < |events| && events[i] == e && IsAnswer(events[j]) {
      DonesSeeEveryAnswer(events, j);
    }
  }

  lemma CoveredAfterInsert(a: seq<Event>, extra: seq<Event>, b: seq<Event>, e: Event)
    requires Covered(a + b, e)
    ensures Covered(a + extra + b, e)
  {
    var i, j :| 0 <= i < j < |a + b| && (a + b)[i] == e && IsAnswer((a + b)[j]);
    var n := |extra|;
    var i', j' := if i < |a| then i else i + n, if j < |a| then j else j + n;
    assert (a + extra + b)[i'] == e && IsAnswer((a + extra + b)[j']);
  }

  lemma CoveredAfterHead(events: seq<Event>, e: Event)
    requires Covered(events, e) && events[0] != e
    ensures Covered(events[1..], e)
  {
    var i, j :| 0 <= i < j < |events| && events[i] == e && IsAnswer(events[j]);
    assert events[1..][i - 1] == e && IsAnswer(events[1..][j - 1]);
  }

  /** Work left per message: a request is served and its answer read; an announcement may cause two
      further requests. */
  function EventCost(e: Event): nat { if e.Global? then 5 else 1 }

  function RequestCost(r: Request, existing: nat): nat { if r.GetRegistry? then 1 + 5 * existing else 2 }

  function EventsCost(events: seq<Event>): nat {
    if events == [] then 0 else EventCost(events[0]) + EventsCost(events[1..])
  }

  function RequestsCost(requests: seq<Request>, existing: nat): nat {
    if requests == [] then 0 else RequestCost(requests[0], existing) + RequestsCost(requests[1..], existing)
  }

  lemma {:induction false} EventsCostConcat(a: seq<Event>, b: seq<Event>)
    ensures EventsCost(a + b) == EventsCost(a) + EventsCost(b)
  {
    if a == [] {
      assert a + b == b;
    } else {
      EventsCostConcat(a[1..], b);
      assert (a + b)[1..] == a[1..] + b;
    }
  }

  lemma {:induction false} RequestsCostConcat(a: seq<Request>, b: seq<Request>, existing: nat)
    ensures RequestsCost(a + b, existing) == RequestsCost(a, existing) + RequestsCost(b, existing)
  {
    if a == [] {
      assert a + b == b;
    } else {
      RequestsCostConcat(a[1..], b, existing);
      assert (a + b)[1..] == a[1..] + b;
    }
  }

  function Announcements(nodes: seq<nat>): (events: seq<Event>)
    ensures |events| == |nodes|
    ensures forall k :: 0 <= k < |nodes| ==> events[k] == Global(nodes[k])
  {
    seq(|nodes|, k requires 0 <= k < |nodes| => Global(nodes[k]))
  }

  lemma {:induction false} AnnouncementsCost(nodes: seq<nat>)
    ensures EventsCost(Announcements(nodes)) == 5 * |nodes| && Dones(Announcements(nodes)) == []
  {
    if nodes != [] {
      AnnouncementsCost(nodes[1..]);
      assert Announcements(nodes)[1..] == Announcements(nodes[1..]);
    }
  }

  /** What the client has learnt: nodes it listens to and those of them it has discovered; nodes that were
      there when the registry was asked, and nodes whose announcement has been handled. */
  datatype Knowledge = Knowledge(bound: set<nat>, discovered: set<nat>, initial: set<nat>, handled: set<nat>)

  /** The pending list is exactly the unanswered syncs, in the order they were sent, and whatever is not
      yet known about a node comes before the answer to some sync. */
  ghost predicate Consistent(pending: seq<int>, future: seq<Event>, k: Knowledge) {
    && pending == Dones(future)
    && (forall id :: id in k.bound && id !in k.discovered ==> Covered(future, Info(id)))
    && (forall id :: id in k.initial && id !in k.handled ==> Covered(future, Global(id)))
  }

  /** `k'` is `k` with what the event `e` tells. */
  ghost predicate Learns(k: Knowledge, e: Event, k': Knowledge) {
    && k'.bound == k.bound && k'.initial == k.initial && k.discovered <= k'.discovered && k.handled <= k'.handled
    && (e.Info? && e.node in k.bound ==> e.node in k'.discovered)
    && (e.Global? ==> e.node in k'.handled)
  }

  lemma ReadHead(pending: seq<int>, future: seq<Event>, k: Knowledge, k': Knowledge)
    requires Consistent(pending, future, k) && future != [] && Learns(k, future[0], k')
    ensures IsAnswer(future[0]) ==>
              pending != [] && pending[0] == future[0].number && Consistent(pending[1..], future[1..], k')
    ensures !IsAnswer(future[0]) ==> Consistent(pending, future[1..], k')
  {
    forall id | id in k'.bound && id !in k'.discovered
      ensures Covered(future[1..], Info(id))
    {
      CoveredAfterHead(future, Info(id));
    }
    forall id | id in k'.initial && id !in k'.handled
      ensures Covered(future[1..], Global(id))
    {
      CoveredAfterHead(future, Global(id));
    }
  }

  /** Messages that answer no sync may arrive anywhere. */
  lemma Insert(pending: seq<int>, a: seq<Event>, extra: seq<Event>, b: seq<Event>, k: Knowledge)
    requires Consistent(pending, a + b, k) && Dones(extra) == []
    ensures Consistent(pending, a + extra + b, k)
  {
    DonesConcat(a, b);
    DonesConcat(a, extra);
    DonesConcat(a + extra, b);
    forall id | id in k.bound && id !in k.discovered
      ensures Covered(a + extra + b, Info(id))
    {
      CoveredAfterInsert(a, extra, b, Info(id));
    }
    forall id | id in k.initial && id !in k.handled
      ensures Covered(a + extra + b, Global(id))
    {
      CoveredAfterInsert(a, extra, b, Global(id));
    }
  }

  /** Binding a node and then sending a sync keeps the bargain for the new node. */
  lemma Listen(pending: seq<int>, future: seq<Event>, k: Knowledge, node: nat, number: int)
    requires Consistent(pending, future, k)
    ensures Consistent(pending + [number], future + [Info(node), Done(CORE, number)], k.(bound := k.bound + {node}))
  {
    var extra := [Info(node), Done(CORE, number)];
    DonesConcat(future, extra);
    OneDone(node, number);
    forall id | id in k.bound + {node} && id !in k.discovered
      ensures Covered(future + extra, Info(id))
    {
      if id in k.bound {
        assert future + [] == future;
        CoveredAfterInsert(future, extra, [], Info(id));
        assert future + extra + [] == future + extra;
      } else {
        assert (future + extra)[|future|] == Info(id) && IsAnswer((future + extra)[|future| + 1]);
      }
    }
    forall id | id in k.initial && id !in k.handled
      ensures Covered(future + extra, Global(id))
    {
      assert future + [] == future;
      CoveredAfterInsert(future, extra, [], Global(id));
      assert future + extra + [] == future + extra;
    }
  }

  /** The nodes of the registry are announced before the answer to a sync that was sent after it. */
  lemma Announce(pending: seq<int>, a: seq<Event>, nodes: seq<nat>, number: int, k: Knowledge)
    requires Consistent(pending, a + [Done(CORE, number)], k) && k.initial == {}
    ensures Consistent(pending, a + Announcements(nodes) + [Done(CORE, number)], k.(initial := set id | id in nodes))
  {
    AnnouncementsCost(nodes);
    Insert(pending, a, Announcements(nodes), [Done(CORE, number)], k);
    var future := a + Announcements(nodes) + [Done(CORE, number)];
    forall id | id in nodes
      ensures Covered(future, Global(id))
    {
      var n :| 0 <= n < |nodes| && nodes[n] == id;
      assert future[|a| + n] == Global(id) && IsAnswer(future[|future| - 1]);
    }
  }

  /** The requests that follow an announcement. */
  function Reaction(node: nat, outcome: Outcome, number: int): seq<Request> {
    match outcome
    case Skipped => []
    case Dropped => [Bind(node)]
    case Kept => [Bind(node), Sync(number)]
  }

  lemma GlobalKeepsTheBargain(pending: seq<int>, future: seq<Event>, k: Knowledge, node: nat, outcome: Outcome,
                              number: int)
    requires Consistent(pending, future, k) && future != [] && future[0] == Global(node)
    ensures Consistent(if outcome.Kept? then pending + [number] else pending,
                       future[1..] + Answers(Reaction(node, outcome, number)),
                       Knowledge(if outcome.Kept? then k.bound + {node} else k.bound, k.discovered, k.initial,
                                 k.handled + {node}))
  {
    var known := k.(handled := k.handled + {node});
    ReadHead(pending, future, k, known);
    var rest := future[1..];
    match outcome
    case Skipped =>
      assert rest + [] == rest;
    case Dropped =>
      assert rest + [] == rest && rest + [Info(node)] + [] == rest + [Info(node)];
      assert Answers(Reaction(node, outcome, number)) == [Info(node)];
      Insert(pending, rest, [Info(node)], [], known);
    case Kept =>
      TwoAnswers(Bind(node), Sync(number));
      assert Answers(Reaction(node, outcome, number)) == [Info(node), Done(CORE, number)];
      Listen(pending, rest, known, node, number);
  }

  lemma AnswerCost(r: Request)
    requires !r.GetRegistry?
    ensures EventsCost(Answer(r)) == 1
  {
    assert Answer(r)[1..] == [];
  }

  lemma Chatter(pending: seq<int>, events: seq<Event>, e: Event, rest: seq<Event>, k: Knowledge)
    requires Consistent(pending, events + rest, k) && !IsAnswer(e)
    ensures Consistent(pending, events + [e] + rest, k)
  {
    assert Dones([e]) == Dones([e][1..]);
    Insert(pending, events, [e], rest, k);
  }

  lemma InsertAnnouncements(pending: seq<int>, events: seq<Event>, requests: seq<Request>, nodes: seq<nat>,
                            k: Knowledge)
    requires requests != [] && requests[0].GetRegistry? && Consistent(pending, events + Answers(requests), k)
    ensures Consistent(pending, events + Announcements(nodes) + Answers(requests[1..]), k)
  {
    assert Answers(requests) == Answers(requests[1..]);
    AnnouncementsCost(nodes);
    Insert(pending, events, Announcements(nodes), Answers(requests[1..]), k);
  }

  lemma FirstAnnouncements(pending: seq<int>, events: seq<Event>, number: int, nodes: seq<nat>, k: Knowledge)
    requires Consistent(pending, events + Answers([GetRegistry, Sync(number)]), k) && k.initial == {}
    ensures Consistent(pending, events + Announcements(nodes) + Answers([GetRegistry, Sync(number)][1..]),
                       k.(initial := set id | id in nodes))
  {
    TwoAnswers(GetRegistry, Sync(number));
    assert Answers([GetRegistry, Sync(number)]) == [Done(CORE, number)];
    assert [GetRegistry, Sync(number)][1..] == [Sync(number)];
    OneAnswer(Sync(number));
    Announce(pending, events, nodes, number, k);
  }

  lemma FutureGrows(events: seq<Event>, requests: seq<Request>, extra: seq<Request>)
    requires events != []
    ensures (events + Answers(requests))[1..] + Answers(extra) == events[1..] + Answers(requests + extra)
  {
    AnswersConcat(requests, extra);
  }

  lemma ReactionCost(requests: seq<Request>, node: nat, outcome: Outcome, number: int, existing: nat)
    ensures RequestsCost(requests + Reaction(node, outcome, number), existing) <= RequestsCost(requests, existing) + 4
  {
    var extra := Reaction(node, outcome, number);
    RequestsCostConcat(requests, extra, existing);
    assert extra != [] ==> extra[1..] == [] || extra[1..] == [Sync(number)];
    assert RequestsCost([Sync(number)], existing) == 2 + RequestsCost([Sync(number)][1..], existing);
  }

  class Session {
    // The client.
    var pending: seq<int>
    var nextNumber: int
    var quit: Quit
    /** Nodes that were bound and are listened to. */
    var bound: set<nat>
    /** Nodes whose info has been processed. */
    var discovered: set<nat>
    /** Announced nodes whose event has been handled, whatever came of it. */
    ghost var handled: set<nat>

    // The wires.
    var requests: seq<Request>
    var events: seq<Event>

    // The server.
    var existing: seq<nat>
    var served: bool
    /** The nodes that existed when the server answered `GetRegistry`. */
    ghost var initial: set<nat>

    /** The registry is requested and the first sync is sent before the main loop runs. */
    constructor (first: int, existing: seq<nat>)
      ensures Valid() && quit.Running? && pending == [first] && this.existing == existing && !served
    {
      pending, nextNumber, quit := [first], first + 1, Running;
      bound, discovered, handled := {}, {}, {};
      requests, events := [GetRegistry, Sync(first)], [];
      this.existing, initial, served := existing, {}, false;
      new;
      TwoAnswers(GetRegistry, Sync(first));
      assert Future() == [Done(CORE, first)];
    }

    /** Everything that is sure to be read, in order. */
    ghost function Future(): seq<Event>
      reads this
    {
      events + Answers(requests)
    }

    ghost function Known(): Knowledge
      reads this
    {
      Knowledge(bound, discovered, initial, handled)
    }

    ghost predicate Valid()
      reads this
    {
      && Consistent(pending, Future(), Known())
      && (quit.Answered? <==> pending == [])
      && (!served ==> Unserved())
    }

    /** Nothing is announced before the server has seen `GetRegistry`. */
    ghost predicate Unserved()
      reads this
    {
      && requests == [GetRegistry, Sync(nextNumber - 1)] && Dones(events) == []
      && (forall k :: 0 <= k < |events| ==> !events[k].Global?)
      && initial == {} && bound == {}
    }

    /** The listener for `done`: strikes the sync off the list and quits if that was the last. */
    method OnDone(about: nat, number: int)
      modifies this`pending, this`quit
      ensures about == CORE && number in old(pending) ==>
                exists k :: 0 <= k < |old(pending)| && old(pending)[k] == number && number !in old(pending)[..k]
                  && pending == old(pending)[..k] + old(pending)[k + 1..]
      ensures about == CORE && old(pending) != [] && old(pending)[0] == number ==> pending == old(pending)[1..]
      ensures !(about == CORE && number in old(pending)) ==> pending == old(pending)
      ensures quit == if pending == [] && old(pending) != [] then Answered else old(quit)
    {
      if about != CORE {
        return;
      }
      var index := 0;
      while index < |pending| && pending[index] != number
        invariant 0 <= index <= |pending| && number !in pending[..index]
      {
        index := index + 1;
      }
      if index == |pending| {
        return;
      }
      pending := pending[..index] + pending[index + 1..];
      if pending != [] {
        return;
      }
      quit := Answered;
    }

    /** The registry listener. What becomes of the object depends on its properties and on whether the
        two requests could be sent. */
    method OnGlobal(node: nat, outcome: Outcome)
      modifies this`handled, this`bound, this`pending, this`nextNumber, this`requests
      ensures handled == old(handled) + {node}
      ensures requests == old(requests) + Reaction(node, outcome, old(nextNumber))
      ensures outcome.Kept? ==>
                && bound == old(bound) + {node} && pending == old(pending) + [old(nextNumber)]
                && nextNumber == old(nextNumber) + 1
      ensures !outcome.Kept? ==> bound == old(bound) && pending == old(pending)
    {
      handled := handled + {node};
      if outcome.Skipped? {
        return;
      }
      requests := requests + [Bind(node)];
      if outcome.Dropped? {
        return;
      }
      requests := requests + [Sync(nextNumber)];
      pending := pending + [nextNumber];
      nextNumber := nextNumber + 1;
      bound := bound + {node};
    }

    /** The info listener of a node that is listened to. */
    method OnInfo(node: nat)
      modifies this`discovered
      ensures discovered == if node in bound then old(discovered) + {node} else old(discovered)
    {
      if node in bound {
        discovered := discovered + {node};
      }
    }

    method ReadDone()
      requires Valid() && quit.Running? && events != [] && events[0].Done?
      modifies this`events, this`pending, this`quit
      ensures Valid() && events == old(events)[1..] && !quit.TimedOut?
      ensures IsAnswer(old(events[0])) ==>
                old(pending) != [] && old(pending)[0] == old(events[0]).number && pending == old(pending)[1..]
      ensures !IsAnswer(old(events[0])) ==> pending == old(pending) && quit.Running?
    {
      ghost var future := Future();
      var e := events[0];
      ReadHead(pending, future, Known(), Known());
      events := events[1..];
      OnDone(e.about, e.number);
      assert Future() == future[1..];
    }

    method ReadOther()
      requires Valid() && quit.Running? && events != [] && (events[0].Info? || events[0].Other?)
      modifies this`events, this`discovered
      ensures Valid() && events == old(events)[1..]
      ensures old(events[0]).Info? && old(events[0]).node in bound ==>
                discovered == old(discovered) + {old(events[0]).node}
    {
      ghost var future, known := Future(), Known();
      var e := events[0];
      events := events[1..];
      if e.Info? {
        OnInfo(e.node);
      }
      ReadHead(pending, future, known, Known());
      assert Future() == future[1..];
    }

    method ReadGlobal(outcome: Outcome)
      requires Valid() && quit.Running? && served && events != [] && events[0].Global?
      modifies this`events, this`handled, this`bound, this`pending, this`nextNumber, this`requests
      ensures Valid() && events == old(events)[1..]
      ensures requests == old(requests) + Reaction(old(events)[0].node, outcome, old(nextNumber))
      ensures handled == old(handled) + {old(events[0]).node}
      ensures bound == if outcome.Kept? then old(bound) + {old(events[0]).node} else old(bound)
      ensures pending == if outcome.Kept? then old(pending) + [old(nextNumber)] else old(pending)
    {
      var e := events[0];
      ghost var extra := Reaction(e.node, outcome, nextNumber);
      GlobalKeepsTheBargain(pending, Future(), Known(), e.node, outcome, nextNumber);
      FutureGrows(events, requests, extra);
      events := events[1..];
      OnGlobal(e.node, outcome);
    }

    /** Messages left, weighted by the messages each may still cause. */
    ghost function Work(): nat
      reads this
    {
      EventsCost(events) + RequestsCost(requests, |existing|)
    }

    /** The main loop delivers the next event; `outcome` matters for announcements only. */
    method Receive(outcome: Outcome)
      requires Valid() && quit.Running? && events != []
      modifies this
      ensures Valid() && !quit.TimedOut? && existing == old(existing) && events == old(events)[1..]
      ensures Work() < old(Work())
      // An announcement is reacted to, the info of a bound node is taken in, and an answer strikes its sync.
      ensures old(events[0]).Global? ==>
                var node := old(events[0]).node;
                && handled == old(handled) + {node}
                && requests == old(requests) + Reaction(node, outcome, old(nextNumber))
                && bound == (if outcome.Kept? then old(bound) + {node} else old(bound))
                && pending == (if outcome.Kept? then old(pending) + [old(nextNumber)] else old(pending))
      ensures old(events[0]).Info? && old(events[0]).node in old(bound) ==>
                discovered == old(discovered) + {old(events[0]).node}
      ensures IsAnswer(old(events[0])) ==>
                && old(pending) != [] && old(pending)[0] == old(events[0]).number
                && pending == old(pending)[1..] && (quit.Answered? <==> pending == [])
      ensures !old(events[0]).Global? ==> requests == old(requests) && bound == old(bound)
      ensures !old(events[0]).Global? && !IsAnswer(old(events[0])) ==> pending == old(pending) && quit.Running?
    {
      match events[0]
      case Done(_, _) =>
        ReadDone();
      case Global(node) =>
        ReactionCost(requests, node, outcome, nextNumber, |existing|);
        ReadGlobal(outcome);
      case _ =>
        ReadOther();
    }

    /** The server answers `GetRegistry` by announcing every node there is. */
    method ServeRegistry()
      requires Valid() && requests != [] && requests[0].GetRegistry?
      modifies this`requests, this`events, this`served, this`initial
      ensures Valid() && served && events == old(events) + Announcements(existing) && requests == old(requests)[1..]
      ensures !old(served) ==> initial == set id | id in existing
    {
      if served {
        InsertAnnouncements(pending, events, requests, existing, Known());
      } else {
        FirstAnnouncements(pending, events, nextNumber - 1, existing, Known());
        initial := set id | id in existing;
      }
      served := true;
      events := events + Announcements(existing);
      requests := requests[1..];
    }

    /** The server answers a bind or a sync. */
    method ServeOther()
      requires Valid() && requests != [] && !requests[0].GetRegistry?
      modifies this`requests, this`events
      ensures Valid() && events == old(events) + Answer(old(requests)[0]) && requests == old(requests)[1..]
    {
      ghost var future := Future();
      assert future == events + Answer(requests[0]) + Answers(requests[1..]);
      events := events + Answer(requests[0]);
      requests := requests[1..];
      assert Future() == future;
    }

    /** The server gets to the oldest request. */
    method Serve()
      requires Valid() && requests != []
      modifies this`requests, this`events, this`served, this`initial
      ensures Valid() && requests == old(requests)[1..] && Work() < old(Work())
    {
      if requests[0].GetRegistry? {
        AnnouncementsCost(existing);
        EventsCostConcat(events, Announcements(existing));
        ServeRegistry();
      } else {
        EventsCostConcat(events, Answer(requests[0]));
        AnswerCost(requests[0]);
        ServeOther();
      }
    }

    /** The server announces a new node, if it has been asked for any. */
    method Appear(node: nat)
      requires Valid()
      modifies this`existing, this`events
      ensures Valid() && existing == old(existing) + [node]
      ensures events == old(events) + if served then [Global(node)] else []
    {
      existing := existing + [node];
      if served {
        Chatter(pending, events, Global(node), Answers(requests), Known());
        events := events + [Global(node)];
      }
    }

    /** The server sends something nobody asked for. */
    method Send(e: Event)
      requires Valid() && !IsAnswer(e) && !e.Global?
      modifies this`events
      ensures Valid() && events == old(events) + [e]
    {
      Chatter(pending, events, e, Answers(requests), Known());
      DonesConcat(events, [e]);
      assert Dones([e]) == [];
      events := events + [e];
    }

    method TimeOut()
      requires Valid() && quit.Running?
      modifies this`quit
      ensures Valid() && quit.TimedOut?
    {
      quit := TimedOut;
    }

    /** With both wires empty the loop has quit already. */
    lemma NothingLeft()
      requires Valid() && requests == [] && events == []
      ensures quit.Answered?
    {
      assert Future() == [];
    }

    /** A server that keeps answering and announces nothing more ends the enumeration, whichever side
        moves when and whatever comes of each announcement: the timeout is only for a silent server. */
    method Settle() returns (steps: nat)
      requires Valid() && quit.Running?
      modifies this
      ensures Valid() && quit.Answered? && steps <= old(Work())
    {
      steps := 0;
      while quit.Running?
        invariant Valid() && !quit.TimedOut? && steps + Work() <= old(Work())
        decreases Work()
      {
        if requests == [] && events == [] {
          NothingLeft();
        }
        var server: bool := *;
        if requests != [] && (server || events == []) {
          Serve();
        } else {
          var outcome: Outcome := *;
          Receive(outcome);
        }
        steps := steps + 1;
      }
    }

    /** The main loop quits with an empty list only if everything that existed when the registry was
        asked has been looked at, and every node bound at any time has been discovered. */
    lemma QuitMeansComplete()
      requires Valid() && quit.Answered?
      ensures served && initial <= handled && bound <= discovered
    {
      if !served {
        TwoAnswers(GetRegistry, Sync(nextNumber - 1));
        DonesConcat(events, Answers(requests));
        assert false;
      }
      forall id | id in bound
        ensures id in discovered
      {
        NothingCovered(Future(), Info(id));
      }
      forall id | id in initial
        ensures id in handled
      {
        NothingCovered(Future(), Global(id));
      }
    }
  }

  /** Any schedule: the server answers when it likes, announces nodes and sends things of its own at any
      time, and the timeout may strike. Whenever the loop has quit because its list was empty, nothing that
      was there when the registry was asked has been missed, and no node that was bound. */
  method AnySchedule(first: int, existing: seq<nat>, steps: nat) returns (s: Session)
    ensures fresh(s) && s.Valid()
    ensures s.quit.Answered? ==> s.served && s.initial <= s.handled && s.bound <= s.discovered
  {
    s := new Session(first, existing);
    for k := 0 to steps
      invariant fresh(s) && s.Valid()
    {
      var choice: int, node: int, outcome: Outcome, e: Event := *, *, *, *;
      if choice == 0 && s.requests != [] {
        s.Serve();
      } else if choice == 1 && s.quit.Running? && s.events != [] {
        s.Receive(outcome);
      } else if choice == 2 {
        s.Appear(if node < 0 then 0 else node);
      } else if choice == 3 && !IsAnswer(e) && !e.Global? {
        s.Send(e);
      } else if choice == 4 && s.quit.Running? {
        s.TimeOut();
      }
    }
    if s.quit.Answered? {
      s.QuitMeansComplete();
    }
  }
}
