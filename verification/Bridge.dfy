/** The bridge to one iPhone: its owner, the touches that are played for the owner, and the queue that
    its device requests go through.

    An operation belongs to the epoch in which it was enqueued; every change of owner begins a new one. */
module Bridges {
  import opened Wrappers
  import opened TouchMonitor
  import opened BridgeTouches
  import TG = TouchGestures
  import TP = TouchProperties

  datatype Session = Session(email: string, reservation: string)

  /** What the device says of itself. */
  datatype DeviceState = DeviceState(udid: string, ready: bool, locked: bool, generation: nat, instance: string)

  /** `session` is who owned the device when the operation was enqueued; `origin` is the closure that
      enqueued it, if a touch did. */
  datatype Operation = Operation(id: nat, epoch: nat, controller: nat, allowLocked: bool, session: Option<Session>,
                                 command: Command, origin: Option<nat>)

  /** When a touch message was handed in, under which session, and which reservation it named. */
  datatype Pushed = Pushed(epoch: nat, session: Option<Session>, reservation: Option<string>)

  /** How far the first operation of the queue has come. */
  datatype Turn = Waiting | Looking | Running

  datatype Request = Started(op: Operation, epoch: nat, session: Session) | Settled(id: nat)

  // ---------------------------------------------------------------- one after the other

  /** What a log of requests says: none is out, and the next must not be older; one is out; or two were out at once. */
  datatype Work = Free(next: nat) | Busy(id: nat) | Wrong

  function WorkAfter(log: seq<Request>): Work {
    if log == [] then Free(0)
    else
      var before := WorkAfter(log[..|log| - 1]);
      match log[|log| - 1]
      case Started(op, _, _) => if before.Free? && before.next <= op.id then Busy(op.id) else Wrong
      case Settled(id) => if before == Busy(id) then Free(id + 1) else Wrong
  }

  lemma WorkNext(log: seq<Request>, e: Request)
    ensures WorkAfter(log + [e]) ==
      match e
      case Started(op, _, _) => if WorkAfter(log).Free? && WorkAfter(log).next <= op.id then Busy(op.id) else Wrong
      case Settled(id) => if WorkAfter(log) == Busy(id) then Free(id + 1) else Wrong
  {
    assert (log + [e])[..|log|] == log;
  }

  /** What is not wrong never was. */
  lemma {:induction false} NeverWrong(log: seq<Request>, k: nat)
    requires WorkAfter(log) != Wrong && k <= |log|
    ensures WorkAfter(log[..k]) != Wrong
  {
    if k < |log| {
      NeverWrong(log[..|log| - 1], k);
      assert log[..|log| - 1][..k] == log[..k];
    } else {
      assert log[..k] == log;
    }
  }

  function LowerBound(w: Work): nat
    requires w != Wrong
  {
    if w.Free? then w.next else w.id
  }

  lemma {:induction false} WorkGrows(log: seq<Request>, k: nat)
    requires WorkAfter(log) != Wrong && k <= |log|
    ensures WorkAfter(log[..k]) != Wrong && LowerBound(WorkAfter(log[..k])) <= LowerBound(WorkAfter(log))
  {
    NeverWrong(log, k);
    if k < |log| {
      NeverWrong(log, |log| - 1);
      WorkGrows(log[..|log| - 1], k);
      assert log[..|log| - 1][..k] == log[..k];
    } else {
      assert log[..k] == log;
    }
  }

  /** A request that starts is the only one out ... */
  lemma StartedIsOut(log: seq<Request>, i: nat)
    requires WorkAfter(log) != Wrong && i < |log| && log[i].Started?
    ensures WorkAfter(log[..i]).Free? && WorkAfter(log[..i]).next <= log[i].op.id
    ensures WorkAfter(log[..i + 1]) == Busy(log[i].op.id)
  {
    NeverWrong(log, i + 1);
    assert log[..i + 1][..i] == log[..i];
  }

  /** ... until it settles, and nothing else happens before. */
  lemma SettlesNext(log: seq<Request>, i: nat)
    requires WorkAfter(log) != Wrong && i + 1 < |log| && log[i].Started?
    ensures log[i + 1] == Settled(log[i].op.id) && WorkAfter(log[..i + 2]) == Free(log[i].op.id + 1)
  {
    StartedIsOut(log, i);
    NeverWrong(log, i + 2);
    assert log[..i + 2][..i + 1] == log[..i + 1];
  }

  /** Requests start in the order in which they were enqueued, and one only starts when the last has settled. */
  lemma StartsAreSerial(log: seq<Request>, i: nat, j: nat)
    requires WorkAfter(log) != Wrong && i < j < |log| && log[i].Started? && log[j].Started?
    ensures log[i].op.id < log[j].op.id
    ensures i + 1 < j && log[i + 1] == Settled(log[i].op.id)
  {
    hide WorkAfter;
    SettlesNext(log, i);
    StartedIsOut(log, j);
    WorkGrows(log[..j], i + 2);
    assert log[..j][..i + 2] == log[..i + 2];
  }

  // ---------------------------------------------------------------- what the bridge keeps

  ghost predicate InSequence(queue: seq<Operation>, nextId: nat) {
    && (forall i, j | 0 <= i < j < |queue| :: queue[i].id < queue[j].id)
    && (forall i | 0 <= i < |queue| :: queue[i].id < nextId)
  }

  /** Every operation remembers the epoch in which it was enqueued, and who owned the device then. */
  ghost predicate Dated(queue: seq<Operation>, epoch: nat, sessions: map<nat, Option<Session>>) {
    forall i | 0 <= i < |queue| :: queue[i].epoch <= epoch && queue[i].epoch in sessions && sessions[queue[i].epoch] == queue[i].session
  }

  ghost predicate Recorded(sessions: map<nat, Option<Session>>, epoch: nat, owner: Option<Session>) {
    && (forall e: nat :: e in sessions <==> e <= epoch)
    && sessions[epoch] == owner
  }

  lemma NewEpoch(queue: seq<Operation>, sessions: map<nat, Option<Session>>, epoch: nat, before: Option<Session>,
                 owner: Option<Session>)
    requires Recorded(sessions, epoch, before) && Dated(queue, epoch, sessions)
    ensures Recorded(sessions[epoch + 1 := owner], epoch + 1, owner)
    ensures Dated(queue, epoch + 1, sessions[epoch + 1 := owner])
  {
  }

  /** A request was started in the epoch and for the owner its operation was enqueued under. */
  ghost predicate InItsSession(e: Request) {
    e.Started? ==> e.epoch == e.op.epoch && e.op.session == Some(e.session)
  }

  ghost predicate AllInSession(log: seq<Request>) {
    forall i | 0 <= i < |log| :: InItsSession(log[i])
  }

  ghost predicate WorkOk(work: Work, queue: seq<Operation>, turn: Turn) {
    && work != Wrong
    && (turn.Running? <==> work.Busy?)
    && (!turn.Waiting? ==> queue != [])
    && (work.Busy? ==> queue != [] && queue[0].id == work.id)
    && (work.Free? && queue != [] ==> work.next <= queue[0].id)
  }

  lemma Popped(queue: seq<Operation>, nextId: nat, epoch: nat, sessions: map<nat, Option<Session>>, work: Work,
               turn: Turn)
    requires InSequence(queue, nextId) && Dated(queue, epoch, sessions) && queue != [] && WorkOk(work, queue, turn)
    ensures InSequence(queue[1..], nextId) && Dated(queue[1..], epoch, sessions)
    ensures work.Free? ==> WorkOk(work, queue[1..], Waiting)
    ensures work.Busy? ==> WorkOk(Free(queue[0].id + 1), queue[1..], Waiting) && queue[0].id < nextId
  {
  }

  lemma NotOut(work: Work, queue: seq<Operation>, turn: Turn)
    requires WorkOk(work, queue, turn) && !turn.Running?
    ensures work.Free?
  {
  }

  lemma SettledIsOk(log: seq<Request>, queue: seq<Operation>, turn: Turn)
    requires AllInSession(log) && WorkOk(WorkAfter(log), queue, turn) && turn.Running?
    ensures queue != [] && WorkAfter(log) == Busy(queue[0].id)
    ensures WorkAfter(log + [Settled(queue[0].id)]) == Free(queue[0].id + 1)
    ensures AllInSession(log + [Settled(queue[0].id)])
  {
    WorkNext(log, Settled(queue[0].id));
  }

  lemma StartIsOk(queue: seq<Operation>, epoch: nat, sessions: map<nat, Option<Session>>, owner: Session,
                  log: seq<Request>, turn: Turn)
    requires Dated(queue, epoch, sessions) && Recorded(sessions, epoch, Some(owner)) && AllInSession(log)
    requires queue != [] && queue[0].epoch == epoch && WorkOk(WorkAfter(log), queue, turn) && !turn.Running?
    ensures WorkAfter(log + [Started(queue[0], epoch, owner)]) == Busy(queue[0].id)
    ensures WorkOk(Busy(queue[0].id), queue, Running) && AllInSession(log + [Started(queue[0], epoch, owner)])
  {
    WorkNext(log, Started(queue[0], epoch, owner));
  }

  // ---------------------------------------------------------------- whose touch it was

  /** Every touch that the reorderer may still play came under the present session and named its reservation. */
  ghost predicate Attributed(submitted: set<(Option<Id>, nat, Packet)>, pushed: seq<Pushed>, epoch: nat,
                             owner: Option<Session>) {
    forall e | e in submitted && e.2.Input? :: Ours(e.2.callback, pushed, epoch, owner)
  }

  ghost predicate Ours(closure: nat, pushed: seq<Pushed>, epoch: nat, owner: Option<Session>) {
    closure < |pushed| && owner.Some? && pushed[closure] == Pushed(epoch, owner, Some(owner.value.reservation))
  }

  /** An operation that a touch has led to is of the session under which the touch was handed in. */
  ghost predicate Owed(op: Operation, pushed: seq<Pushed>) {
    op.origin.Some? ==> Ours(op.origin.value, pushed, op.epoch, op.session)
  }

  ghost predicate AllOwed(queue: seq<Operation>, log: seq<Request>, pushed: seq<Pushed>) {
    && (forall i | 0 <= i < |queue| :: Owed(queue[i], pushed))
    && (forall i | 0 <= i < |log| && log[i].Started? :: Owed(log[i].op, pushed))
  }

  lemma OneMorePushed(submitted: set<(Option<Id>, nat, Packet)>, queue: seq<Operation>, log: seq<Request>,
                      pushed: seq<Pushed>,
                      epoch: nat, owner: Option<Session>, p: Pushed)
    requires Attributed(submitted, pushed, epoch, owner) && AllOwed(queue, log, pushed)
    ensures Attributed(submitted, pushed + [p], epoch, owner) && AllOwed(queue, log, pushed + [p])
  {
    assert forall n: nat, e: nat, o | Ours(n, pushed, e, o) :: Ours(n, pushed + [p], e, o);
  }

  lemma {:induction false} PlayedWasRun(trace: seq<Event>, call: Call)
    requires call in CallsOf(trace) && call.Played?
    ensures exists k :: 0 <= k < |trace| && trace[k].Ran? && trace[k].packet == call.packet
    decreases |trace|
  {
    var front := trace[..|trace| - 1];
    if call in CallsOf(front) {
      PlayedWasRun(front, call);
      var k :| 0 <= k < |front| && front[k].Ran? && front[k].packet == call.packet;
      assert trace[k] == front[k];
    }
  }

  lemma {:induction false} CallsGrow(t: seq<Event>, u: seq<Event>)
    requires t <= u
    ensures CallsOf(t) <= CallsOf(u)
    decreases |u|
  {
    if |t| < |u| {
      CallsGrow(t, u[..|u| - 1]);
    } else {
      assert t == u;
    }
  }

  /** What is played was handed in under the present session. */
  lemma PlayedIsOurs(gestures: TG.TouchGesture, call: Call, pushed: seq<Pushed>, epoch: nat, owner: Option<Session>)
    requires gestures.Valid() && Attributed(gestures.submitted, pushed, epoch, owner)
    requires call in gestures.calls && call.Played? && call.packet.Input?
    ensures Ours(call.packet.callback, pushed, epoch, owner)
  {
    CallsAreOfTrace(gestures);
    hide TG.TouchGesture.Valid, CallsOf;
    PlayedWasRun(gestures.trace, call);
    var k :| 0 <= k < |gestures.trace| && gestures.trace[k].Ran? && gestures.trace[k].packet == call.packet;
    TP.RunsWhatItsOwnerPushed(gestures, k);
  }

  lemma CallsAreOfTrace(gestures: TG.TouchGesture)
    requires gestures.Valid()
    ensures gestures.calls == CallsOf(gestures.trace)
  {
    hide CallsOf, gestures.LimitsOk, gestures.WaitingOk, gestures.ProtectedOk, gestures.SeenOk, gestures.AcceptedOk,
      gestures.SourcesKnown, gestures.SubmittedOk, TG.PendingOk, Watch, gestures.CurrentPart;
  }

  /** The operations that some commands become when they are enqueued in a row. */
  function Operations(orders: seq<Ordered>, nextId: nat, epoch: nat, controller: nat,
                      owner: Option<Session>): seq<Operation> {
    seq(|orders|, i requires 0 <= i < |orders| =>
      Operation(nextId + i, epoch, controller, true, owner, orders[i].command, Some(orders[i].origin)))
  }

  lemma OneMoreOperation(orders: seq<Ordered>, o: Ordered, nextId: nat, epoch: nat, controller: nat,
                         owner: Option<Session>)
    ensures Operations(orders + [o], nextId, epoch, controller, owner) == Operations(orders, nextId, epoch, controller, owner)
      + [Operation(nextId + |orders|, epoch, controller, true, owner, o.command, Some(o.origin))]
  {
  }

  class IosBridge {
    const serial: string
    const gestures: TG.TouchGesture
    var owner: Option<Session>
    var epoch: nat
    /** The abort controller of the present owner, and those that have aborted. */
    var controller: nat
    var aborted: set<nat>
    var state: Option<DeviceState>
    var queue: seq<Operation>
    var turn: Turn
    var nextId: nat
    /** The closures handed to the reorderer, by number, and what they know of the screen. */
    var closures: seq<Closure>
    var screen: Screen
    ghost var pushed: seq<Pushed>
    ghost var log: seq<Request>
    /** Who owned the device in each epoch so far. */
    ghost var sessions: map<nat, Option<Session>>

    ghost predicate Valid()
      reads this, gestures
    {
      && InSequence(queue, nextId) && Dated(queue, epoch, sessions) && WorkOk(WorkAfter(log), queue, turn) && AllInSession(log)
      && (WorkAfter(log).Free? ==> WorkAfter(log).next <= nextId)
      && Recorded(sessions, epoch, owner)
      && (owner.None? ==> epoch == 0 || controller in aborted)
      && |pushed| == |closures| && AllOwed(queue, log, pushed) && Attributed(gestures.submitted, pushed, epoch, owner)
      && gestures.Valid()
      && gestures.owner == (if owner.Some? then TG.Reserved(owner.value.reservation) else TG.Nobody)
    }

    constructor (serial: string, gestures: TG.TouchGesture)
      requires gestures.Valid()
      modifies gestures
      ensures Valid() && this.serial == serial && this.gestures == gestures
      ensures owner.None? && queue == [] && log == []
    {
      this.serial, this.gestures := serial, gestures;
      owner, epoch, controller, aborted, state := None, 0, 0, {}, None;
      queue, turn, nextId, log, sessions := [], Waiting, 0, [], map[0 := None];
      closures, screen, pushed := [], UNTOUCHED, [];
      new;
      gestures.SetOwner(None);
    }

    /** Nothing of an earlier session is left to be played, and the device has been told to let go. */
    ghost predicate CleanSlate()
      reads this, gestures
    {
      && screen == UNTOUCHED && gestures.trace == [ResetCalled] && gestures.submitted == {}
      && gestures.current.None? && gestures.pending == map[] && gestures.waiting == []
    }

    /** Whoever is first becomes the owner; the owner may join again; anybody else is refused. */
    method Join(email: string, reservation: string) returns (joined: bool)
      requires Valid()
      modifies this, gestures
      ensures Valid()
      ensures joined <==> old(owner).None? || old(owner).value.email == email
      ensures old(owner).Some? ==> owner == old(owner) && epoch == old(epoch)
      ensures old(owner).None? ==> owner == Some(Session(email, reservation)) && epoch == old(epoch) + 1 && controller !in aborted
      ensures if old(owner).None? then CleanSlate()
              else screen == old(screen) && gestures.trace == old(gestures.trace) && gestures.pending == old(gestures.pending)
      ensures aborted == old(aborted) && queue == old(queue) && log == old(log) && turn == old(turn)
    {
      hide WorkOk, InSequence, AllInSession, Recorded, Dated, WorkAfter, AllOwed;
      hide TG.TouchGesture.Valid;
      NewEpoch(queue, sessions, epoch, owner, if owner.Some? then None else Some(Session(email, reservation)));
      if owner.Some? {
        return owner.value.email == email;
      }
      controller := FreshController();
      owner := Some(Session(email, reservation));
      gestures.SetOwner(Some(reservation));
      screen := UNTOUCHED;
      epoch := epoch + 1;
      sessions := sessions[epoch := owner];
      return true;
    }

    method FreshController() returns (c: nat)
      ensures c !in aborted
    {
      c := 0;
      var left := aborted;
      while c in aborted
        invariant forall k: nat | k < c :: k in aborted
        invariant left == set k | k in aborted && k >= c
        decreases |left|
      {
        left := left - {c};
        c := c + 1;
      }
    }

    /** The owner goes, and with it everything that was to be done for it. */
    method Leave()
      requires Valid()
      modifies this, gestures
      ensures Valid() && owner.None? && epoch == old(epoch) + 1 && CleanSlate()
      ensures controller == old(controller) && aborted == old(aborted) + {controller}
      ensures queue == old(queue) && log == old(log) && turn == old(turn)
    {
      hide WorkOk, InSequence, AllInSession, Recorded, Dated, WorkAfter, AllOwed;
      hide TG.TouchGesture.Valid;
      NewEpoch(queue, sessions, epoch, owner, None);
      aborted := aborted + {controller};
      owner := None;
      epoch := epoch + 1;
      sessions := sessions[epoch := None];
      gestures.SetOwner(None);
      screen := UNTOUCHED;
    }

    /** A command, or what a touch leads to, waits for its turn under the present epoch. */
    method Enqueue(allowLocked: bool, command: Command, origin: Option<nat>)
      requires Valid() && (origin.Some? ==> Ours(origin.value, pushed, epoch, owner))
      modifies `queue, `nextId
      ensures Valid()
      ensures queue == old(queue) + [Operation(old(nextId), epoch, controller, allowLocked, owner, command, origin)]
      ensures nextId == old(nextId) + 1
    {
      hide TG.TouchGesture.Valid, WorkAfter, AllInSession, Ours, Attributed;
      queue := queue + [Operation(nextId, epoch, controller, allowLocked, owner, command, origin)];
      nextId := nextId + 1;
    }

    // -------------------------------------------------------------- touches

    /** The closures that the reorderer has run since `since` do their work. */
    method Play(since: nat)
      requires Valid() && since <= |gestures.calls|
      modifies `queue, `nextId, `screen
      ensures Valid()
      ensures var calls := gestures.calls[since..];
        && screen == AfterCalls(old(screen), calls, closures)
        && queue == old(queue) + Operations(Orders(old(screen), calls, closures), old(nextId), epoch, controller, owner)
    {
      hide TG.TouchGesture.Valid, WorkAfter, AllInSession, Ours, Attributed, AllOwed, Recorded, Dated, InSequence,
        WorkOk,
        Operations, Next, Order, AfterCalls, Orders;
      ghost var orders := [];
      NothingOrdered(screen, closures, nextId, epoch, controller, owner);
      assert gestures.calls[since..since] == [];
      for i := since to |gestures.calls|
        invariant Valid() && nextId == old(nextId) + |orders|
        invariant screen == AfterCalls(old(screen), gestures.calls[since..i], closures)
        invariant orders == Orders(old(screen), gestures.calls[since..i], closures)
        invariant queue == old(queue) + Operations(orders, old(nextId), epoch, controller, owner)
      {
        var call := gestures.calls[i];
        assert gestures.calls[since..i + 1] == gestures.calls[since..i] + [call];
        CallsGoOn(old(screen), gestures.calls[since..i], call, closures);
        var closure := ClosureOf(call, closures);
        if closure.Some? {
          PlayedIsOurs(gestures, call, pushed, epoch, owner);
          var order := Order(screen, closure.value);
          if order.Some? {
            Enqueue(true, order.value, Some(call.packet.callback));
            OneMoreOperation(orders, Ordered(call.packet.callback, order.value), old(nextId), epoch, controller, owner);
            orders := orders + [Ordered(call.packet.callback, order.value)];
          }
        }
        screen := AfterCall(screen, call, closures);
      }
      assert gestures.calls[since..|gestures.calls|] == gestures.calls[since..];
    }

    lemma NothingOrdered(s: Screen, closures: seq<Closure>, nextId: nat, epoch: nat, controller: nat,
                         owner: Option<Session>)
      ensures AfterCalls(s, [], closures) == s && Orders(s, [], closures) == []
      ensures Operations([], nextId, epoch, controller, owner) == []
    {
    }

    /** The closures run by the present request have done their work: the screen is what they leave, and the
        queue has grown by exactly what they order. */
    twostate predicate HasPlayed()
      reads this, gestures
    {
      && old(gestures.calls) <= gestures.calls
      && var calls := gestures.calls[|old(gestures.calls)|..];
      && screen == AfterCalls(old(screen), calls, closures)
      && queue == old(queue) + Operations(Orders(old(screen), calls, closures), old(nextId), epoch, controller, owner)
    }

    ghost predicate SameSession(o: Option<Session>, e: nat, c: nat)
      reads this
    {
      owner == o && epoch == e && controller == c
    }

    /** A finger goes down, moves or goes up, a touch is committed, or reset without a gesture to cancel:
        a closure is handed to the reorderer, and what is due is played. Without an owner nothing is. */
    method TouchArrives(slot: int, closure: Closure, id: Option<Id>, reservation: Option<string>)
      requires Valid()
      modifies this, gestures
      ensures Valid() && SameSession(old(owner), old(epoch), old(controller)) && log == old(log) && turn == old(turn)
      ensures owner.None? ==> queue == old(queue) && closures == old(closures)
      ensures owner.Some? ==> closures == old(closures) + [closure] && HasPlayed()
      ensures owner.Some? ==> pushed == old(pushed) + [Pushed(epoch, owner, reservation)]
      // What the reorderer is told of the closure is what it is, with its contact unless it has none.
      ensures owner.Some? && closure.kind in {Down, Move, Up} ==>
        gestures.Takes(slot, Input(old(|closures|), Some(Metadata(closure.kind, Some(closure.contact)))), id, reservation)
      ensures owner.Some? && closure.kind in {Kind.Reset, Commit} ==>
        gestures.Takes(slot, Input(old(|closures|), Some(Metadata(closure.kind, None))), id, reservation)
    {
      hide TG.TouchGesture.Valid, WorkAfter, AllInSession, Ours, AllOwed, Attributed, Recorded, Dated, InSequence,
        WorkOk, Operations,
        Orders, AfterCalls, CallsOf, TG.TouchGesture.Takes;
      if owner.None? {
        return;
      }
      CallsAreOfTrace(gestures);
      ghost var before, trace := gestures.submitted, gestures.trace;
      OneMorePushed(gestures.submitted, queue, log, pushed, epoch, owner, Pushed(epoch, owner, reservation));
      var since, n := |gestures.calls|, |closures|;
      var metadata := Metadata(closure.kind, if closure.kind.Reset? || closure.kind.Commit? then None else Some(closure.contact));
      ghost var heard := gestures.Heard(slot, id, reservation);
      gestures.Push(slot, Input(n, Some(metadata)), id, reservation);
      closures := closures + [closure];
      pushed := pushed + [Pushed(epoch, owner, reservation)];
      HeardIsOurs(heard, before, gestures.submitted, Input(n, Some(metadata)), reservation);
      CallsAreOfTrace(gestures);
      CallsGrow(trace, gestures.trace);
      Play(since);
    }

    /** What the reorderer hears names the present reservation. */
    lemma HeardIsOurs(heard: bool, before: set<(Option<Id>, nat, Packet)>, after: set<(Option<Id>, nat, Packet)>,
                      packet: Packet,
                      reservation: Option<string>)
      requires Attributed(before, pushed, epoch, owner) && owner.Some?
      requires heard ==> reservation == Some(owner.value.reservation)
      requires packet.Input? ==> packet.callback < |pushed| && pushed[packet.callback] == Pushed(epoch, owner, reservation)
      requires !heard ==> after == before
      requires forall e | e in after :: e in before || e.2 == packet
      ensures Attributed(after, pushed, epoch, owner)
    {
    }

    /** A gesture starts; it may play at once what has come before. */
    method GestureStarts(slot: int, id: Option<Id>, reservation: Option<string>) returns (ghost accepted: bool)
      requires Valid()
      modifies this, gestures
      ensures Valid() && SameSession(old(owner), old(epoch), old(controller)) && log == old(log) && turn == old(turn)
      ensures if owner.None? then queue == old(queue) else HasPlayed() && gestures.Starts(accepted, slot, id, reservation)
    {
      hide TG.TouchGesture.Valid, WorkAfter, AllInSession, Ours, AllOwed, Attributed, Recorded, Dated, InSequence,
        WorkOk, Operations,
        Orders, AfterCalls, CallsOf, TG.TouchGesture.Starts;
      accepted := false;
      if owner.None? {
        return;
      }
      CallsAreOfTrace(gestures);
      ghost var trace := gestures.trace;
      var since := |gestures.calls|;
      accepted := gestures.Start(slot, id, reservation);
      CallsAreOfTrace(gestures);
      CallsGrow(trace, gestures.trace);
      Play(since);
    }

    method GestureStops(slot: int, id: Option<Id>, reservation: Option<string>)
      requires Valid()
      modifies this, gestures
      ensures Valid() && SameSession(old(owner), old(epoch), old(controller)) && log == old(log) && turn == old(turn)
      ensures if owner.None? then queue == old(queue) else HasPlayed() && gestures.Stops(slot, id, reservation)
    {
      hide TG.TouchGesture.Valid, WorkAfter, AllInSession, Ours, AllOwed, Recorded, Dated, InSequence, WorkOk,
        Operations,
        Orders, AfterCalls, CallsOf, TG.TouchGesture.Stops;
      if owner.None? {
        return;
      }
      CallsAreOfTrace(gestures);
      ghost var trace := gestures.trace;
      var since := |gestures.calls|;
      gestures.Stop(slot, id, reservation);
      CallsAreOfTrace(gestures);
      CallsGrow(trace, gestures.trace);
      Play(since);
    }

    /** A gesture, or all of its source up to it, is cancelled. */
    method GestureIsCancelled(id: Id, reservation: Option<string>, through: bool)
      requires Valid()
      modifies this, gestures
      ensures Valid() && SameSession(old(owner), old(epoch), old(controller)) && log == old(log) && turn == old(turn)
      ensures if owner.None? then queue == old(queue) else HasPlayed() && gestures.Clears(id, reservation, through)
    {
      hide TG.TouchGesture.Valid, WorkAfter, AllInSession, Ours, AllOwed, Attributed, Recorded, Dated, InSequence,
        WorkOk, Operations,
        Orders, AfterCalls, CallsOf, TG.TouchGesture.Clears;
      if owner.None? {
        return;
      }
      CallsAreOfTrace(gestures);
      ghost var trace := gestures.trace;
      var since := |gestures.calls|;
      gestures.Clear(id, reservation, through);
      CallsAreOfTrace(gestures);
      CallsGrow(trace, gestures.trace);
      Play(since);
    }

    /** A gesture has waited too long for a packet, or kept the next one waiting: the next one plays. */
    method TouchTimerFires(gap: bool)
      requires Valid()
      requires (if gap then gestures.current.Some? && gestures.current.value.timer.GapTimer? else gestures.waiting != [])
      modifies this, gestures
      ensures Valid() && SameSession(old(owner), old(epoch), old(controller)) && log == old(log) && turn == old(turn)
      ensures HasPlayed()
      ensures gestures.GivenUp(old(gestures.Here()), old(gestures.waiting), old(gestures.current),
                               if gap then SequenceTimedOut else TailTimedOut)
    {
      hide TG.TouchGesture.Valid, WorkAfter, AllInSession, Ours, AllOwed, Attributed, Recorded, Dated, InSequence,
        WorkOk, Operations,
        Orders, AfterCalls, CallsOf, TG.TouchGesture.GivenUp;
      CallsAreOfTrace(gestures);
      ghost var trace := gestures.trace;
      var since := |gestures.calls|;
      if gap {
        gestures.GapTimerFires();
      } else {
        gestures.TailTimerFires();
      }
      CallsAreOfTrace(gestures);
      CallsGrow(trace, gestures.trace);
      Play(since);
    }

    // -------------------------------------------------------------- the queue

    /** The first operation is rejected; the next one's turn comes. */
    method Reject()
      requires Valid() && turn != Running && queue != []
      modifies `queue, `turn
      ensures Valid() && queue == old(queue)[1..] && turn == Waiting
    {
      hide TG.TouchGesture.Valid, Recorded, Dated, InSequence, WorkAfter, AllInSession, WorkOk;
      Popped(queue, nextId, epoch, sessions, WorkAfter(log), turn);
      NotOut(WorkAfter(log), queue, turn);
      queue, turn := queue[1..], Waiting;
    }

    /** The first operation asks for the device, if its session is still on. */
    method Begin() returns (begun: bool)
      requires Valid() && turn == Waiting && queue != []
      modifies `queue, `turn
      ensures Valid()
      ensures (begun <==> old(queue[0]).controller !in aborted && owner.Some? && old(queue[0]).epoch == epoch)
      ensures begun ==> queue == old(queue) && turn == Looking
      ensures !begun ==> queue == old(queue)[1..] && turn == Waiting
    {
      hide TG.TouchGesture.Valid, Recorded, Dated, InSequence, WorkAfter, AllInSession;
      var op := queue[0];
      if op.controller in aborted || owner.None? || op.epoch != epoch {
        Reject();
        return false;
      }
      turn := Looking;
      return true;
    }

    /** Whether the device is the one the operation was meant for, and may be used now. */
    predicate Usable(op: Operation, current: DeviceState)
      reads this
    {
      && current.udid == serial && current.ready && (op.allowLocked || !current.locked)
      && state.Some? && current.generation == state.value.generation && current.instance == state.value.instance
      && op.epoch == epoch && owner.Some? && op.controller !in aborted
    }

    /** Exactly what keeps a request from starting: another device, one that is not ready, locked (unless that does not
        matter) or restarted since it was last seen; and an operation whose session is over. */
    lemma UnusableIff(op: Operation, current: DeviceState)
      ensures !Usable(op, current) <==>
        || current.udid != serial || !current.ready || (current.locked && !op.allowLocked)
        || state == None
        || (exists last :: state == Some(last) && (last.generation, last.instance) != (current.generation, current.instance))
        || op.epoch != epoch || owner == None || op.controller in aborted
    {
      if state.Some? {
        assert state == Some(state.value);
      }
    }

    /** The answer about the device: only now does the request itself start, or not at all. */
    method DeviceArrives(current: Option<DeviceState>) returns (started: bool)
      requires Valid() && turn == Looking && queue != []
      modifies `queue, `turn, `log
      ensures Valid() && (started <==> current.Some? && Usable(old(queue[0]), current.value))
      ensures started ==> queue == old(queue) && turn == Running
      ensures started ==> owner.Some? && log == old(log) + [Started(old(queue[0]), epoch, owner.value)]
      ensures !started ==> queue == old(queue)[1..] && turn == Waiting && log == old(log)
    {
      hide TG.TouchGesture.Valid, Recorded, Dated, InSequence, WorkAfter, AllInSession, WorkOk;
      if current.None? || !Usable(queue[0], current.value) {
        Reject();
        return false;
      }
      StartIsOk(queue, epoch, sessions, owner.value, log, turn);
      log := log + [Started(queue[0], epoch, owner.value)];
      turn := Running;
      return true;
    }

    /** The request has come to its end, however it went. */
    method Settle()
      requires Valid() && turn == Running && queue != []
      modifies `queue, `turn, `log
      ensures Valid() && queue == old(queue)[1..] && turn == Waiting && log == old(log) + [Settled(old(queue[0]).id)]
    {
      hide TG.TouchGesture.Valid, Recorded, Dated, InSequence, WorkAfter, AllInSession, WorkOk;
      Popped(queue, nextId, epoch, sessions, WorkAfter(log), turn);
      SettledIsOk(log, queue, turn);
      log := log + [Settled(queue[0].id)];
      queue, turn := queue[1..], Waiting;
    }

    method Observe(current: Option<DeviceState>)
      requires Valid()
      modifies `state
      ensures Valid() && state == current
    {
      hide TG.TouchGesture.Valid, Recorded, Dated, InSequence, WorkAfter, AllInSession, WorkOk;
      state := current;
    }

    // -------------------------------------------------------------- what holds in every run

    /** Nothing that was accepted in one session starts a request in another; requests start one at a
        time and in order. */
    lemma RequestsKeepToTheirSession(i: nat)
      requires Valid() && i < |log| && log[i].Started?
      ensures log[i].epoch == log[i].op.epoch && log[i].op.session == Some(log[i].session)
      ensures forall j | i < j < |log| && log[j].Started? :: log[i].op.id < log[j].op.id
    {
      assert InItsSession(log[i]);
      forall j | i < j < |log| && log[j].Started?
        ensures log[i].op.id < log[j].op.id
      {
        StartsAreSerial(log, i, j);
      }
    }

    /** A request that a touch has led to runs in the epoch and for the owner under which the touch was
        handed in, and the touch named the reservation of that owner. */
    lemma TouchesServeTheOwner(i: nat)
      requires Valid() && i < |log| && log[i].Started? && log[i].op.origin.Some?
      ensures var n := log[i].op.origin.value;
        n < |pushed| && pushed[n] == Pushed(log[i].epoch, Some(log[i].session), Some(log[i].session.reservation))
    {
      assert InItsSession(log[i]) && Owed(log[i].op, pushed);
    }
  }
}
