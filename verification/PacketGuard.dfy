/** The queue before every device: packets pass in order, each only while a permission read from
    the database still holds. A channel's serial is taken as known (`names`) while its queue lives.

    Reads, deadlines and notifications are methods the environment calls in any order. */
module PacketGuards {
  import opened Wrappers
  import opened MapSize
  import opened DeviceAccess
  import opened PacketPolicy

  const MAX_COUNTER := 9007199254740991
  const MAX_CACHED := 128

  datatype Reason = Denied | Unavailable | TimedOut | LimitExceeded | CounterExhausted

  /** A packet as it waits; an event that is not a string is `None`. */
  datatype Packet = Packet(id: nat, event: Option<string>, deadline: int)

  /** A row, and the revision at which its read began. */
  datatype Evidence = Evidence(row: Device, since: nat)

  datatype Read = NotRead | Reading(since: nat) | Done(since: nat, device: Option<Device>) | Failed

  datatype Expiry = Never | At(time: int)

  /** Two inputs belong together only if they came under the same of these. */
  datatype Identity = Unidentified | Identity(serial: string, channel: Option<string>, group: Option<string>,
                                              email: Option<string>, reservation: Option<string>, session: nat)

  datatype Verdict = Open | Allowed(groups: set<string>) | Turned(reason: Reason)

  /** The local state of one drain while it waits for the authorization of its first packet. */
  datatype Drain = Drain(checkpoint: Option<nat>, commandClass: Option<string>, read: Read, expires: Expiry,
                         identity: Identity, serial: Option<string>, subscribed: set<string>, verdict: Verdict)

  const FRESH := Drain(None, None, NotRead, At(0), Unidentified, None, {}, Open)

  /** `taken` and `passed` are the numbers of the packets ever queued here and let through. */
  datatype Queue = Queue(pending: seq<Packet>, failed: bool, drain: Drain, taken: seq<nat>, passed: seq<nat>)

  datatype Permission = Permission(checkpoint: nat, until: int, groups: set<string>, identity: Identity, evidence: Evidence)

  datatype Gesture = Gesture(identity: Identity, number: nat)

  /** Where, and as whom, a gesture was begun. */
  datatype Begun = Begun(channel: string, identity: Identity)

  /** A packet let through at revision `at`, and why; `forgotten` if the gesture of its channel was forgotten
      for want of room while it waited. */
  datatype Delivery = Delivery(packet: nat, channel: string, event: string, evidence: Evidence, groups: set<string>, checkpoint: nat,
                               at: nat, settled: bool, identity: Identity, gesture: Option<nat>, forgotten: bool)

  /** What a packet's continuation was called with. */
  datatype Answer = Unguarded(event: Option<string>, channel: Option<string>) | Delivered(delivery: Delivery) | Refused(reason: Reason)

  function Ids(pending: seq<Packet>): seq<nat> {
    if pending == [] then [] else [pending[0].id] + Ids(pending[1..])
  }

  lemma {:induction false} IdsAppend(pending: seq<Packet>, p: Packet)
    ensures Ids(pending + [p]) == Ids(pending) + [p.id]
  {
    if pending == [] {
      assert pending + [p] == [p];
    } else {
      assert (pending + [p])[1..] == pending[1..] + [p];
      IdsAppend(pending[1..], p);
    }
  }

  ghost function Total(queues: map<string, Queue>): nat {
    if queues == map[] then 0 else
      var c :| c in queues;
      |queues[c].pending| + Total(queues - {c})
  }

  lemma {:induction false} TotalWithout(queues: map<string, Queue>, c: string)
    requires c in queues
    ensures Total(queues) == |queues[c].pending| + Total(queues - {c})
    decreases |queues|
  {
    var j :| j in queues && Total(queues) == |queues[j].pending| + Total(queues - {j});
    if j != c {
      OneFewer(queues, j);
      OneFewer(queues, c);
      TotalWithout(queues - {j}, c);
      TotalWithout(queues - {c}, j);
      assert queues - {j} - {c} == queues - {c} - {j};
    }
  }

  lemma TotalUpdate(queues: map<string, Queue>, c: string, q: Queue)
    ensures Total(queues[c := q]) == |q.pending| + if c in queues then Total(queues) - |queues[c].pending| else Total(queues)
  {
    TotalWithout(queues[c := q], c);
    assert queues[c := q] - {c} == queues - {c};
    if c in queues {
      TotalWithout(queues, c);
    } else {
      assert queues - {c} == queues;
    }
  }

  // ---------------------------------------------------------------- what the fence does to evidence

  /** The channel's serial is known, or was before everything became doubtful. */
  ghost predicate Bound(channel: string, checkpoint: nat, w: World) {
    IsIos(channel) || channel in w.channels || EverythingSince(w.log, checkpoint)
  }

  lemma BoundStays(channel: string, checkpoint: nat, before: World, after: World)
    requires Bound(channel, checkpoint, before) && Moved(before, after) && checkpoint <= before.revision
    ensures Bound(channel, checkpoint, after)
  {
    hide EverythingSince, InvalidatedSince, Grown, Fences;
    StillInvalidated(before.log, after.log, before.revision, "", checkpoint, checkpoint);
    StillInvalidated(after.log, after.log, after.revision, "", before.revision, checkpoint) by {
      NothingNew(after.log, after.revision);
    }
  }

  lemma BoundEarlier(channel: string, earlier: nat, checkpoint: nat, w: World)
    requires Bound(channel, checkpoint, w) && earlier <= checkpoint
    ensures Bound(channel, earlier, w)
  {
    hide IsIos;
    NothingNew(w.log, w.revision);
    StillInvalidated(w.log, w.log, w.revision, "", checkpoint, earlier);
  }

  /** A row that was ready is still the whole truth, unless its device was invalidated since. */
  ghost predicate EvidenceOk(channel: string, serial: string, e: Evidence, checkpoint: nat, w: World) {
    && e.row.serial == serial && checkpoint <= e.since <= w.revision
    && Bound(channel, checkpoint, w)
    && (e.row.ready && !InvalidatedSince(w.log, serial, checkpoint) ==> Settled(w, serial))
  }

  lemma EvidenceStays(channel: string, serial: string, e: Evidence, checkpoint: nat, before: World, after: World)
    requires EvidenceOk(channel, serial, e, checkpoint, before) && Moved(before, after)
    ensures EvidenceOk(channel, serial, e, checkpoint, after)
  {
    hide EverythingSince, InvalidatedSince, Grown, Bound;
    BoundStays(channel, checkpoint, before, after);
    StillInvalidated(before.log, after.log, before.revision, serial, checkpoint, checkpoint);
    StillInvalidated(after.log, after.log, after.revision, serial, before.revision, checkpoint) by {
      NothingNew(after.log, after.revision);
    }
    assert Fences(before, after, serial);
  }

  ghost predicate NoneBetween(log: seq<Entry>, serial: string, checkpoint: nat, at: nat) {
    forall j | 0 <= j < |log| && checkpoint < log[j].stamp <= at :: !Concerns(log[j], serial)
  }

  lemma NoneBetweenStays(before: seq<Entry>, after: seq<Entry>, revision: nat, serial: string, checkpoint: nat, at: nat)
    requires Grown(before, after, revision) && at <= revision && NoneBetween(before, serial, checkpoint, at)
    ensures NoneBetween(after, serial, checkpoint, at)
  {
  }

  lemma CurrentMeansNone(log: seq<Entry>, serial: string, checkpoint: nat, at: nat)
    requires !InvalidatedSince(log, serial, checkpoint)
    ensures NoneBetween(log, serial, checkpoint, at)
  {
  }

  function SerialOf(names: map<string, string>, channel: string): string {
    if IsIos(channel) then channel[4..] else if channel in names then names[channel] else channel
  }

  /** The groups a check was made for are still the user's, or everything became doubtful. */
  ghost predicate GroupsHold(checked: set<string>, groups: set<string>, checkpoint: nat, w: World) {
    checked == groups || EverythingSince(w.log, checkpoint)
  }

  lemma GroupsHoldStays(checked: set<string>, groups: set<string>, checkpoint: nat, before: World, after: World)
    requires GroupsHold(checked, groups, checkpoint, before) && Moved(before, after) && checkpoint <= before.revision
    ensures GroupsHold(checked, groups, checkpoint, after)
  {
    hide InvalidatedSince, Grown, Fences, EverythingSince;
    StillInvalidated(before.log, after.log, before.revision, "", checkpoint, checkpoint);
  }

  // ---------------------------------------------------------------- drains, permissions, answers

  /** Who asks, for which devices, and how long the last answer may be kept. */
  datatype Context = Context(names: map<string, string>, user: User, groups: set<string>, reigns: seq<Reign>, limit: int)

  /** From which revision on the user had which groups. */
  datatype Reign = Reign(since: nat, groups: set<string>)

  /** The groups of the user at a revision. */
  function InForce(reigns: seq<Reign>, at: nat): set<string> {
    if reigns == [] then {}
    else if reigns[|reigns| - 1].since <= at then reigns[|reigns| - 1].groups
    else InForce(reigns[..|reigns| - 1], at)
  }

  ghost predicate ReignsOk(reigns: seq<Reign>, groups: set<string>, revision: nat) {
    reigns != [] && reigns[|reigns| - 1].groups == groups && reigns[|reigns| - 1].since <= revision
  }

  lemma ReignBegins(reigns: seq<Reign>, reign: Reign)
    ensures ReignsOk(reigns + [reign], reign.groups, reign.since)
  {
  }

  lemma ReignEnds(reigns: seq<Reign>, next: Reign, at: nat)
    ensures at < next.since ==> InForce(reigns + [next], at) == InForce(reigns, at)
  {
    assert (reigns + [next])[..|reigns|] == reigns;
  }

  ghost predicate DrainOk(channel: string, head: Option<string>, d: Drain, x: Context, w: World) {
    && (d.checkpoint.None? ==> d.read.NotRead? && d.commandClass.None? && d.serial.None? && d.verdict.Open?)
    && (d.checkpoint.Some? ==>
          && d.checkpoint.value <= w.revision
          && GroupsHold(d.subscribed, x.groups, d.checkpoint.value, w) && (d.expires.At? ==> d.expires.time <= x.limit)
          && (d.serial.Some? ==> d.serial.value == SerialOf(x.names, channel) && Bound(channel, d.checkpoint.value, w))
          && ReadOk(channel, d.read, d.checkpoint.value, x, w)
          && (d.verdict.Allowed? ==>
                && d.read.Done? && d.read.device.Some? && d.read.device.value.ready && head.Some?
                && Permits(head.value, channel, d.read.device.value, x.user, d.verdict.groups)
                && GroupsHold(d.verdict.groups, x.groups, d.checkpoint.value, w)))
  }

  ghost predicate ReadOk(channel: string, read: Read, checkpoint: nat, x: Context, w: World) {
    && (read.Reading? ==> checkpoint <= read.since <= w.revision && Bound(channel, checkpoint, w))
    && (read.Done? && read.device.Some? ==>
          EvidenceOk(channel, SerialOf(x.names, channel), Evidence(read.device.value, read.since), checkpoint, w))
  }

  lemma ReadStays(channel: string, read: Read, checkpoint: nat, x: Context, before: World, after: World)
    requires ReadOk(channel, read, checkpoint, x, before) && Moved(before, after) && checkpoint <= before.revision
    ensures ReadOk(channel, read, checkpoint, x, after)
  {
    hide Fences, Bound, EvidenceOk, SerialOf, Grown, EverythingSince, InvalidatedSince;
    if read.Reading? {
      BoundStays(channel, checkpoint, before, after);
    }
    if read.Done? && read.device.Some? {
      EvidenceStays(channel, SerialOf(x.names, channel), Evidence(read.device.value, read.since), checkpoint, before, after);
    }
  }

  lemma DrainStays(channel: string, head: Option<string>, d: Drain, x: Context, before: World, after: World)
    requires DrainOk(channel, head, d, x, before) && Moved(before, after)
    ensures DrainOk(channel, head, d, x, after)
  {
    hide Fences, Bound, SerialOf, Grown, EverythingSince, InvalidatedSince, ReadOk, GroupsHold, Permits;
    if d.checkpoint.Some? {
      ReadStays(channel, d.read, d.checkpoint.value, x, before, after);
      GroupsHoldStays(d.subscribed, x.groups, d.checkpoint.value, before, after);
      if d.serial.Some? {
        BoundStays(channel, d.checkpoint.value, before, after);
      }
      if d.verdict.Allowed? {
        GroupsHoldStays(d.verdict.groups, x.groups, d.checkpoint.value, before, after);
      }
    }
  }

  function Head(pending: seq<Packet>): Option<string> {
    if pending == [] then None else pending[0].event
  }

  /** What passed a queue is the beginning of what was put into it. */
  ghost predicate PrefixOk(q: Queue) {
    if q.failed then q.passed <= q.taken else q.taken == q.passed + Ids(q.pending)
  }

  /** Only packets that need permission are queued. */
  ghost predicate AllGuarded(channel: string, pending: seq<Packet>) {
    IsIos(channel) || forall i | 0 <= i < |pending| :: pending[i].event.Some? && IsDeviceCommand(pending[i].event.value)
  }

  ghost predicate QueueOk(channel: string, q: Queue, x: Context, w: World) {
    !q.failed && PrefixOk(q) && AllGuarded(channel, q.pending) && DrainOk(channel, Head(q.pending), q.drain, x, w)
  }

  ghost predicate QueuesOk(queues: map<string, Queue>, x: Context, w: World) {
    forall c | c in queues :: QueueOk(c, queues[c], x, w)
  }

  ghost predicate PermissionOk(channel: string, p: Permission, x: Context, w: World) {
    && EvidenceOk(channel, SerialOf(x.names, channel), p.evidence, p.checkpoint, w)
    && PermitsInput(channel, p.evidence.row, x.user, p.groups) && p.until <= x.limit
  }

  ghost predicate PermissionsOk(permissions: map<string, Permission>, x: Context, w: World) {
    && |permissions| <= MAX_CACHED
    && forall c | c in permissions :: PermissionOk(c, permissions[c], x, w)
  }

  ghost predicate DeliveryOk(d: Delivery, x: Context, w: World) {
    && d.evidence.row.serial == SerialOf(x.names, d.channel)
    && d.checkpoint <= d.evidence.since <= d.at <= w.revision
    && Permits(d.event, d.channel, d.evidence.row, x.user, d.groups)
    && NoneBetween(w.log, d.evidence.row.serial, d.checkpoint, d.at)
    && d.settled && d.groups == InForce(x.reigns, d.at)
    && (NeedsGesture(d.event) ==> (d.gesture.None? <==> d.forgotten))
  }

  /** What needs permission: device commands, and everything sent to an iPhone. */
  predicate Guarded(event: Option<string>, channel: Option<string>) {
    (event.Some? && IsDeviceCommand(event.value)) || (channel.Some? && IsIos(channel.value))
  }

  ghost predicate AnswerOk(a: Answer, x: Context, w: World) {
    match a
    case Unguarded(e, c) => !Guarded(e, c)
    case Delivered(d) => DeliveryOk(d, x, w)
    case Refused(_) => true
  }

  ghost predicate AnswersOk(answers: map<nat, Answer>, x: Context, w: World) {
    forall n | n in answers :: AnswerOk(answers[n], x, w)
  }

  ghost predicate StateOk(queues: map<string, Queue>, permissions: map<string, Permission>, answers: map<nat, Answer>,
                          x: Context, w: World)
  {
    QueuesOk(queues, x, w) && PermissionsOk(permissions, x, w) && AnswersOk(answers, x, w)
  }

  /** Whatever groups the user gets, as long as everything that was checked becomes doubtful. */
  lemma StateStaysDoubted(queues: map<string, Queue>, permissions: map<string, Permission>, answers: map<nat, Answer>,
                          x: Context, reign: Reign, before: World, after: World)
    requires StateOk(queues, permissions, answers, x, before) && Moved(before, after)
    requires EverythingSince(after.log, before.revision)
    requires reign.since > before.revision
    ensures StateOk(queues, permissions, answers, x.(groups := reign.groups, reigns := x.reigns + [reign]), after)
  {
    hide Fences, Bound, SerialOf, Grown, EverythingSince, InvalidatedSince, EvidenceOk, NoneBetween, PermitsInput,
      Permits,
      IsDeviceCommand, IsIos, PrefixOk, Moved, NeedsGesture, InForce;
    StateStays(queues, permissions, answers, x, before, after);
    forall c | c in queues
      ensures QueueOk(c, queues[c], x.(groups := reign.groups, reigns := x.reigns + [reign]), after)
    {
      var d := queues[c].drain;
      assert QueueOk(c, queues[c], x, before) && QueueOk(c, queues[c], x, after);
      if d.checkpoint.Some? {
        assert GroupsHold(d.subscribed, x.groups, d.checkpoint.value, before);
        NothingNew(after.log, after.revision);
        StillInvalidated(after.log, after.log, after.revision, "", before.revision, d.checkpoint.value);
      }
    }
    assert forall c | c in permissions :: PermissionOk(c, permissions[c], x, after);
    forall n | n in answers
      ensures AnswerOk(answers[n], x.(groups := reign.groups, reigns := x.reigns + [reign]), after)
    {
      assert AnswerOk(answers[n], x, before) && AnswerOk(answers[n], x, after);
      if answers[n].Delivered? {
        ReignEnds(x.reigns, reign, answers[n].delivery.at);
      }
    }
  }

  /** As time goes on, nothing is kept for too long. */
  lemma StateStaysLater(queues: map<string, Queue>, permissions: map<string, Permission>, answers: map<nat, Answer>,
                        x: Context, limit: int, w: World)
    requires StateOk(queues, permissions, answers, x, w) && x.limit <= limit
    ensures StateOk(queues, permissions, answers, x.(limit := limit), w)
  {
    hide Fences, Bound, SerialOf, EverythingSince, InvalidatedSince, EvidenceOk, NoneBetween, PermitsInput, Permits,
      IsDeviceCommand, IsIos, PrefixOk, NeedsGesture, InForce, GroupsHold;
    assert forall c | c in queues :: QueueOk(c, queues[c], x, w);
    assert forall c | c in permissions :: PermissionOk(c, permissions[c], x, w);
    assert forall n | n in answers :: AnswerOk(answers[n], x, w);
  }

  ghost predicate QueuesOkBut(queues: map<string, Queue>, c: string, x: Context, w: World) {
    forall d | d in queues && d != c :: QueueOk(d, queues[d], x, w)
  }

  lemma QueuesApart(queues: map<string, Queue>, c: string, x: Context, w: World)
    requires c in queues
    ensures QueuesOk(queues, x, w) <==> QueuesOkBut(queues, c, x, w) && QueueOk(c, queues[c], x, w)
  {
  }

  lemma QueuePut(queues: map<string, Queue>, c: string, q: Queue, x: Context, w: World)
    requires QueuesOkBut(queues, c, x, w)
    ensures QueuesOkBut(queues[c := q], c, x, w)
    ensures QueueOk(c, q, x, w) ==> QueuesOk(queues[c := q], x, w)
  {
  }

  lemma QueueDropped(queues: map<string, Queue>, c: string, x: Context, w: World)
    requires QueuesOkBut(queues, c, x, w)
    ensures QueuesOk(queues - {c}, x, w)
  {
  }

  /** A packet that needs a gesture has one, or had one when it came first in its queue. */
  ghost predicate NeedMet(c: string, head: Option<string>, gestures: map<string, Gesture>, lost: set<string>) {
    head.Some? && NeedsGesture(head.value) ==> c in gestures || c in lost
  }

  /** Between calls every drain waits for an authorization of its first packet. */
  ghost predicate Waits(c: string, q: Queue, gestures: map<string, Gesture>, lost: set<string>) {
    q.pending != [] && Head(q.pending).Some? && q.drain.checkpoint.Some? && NeedMet(c, Head(q.pending), gestures, lost)
  }

  ghost predicate OthersWait(queues: map<string, Queue>, c: string, gestures: map<string, Gesture>, lost: set<string>) {
    forall d | d in queues && d != c :: Waits(d, queues[d], gestures, lost)
  }

  ghost predicate AllWait(queues: map<string, Queue>, gestures: map<string, Gesture>, lost: set<string>) {
    forall d | d in queues :: Waits(d, queues[d], gestures, lost)
  }

  ghost predicate Fit(queues: map<string, Queue>, maxPending: nat, maxChannels: nat) {
    |queues| <= maxChannels && forall c | c in queues :: |queues[c].pending| <= maxPending
  }

  ghost predicate GesturesOk(gestures: map<string, Gesture>, counter: nat, begun: map<nat, Begun>) {
    |gestures| <= MAX_CACHED && GestureMapOk(gestures, counter, begun)
  }

  /** A gesture that was lost is not there. */
  ghost predicate LostOk(lost: set<string>, gestures: map<string, Gesture>) {
    forall c | c in lost :: c !in gestures
  }

  /** What is lost when a channel gets a gesture. */
  ghost function LostAfter(lost: set<string>, c: string, before: map<string, Gesture>,
                           after: map<string, Gesture>): set<string> {
    (lost - {c}) + (before.Keys - after.Keys)
  }

  /** A channel has a new gesture; the others keep theirs, but for one if there are too many. */
  ghost predicate RoomMade(before: map<string, Gesture>, after: map<string, Gesture>, c: string, g: Gesture) {
    c in after && after[c] == g &&
    if |before[c := g]| <= MAX_CACHED then after == before[c := g]
    else exists o :: o in before && o != c && after == before[c := g] - {o}
  }

  lemma RoomHas(before: map<string, Gesture>, after: map<string, Gesture>, c: string, g: Gesture)
    requires RoomMade(before, after, c, g)
    ensures c in after && after[c] == g
  {
  }

  lemma LostLess(lost: set<string>, gestures: map<string, Gesture>, less: set<string>, fewer: map<string, Gesture>)
    requires LostOk(lost, gestures) && less <= lost && fewer.Keys <= gestures.Keys
    ensures LostOk(less, fewer)
  {
  }

  lemma LostMore(lost: set<string>, gestures: map<string, Gesture>, more: map<string, Gesture>, c: string)
    requires LostOk(lost, gestures) && more.Keys <= gestures.Keys + {c} && c in more
    ensures LostOk(LostAfter(lost, c, gestures, more), more)
    ensures (gestures.Keys + lost) - {c} <= more.Keys + LostAfter(lost, c, gestures, more)
  {
  }

  ghost predicate GestureMapOk(gestures: map<string, Gesture>, counter: nat, begun: map<nat, Begun>) {
    && counter <= MAX_COUNTER
    && (forall n | n in begun :: 0 < n <= counter)
    && (forall c | c in gestures :: gestures[c].number in begun && begun[gestures[c].number] == Begun(c, gestures[c].identity))
  }

  /** The inputs of a gesture all went to its channel, as whom it was begun. */
  ghost predicate InGesture(a: Answer, begun: map<nat, Begun>) {
    a.Delivered? && IsInput(a.delivery.event) && a.delivery.gesture.Some? ==>
      a.delivery.gesture.value in begun && begun[a.delivery.gesture.value] == Begun(a.delivery.channel, a.delivery.identity)
  }

  ghost predicate AllInGestures(answers: map<nat, Answer>, begun: map<nat, Begun>) {
    forall n | n in answers :: InGesture(answers[n], begun)
  }

  ghost predicate EndedOk(ended: seq<Queue>) {
    forall i | 0 <= i < |ended| :: PrefixOk(ended[i])
  }

  /** The answers given so far stand. */
  ghost predicate Stand(before: map<nat, Answer>, after: map<nat, Answer>) {
    forall n | n in before :: n in after && after[n] == before[n]
  }

  lemma RefusedIsOk(reason: Reason, x: Context, w: World, begun: map<nat, Begun>)
    ensures AnswerOk(Refused(reason), x, w) && InGesture(Refused(reason), begun)
  {
  }

  lemma OneMoreKey(gestures: map<string, Gesture>, c: string, g: Gesture)
    ensures |gestures[c := g]| <= |gestures| + 1
  {
    var more := gestures[c := g];
    assert more.Keys == gestures.Keys + {c} && |more.Keys| == |more| && |gestures.Keys| == |gestures|;
  }

  lemma BegunStays(answers: map<nat, Answer>, begun: map<nat, Begun>, n: nat, b: Begun)
    requires AllInGestures(answers, begun) && n !in begun
    ensures AllInGestures(answers, begun[n := b])
  {
    hide IsInput;
    forall k | k in answers
      ensures InGesture(answers[k], begun[n := b])
    {
      assert InGesture(answers[k], begun);
    }
  }

  lemma GestureAdded(gestures: map<string, Gesture>, counter: nat, begun: map<nat, Begun>, answers: map<nat, Answer>,
                     c: string, identity: Identity)
    requires GesturesOk(gestures, counter, begun) && AllInGestures(answers, begun) && counter < MAX_COUNTER
    ensures var more, begun' := gestures[c := Gesture(identity, counter + 1)], begun[counter + 1 := Begun(c, identity)];
      && AllInGestures(answers, begun') && GestureMapOk(more, counter + 1, begun') && |more| <= MAX_CACHED + 1
  {
    hide AllInGestures;
    OneMoreKey(gestures, c, Gesture(identity, counter + 1));
    BegunStays(answers, begun, counter + 1, Begun(c, identity));
  }

  lemma OthersStillWait(queues: map<string, Queue>, c: string, gestures: map<string, Gesture>, lost: set<string>,
                        gestures': map<string, Gesture>, lost': set<string>)
    requires OthersWait(queues, c, gestures, lost)
    requires (gestures.Keys + lost) - {c} <= gestures'.Keys + lost'
    ensures OthersWait(queues, c, gestures', lost')
  {
    forall d | d in queues && d != c
      ensures Waits(d, queues[d], gestures', lost')
    {
      assert Waits(d, queues[d], gestures, lost);
      assert d in gestures || d in lost ==> d in (gestures.Keys + lost) - {c};
    }
  }

  lemma GoneWait(queues: map<string, Queue>, c: string, gestures: map<string, Gesture>, lost: set<string>, q: Queue)
    requires OthersWait(queues, c, gestures, lost) && c in queues
    ensures AllWait(queues - {c}, gestures - {c}, lost)
    ensures queues[c := q] - {c} == queues - {c}
    ensures queues[c := queues[c].(failed := true)][c := q] == queues[c := q]
  {
    hide NeedsGesture;
  }

  lemma OthersWaitBeside(queues: map<string, Queue>, c: string, q: Queue, gestures: map<string, Gesture>,
                         lost: set<string>)
    requires OthersWait(queues, c, gestures, lost)
    ensures OthersWait(queues[c := q], c, gestures, lost)
    ensures Waits(c, q, gestures, lost) ==> AllWait(queues[c := q], gestures, lost)
  {
  }

  predicate Expired(e: Expiry, now: int) {
    e.At? && e.time <= now
  }

  lemma QueuePopped(c: string, q: Queue, x: Context, w: World, identity: Identity)
    requires QueueOk(c, q, x, w) && q.pending != []
    ensures !q.failed && PrefixOk(q)
    ensures QueueOk(c, q.(pending := q.pending[1..], passed := q.passed + [q.pending[0].id],
                          drain := q.drain.(identity := identity, verdict := Open)), x, w)
  {
    hide IsIos, IsDeviceCommand, GroupsHold, ReadOk, Bound, SerialOf;
    assert Ids(q.pending) == [q.pending[0].id] + Ids(q.pending[1..]);
  }

  lemma QueueSuspended(c: string, q: Queue, x: Context, w: World, nextClass: string, fresh_: bool)
    requires QueueOk(c, q, x, w) && (!fresh_ ==> q.drain.checkpoint.Some?)
    ensures QueueOk(c, q.(drain := Suspended(q.drain, fresh_, nextClass, w.revision, x.groups)), x, w)
  {
    hide IsIos, IsDeviceCommand, Bound, SerialOf, EvidenceOk;
  }

  /** A drain that starts to wait for an authorization, with a new snapshot or the one it has. */
  function Suspended(d: Drain, fresh_: bool, nextClass: string, revision: nat, groups: set<string>): Drain {
    if fresh_ then Drain(Some(revision), Some(nextClass), NotRead, Never, d.identity, None, groups, Open)
    else d.(serial := None, subscribed := groups, verdict := Open)
  }

  ghost predicate AllRefused(packets: seq<Packet>, reason: Reason, answers: map<nat, Answer>) {
    forall p | p in packets :: p.id in answers && answers[p.id] == Refused(reason)
  }

  /** What a verdict that still counts leads to: the first packet passes, or all are refused. */
  ghost predicate Answered(q: Queue, c: string, gestureAllows: bool, objection: Reason, answers: map<nat, Answer>)
    requires q.pending != []
  {
    match q.drain.verdict
    case Open => true
    case Turned(reason) => AllRefused(q.pending, if objection == Denied then Denied else reason, answers)
    case Allowed(_) =>
      if gestureAllows then
        && q.drain.read.Done? && q.drain.read.device.Some?
        && DeliveredTo(answers, q.pending[0], c, Evidence(q.drain.read.device.value, q.drain.read.since), q.drain.identity)
      else AllRefused(q.pending, objection, answers)
  }

  lemma DeliveredStands(before: map<nat, Answer>, after: map<nat, Answer>, p: Packet, c: string, e: Evidence,
                        identity: Identity)
    requires Stand(before, after) && DeliveredTo(before, p, c, e, identity)
    ensures DeliveredTo(after, p, c, e, identity)
  {
  }

  lemma RefusedOneMore(packets: seq<Packet>, p: Packet, reason: Reason, answers: map<nat, Answer>)
    requires AllRefused(packets, reason, answers)
    ensures p.id !in answers ==> AllRefused(packets + [p], reason, answers[p.id := Refused(reason)])
  {
  }

  lemma NumbersSame(queues: map<string, Queue>, home: map<nat, string>, answers: map<nat, Answer>, submitted: nat,
                    c: string, q: Queue)
    requires NumbersOk(queues, home, answers, submitted) && c in queues && q.pending == queues[c].pending
    ensures NumbersOk(queues[c := q], home, answers, submitted)
  {
  }

  lemma CacheLess(permissions: map<string, Permission>, c: string, x: Context, w: World)
    requires PermissionsOk(permissions, x, w)
    ensures PermissionsOk(permissions - {c}, x, w)
  {
    if c in permissions {
      OneFewer(permissions, c);
    } else {
      assert permissions - {c} == permissions;
    }
  }

  lemma GesturesLess(gestures: map<string, Gesture>, c: string, counter: nat, begun: map<nat, Begun>)
    requires GestureMapOk(gestures, counter, begun)
    requires (|gestures| <= MAX_CACHED || (c in gestures && |gestures| == MAX_CACHED + 1))
    ensures GesturesOk(gestures - {c}, counter, begun)
  {
    if c in gestures {
      OneFewer(gestures, c);
    } else {
      assert gestures - {c} == gestures;
    }
  }

  lemma GestureEnded(gestures: map<string, Gesture>, c: string, counter: nat, begun: map<nat, Begun>)
    requires GesturesOk(gestures, counter, begun)
    ensures GesturesOk(gestures - {c}, counter, begun)
  {
    hide GestureMapOk;
    GesturesLess(gestures, c, counter, begun);
  }

  lemma GesturesRemain(gestures: map<string, Gesture>, c: string)
    ensures (gestures - {c}).Keys == gestures.Keys - {c}
  {
  }

  ghost predicate DeliveredTo(answers: map<nat, Answer>, p: Packet, c: string, e: Evidence, identity: Identity) {
    && p.id in answers && answers[p.id].Delivered?
    && var d := answers[p.id].delivery;
      d.channel == c && Some(d.event) == p.event && d.evidence == e && d.identity == identity
  }

  lemma AgreesStill(before: map<string, string>, after: map<string, string>, channel: Option<string>, serial: string,
                    names: map<string, string>)
    requires ChannelsAgree(before, names) && OnlyAdds(before, after, channel, serial)
    requires channel.Some? && !IsIos(channel.value) ==> serial == SerialOf(names, channel.value)
    ensures ChannelsAgree(after, names)
  {
  }

  lemma KnownAgrees(channels: map<string, string>, names: map<string, string>, c: string)
    requires ChannelsAgree(channels, names) && c in channels && !IsIos(c)
    ensures channels[c] == SerialOf(names, c)
  {
  }

  lemma AllowedIsPermitted(event: string, c: string, device: Device, seen: Device, user: User, groups: set<string>)
    requires IsIos(c) || IsDeviceCommand(event)
    requires seen == device || seen == device.(ready := false)
    requires IsDeviceCommand(event) ==> Usable(seen, c, groups)
    requires IsIos(c) ==> AllowsIos(event, c, device, user, groups)
    requires IsInput(event) ==> OwnedBy(device, user)
    ensures Permits(event, c, device, user, groups) && device.ready
  {
    hide IsIos, IsDeviceCommand, IsInput;
  }

  lemma FitWithout(queues: map<string, Queue>, c: string, maxPending: nat, maxChannels: nat)
    requires Fit(queues, maxPending, maxChannels)
    ensures Fit(queues - {c}, maxPending, maxChannels)
  {
    OneFewer(queues, c);
  }

  lemma PushedAway(queues: map<string, Queue>, c: string, p: Packet)
    ensures queues[c := Pushed(queues, c, p)] - {c} == queues - {c}
  {
  }

  lemma FitNow(queues: map<string, Queue>, c: string, q: Queue, maxPending: nat, maxChannels: nat)
    requires Fit(queues, maxPending, maxChannels) && |q.pending| <= maxPending
    requires (c in queues || |queues| < maxChannels)
    ensures Fit(queues[c := q], maxPending, maxChannels)
  {
    OneFewer(queues[c := q], c);
    OneFewer(queues, c);
    assert queues[c := q] - {c} == queues - {c};
  }

  lemma FitShorter(queues: map<string, Queue>, c: string, q: Queue, maxPending: nat, maxChannels: nat)
    requires Fit(queues, maxPending, maxChannels) && c in queues && |q.pending| <= |queues[c].pending|
    ensures Fit(queues[c := q], maxPending, maxChannels)
  {
    FitNow(queues, c, q, maxPending, maxChannels);
  }

  /** A queue with one more packet, or a new one. */
  function Pushed(queues: map<string, Queue>, c: string, p: Packet): Queue {
    if c in queues then queues[c].(pending := queues[c].pending + [p], taken := queues[c].taken + [p.id])
    else Queue([p], false, FRESH, [p.id], [])
  }

  lemma QueuePushed(queues: map<string, Queue>, c: string, p: Packet, x: Context, w: World)
    requires c in queues ==> QueueOk(c, queues[c], x, w) && queues[c].pending != []
    requires IsIos(c) || (p.event.Some? && IsDeviceCommand(p.event.value))
    ensures QueueOk(c, Pushed(queues, c, p), x, w)
    ensures Ids(Pushed(queues, c, p).pending) == (if c in queues then Ids(queues[c].pending) else []) + [p.id]
  {
    hide IsIos, IsDeviceCommand, ReadOk, GroupsHold, SerialOf, Bound, Permits;
    if c in queues {
      var q, r := queues[c], Pushed(queues, c, p);
      IdsAppend(q.pending, p);
      assert r.taken == q.passed + (Ids(q.pending) + [p.id]);
      assert Head(r.pending) == Head(q.pending);
    } else {
      assert Ids([p]) == [p.id] + Ids([p][1..]) == [p.id];
    }
  }

  lemma PushedLength(queues: map<string, Queue>, c: string, p: Packet)
    ensures |Pushed(queues, c, p).pending| == 1 + if c in queues then |queues[c].pending| else 0
  {
  }

  /** The queue with one more packet still waits for its first. */
  lemma PushedWaits(queues: map<string, Queue>, c: string, p: Packet, gestures: map<string, Gesture>, lost: set<string>)
    requires AllWait(queues, gestures, lost)
    ensures OthersWait(queues[c := Pushed(queues, c, p)], c, gestures, lost)
    ensures c in queues ==> AllWait(queues[c := Pushed(queues, c, p)], gestures, lost)
    ensures c in queues ==> queues[c].pending != []
  {
    hide NeedMet;
    if c in queues {
      assert Waits(c, queues[c], gestures, lost);
    }
  }

  lemma NothingElse(queues: map<string, Queue>, c: string, x: Context, w: World)
    requires QueuesOk(queues, x, w)
    ensures QueuesOkBut(queues, c, x, w) && (c in queues ==> QueueOk(c, queues[c], x, w))
  {
  }

  lemma StandsStill(answers: map<nat, Answer>)
    ensures Stand(answers, answers)
  {
  }

  lemma StandTwice(first: map<nat, Answer>, second: map<nat, Answer>, third: map<nat, Answer>)
    requires Stand(first, second) && Stand(second, third)
    ensures Stand(first, third)
  {
  }

  ghost predicate ChannelsAgree(channels: map<string, string>, names: map<string, string>) {
    forall c | c in channels && !IsIos(c) :: channels[c] == SerialOf(names, c)
  }

  /** Nothing the fence does takes any of it back. */
  lemma StateStays(queues: map<string, Queue>, permissions: map<string, Permission>, answers: map<nat, Answer>,
                   x: Context, before: World, after: World)
    requires StateOk(queues, permissions, answers, x, before) && Moved(before, after)
    ensures StateOk(queues, permissions, answers, x, after)
  {
    hide Fences, Bound, SerialOf, Grown, EverythingSince, InvalidatedSince, DrainOk, EvidenceOk, NoneBetween,
      PermitsInput, Permits,
      IsDeviceCommand, IsIos, PrefixOk;
    forall c | c in queues
      ensures QueueOk(c, queues[c], x, after)
    {
      DrainStays(c, Head(queues[c].pending), queues[c].drain, x, before, after);
    }
    forall c | c in permissions
      ensures PermissionOk(c, permissions[c], x, after)
    {
      var p := permissions[c];
      EvidenceStays(c, SerialOf(x.names, c), p.evidence, p.checkpoint, before, after);
    }
    forall n | n in answers
      ensures AnswerOk(answers[n], x, after)
    {
      if answers[n].Delivered? {
        var d := answers[n].delivery;
        NoneBetweenStays(before.log, after.log, before.revision, d.evidence.row.serial, d.checkpoint, d.at);
      }
    }
  }

  // ---------------------------------------------------------------- what the queues keep

  /** Every submitted packet is waiting in exactly one queue, or was answered. */
  ghost predicate NumbersOk(queues: map<string, Queue>, home: map<nat, string>, answers: map<nat, Answer>,
                            submitted: nat) {
    && (forall n: nat :: n in home || n in answers <==> n < submitted)
    && home.Keys !! answers.Keys
    && (forall c | c in queues :: PendingNumbersOk(queues[c].pending, c, home))
    && (forall n | n in home :: home[n] in queues && n in Ids(queues[home[n]].pending))
  }

  ghost predicate PendingNumbersOk(pending: seq<Packet>, c: string, home: map<nat, string>) {
    && Distinct(Ids(pending))
    && forall n | n in Ids(pending) :: n in home && home[n] == c
  }

  ghost predicate Distinct(s: seq<nat>) {
    forall i, j | 0 <= i < j < |s| :: s[i] != s[j]
  }

  lemma NumbersPush(queues: map<string, Queue>, home: map<nat, string>, answers: map<nat, Answer>, submitted: nat,
                    c: string, q: Queue)
    requires NumbersOk(queues, home, answers, submitted)
    requires Ids(q.pending) == (if c in queues then Ids(queues[c].pending) else []) + [submitted]
    ensures NumbersOk(queues[c := q], home[submitted := c], answers, submitted + 1)
  {
    var queues', home' := queues[c := q], home[submitted := c];
    assert submitted !in home;
    forall n | n in home'
      ensures home'[n] in queues' && n in Ids(queues'[home'[n]].pending)
    {
      if n != submitted {
        assert n in Ids(queues[home[n]].pending);
      } else {
        assert Ids(q.pending)[|Ids(q.pending)| - 1] == submitted;
      }
    }
    forall d | d in queues'
      ensures PendingNumbersOk(queues'[d].pending, d, home')
    {
      if d in queues {
        assert PendingNumbersOk(queues[d].pending, d, home);
      }
    }
  }

  lemma NumbersPop(queues: map<string, Queue>, home: map<nat, string>, answers: map<nat, Answer>, submitted: nat,
                   c: string, q: Queue, answer: Answer)
    requires NumbersOk(queues, home, answers, submitted)
    requires c in queues && queues[c].pending != [] && q.pending == queues[c].pending[1..]
    ensures var n := queues[c].pending[0].id;
      n !in answers && NumbersOk(queues[c := q], home - {n}, answers[n := answer], submitted)
  {
    var ids, n := Ids(queues[c].pending), queues[c].pending[0].id;
    var queues', home' := queues[c := q], home - {n};
    assert ids == [n] + Ids(q.pending) && ids[0] == n;
    assert PendingNumbersOk(queues[c].pending, c, home);
    assert n in ids;
    forall m | m in home'
      ensures home'[m] in queues' && m in Ids(queues'[home'[m]].pending)
    {
      assert m in Ids(queues[home[m]].pending);
    }
    forall d | d in queues'
      ensures PendingNumbersOk(queues'[d].pending, d, home')
    {
      assert PendingNumbersOk(queues[d].pending, d, home);
      if d == c {
        DistinctTail(ids);
      }
    }
  }

  lemma DistinctTail(s: seq<nat>)
    requires Distinct(s) && s != []
    ensures Distinct(s[1..]) && s[0] !in s[1..]
  {
  }

  lemma NumbersAnswered(queues: map<string, Queue>, home: map<nat, string>, answers: map<nat, Answer>, submitted: nat,
                        answer: Answer)
    requires NumbersOk(queues, home, answers, submitted)
    ensures NumbersOk(queues, home, answers[submitted := answer], submitted + 1) && submitted !in answers
  {
    hide PendingNumbersOk;
  }

  /** An empty queue can go. */
  lemma NumbersDrop(queues: map<string, Queue>, home: map<nat, string>, answers: map<nat, Answer>, submitted: nat,
                    c: string)
    requires NumbersOk(queues, home, answers, submitted) && c in queues && queues[c].pending == []
    ensures NumbersOk(queues - {c}, home, answers, submitted)
  {
    forall n | n in home
      ensures home[n] != c
    {
      assert n in Ids(queues[home[n]].pending);
    }
  }

  // ---------------------------------------------------------------- what was delivered, in order

  predicate Opens(event: string) {
    event == "input.gestureStart"
  }

  predicate Closes(event: string) {
    event == "input.gestureStop"
  }

  lemma StartIsNoStop(event: string)
    requires Opens(event)
    ensures !Closes(event) && IsInput(event) && !NeedsGesture(event)
  {
    StartsNeedNone();
    assert |"input.gestureStart"| != |"input.gestureStop"|;
  }

  lemma StartsNeedNone()
    ensures !NeedsGesture("input.gestureStart") && IsInput("input.gestureStart")
  {
    assert "input.gestureStart"[6] == 'g' && "input.touch"[6] == 't';
    assert "input.gestureStart"[..6] == "input.";
  }

  /** The gesture of this number was started on its channel. */
  ghost predicate Started(log: seq<Delivery>, number: nat, c: string) {
    exists j :: 0 <= j < |log| && Opens(log[j].event) && log[j].gesture == Some(number) && log[j].channel == c
  }

  ghost predicate Stopped(log: seq<Delivery>, number: nat) {
    exists j :: 0 <= j < |log| && Closes(log[j].event) && log[j].gesture == Some(number)
  }

  /** Of the packets delivered under one number only the first may start and only the last may stop a gesture. */
  ghost predicate Framed(log: seq<Delivery>) {
    forall i, j | 0 <= i < j < |log| && log[i].gesture.Some? && log[i].gesture == log[j].gesture ::
      !Closes(log[i].event) && !Opens(log[j].event)
  }

  /** Whatever is delivered under a number is the start of that gesture or comes after it, on the same channel. */
  ghost predicate AfterStart(log: seq<Delivery>, counter: nat) {
    forall i | 0 <= i < |log| && log[i].gesture.Some? ::
      log[i].gesture.value <= counter && Started(log[..i + 1], log[i].gesture.value, log[i].channel)
  }

  /** The gestures that are open were started on their channels and have not been stopped. */
  ghost predicate OpenOk(gestures: map<string, Gesture>, log: seq<Delivery>) {
    forall c | c in gestures :: Started(log, gestures[c].number, c) && !Stopped(log, gestures[c].number)
  }

  ghost predicate GestureLogOk(log: seq<Delivery>, gestures: map<string, Gesture>, counter: nat) {
    Framed(log) && AfterStart(log, counter) && OpenOk(gestures, log)
  }

  /** The deliveries are the packets answered as delivered, each once. */
  ghost predicate Played(answers: map<nat, Answer>, log: seq<Delivery>) {
    && (forall i | 0 <= i < |log| :: log[i].packet in answers && answers[log[i].packet] == Delivered(log[i]))
    && (forall i, j | 0 <= i < j < |log| :: log[i].packet != log[j].packet)
    && (forall n | n in answers && answers[n].Delivered? :: answers[n].delivery in log && answers[n].delivery.packet == n)
  }

  lemma PlayedBeside(answers: map<nat, Answer>, log: seq<Delivery>, n: nat, a: Answer)
    requires Played(answers, log) && n !in answers && !a.Delivered?
    ensures Played(answers[n := a], log)
  {
  }

  lemma PlayedOneMore(answers: map<nat, Answer>, log: seq<Delivery>, d: Delivery)
    requires Played(answers, log) && d.packet !in answers
    ensures Played(answers[d.packet := Delivered(d)], log + [d])
  {
    assert (log + [d])[|log|] == d;
    forall n | n in answers && answers[n].Delivered?
      ensures answers[n].delivery in log + [d]
    {
      assert answers[n].delivery in log;
    }
  }

  lemma StartedStays(log: seq<Delivery>, d: Delivery, number: nat, c: string)
    requires Started(log, number, c)
    ensures Started(log + [d], number, c)
  {
    var j :| 0 <= j < |log| && Opens(log[j].event) && log[j].gesture == Some(number) && log[j].channel == c;
    assert (log + [d])[j] == log[j];
  }

  lemma StartedNow(log: seq<Delivery>, d: Delivery, number: nat)
    requires Opens(d.event) && d.gesture == Some(number)
    ensures Started(log + [d], number, d.channel)
  {
    assert (log + [d])[|log|] == d;
  }

  lemma StoppedSince(log: seq<Delivery>, d: Delivery, number: nat)
    requires Stopped(log + [d], number)
    ensures Stopped(log, number) || (Closes(d.event) && d.gesture == Some(number))
  {
    var j :| 0 <= j < |log + [d]| && Closes((log + [d])[j].event) && (log + [d])[j].gesture == Some(number);
    assert j < |log| ==> (log + [d])[j] == log[j];
  }

  lemma AfterStartGrows(log: seq<Delivery>, counter: nat, d: Delivery, more: nat)
    requires AfterStart(log, counter) && counter <= more
    requires d.gesture.Some? ==> d.gesture.value <= more && Started(log + [d], d.gesture.value, d.channel)
    ensures AfterStart(log + [d], more)
  {
    hide Started;
    var all := log + [d];
    forall i | 0 <= i < |all| && all[i].gesture.Some?
      ensures all[i].gesture.value <= more && Started(all[..i + 1], all[i].gesture.value, all[i].channel)
    {
      if i < |log| {
        assert all[..i + 1] == log[..i + 1] && all[i] == log[i];
      } else {
        assert all[..i + 1] == all;
      }
    }
  }

  /** A number belongs to the channel on which it was started. */
  lemma OneChannel(log: seq<Delivery>, number: nat, c: string, d: string)
    requires Framed(log) && Started(log, number, c) && Started(log, number, d)
    ensures c == d
  {
    var i :| 0 <= i < |log| && Opens(log[i].event) && log[i].gesture == Some(number) && log[i].channel == c;
    var j :| 0 <= j < |log| && Opens(log[j].event) && log[j].gesture == Some(number) && log[j].channel == d;
    assert i == j;
  }

  lemma NumbersAreOld(log: seq<Delivery>, gestures: map<string, Gesture>, counter: nat, c: string)
    requires GestureLogOk(log, gestures, counter) && c in gestures
    ensures gestures[c].number <= counter
  {
    var j :| 0 <= j < |log| && Opens(log[j].event) && log[j].gesture == Some(gestures[c].number) && log[j].channel == c;
  }

  lemma FramedGrows(log: seq<Delivery>, d: Delivery)
    requires Framed(log)
    requires d.gesture.Some? ==> !Stopped(log, d.gesture.value)
    requires d.gesture.Some? && Opens(d.event) ==> forall i | 0 <= i < |log| :: log[i].gesture != d.gesture
    ensures Framed(log + [d])
  {
    hide Opens, Closes;
  }

  /** A packet is delivered under the gesture of its channel, which is over if it is the stop. */
  lemma GoesOn(log: seq<Delivery>, gestures: map<string, Gesture>, counter: nat, d: Delivery)
    requires GestureLogOk(log, gestures, counter) && !Opens(d.event)
    requires d.gesture == if d.channel in gestures then Some(gestures[d.channel].number) else None
    ensures GestureLogOk(log + [d], if Closes(d.event) then gestures - {d.channel} else gestures, counter)
  {
    hide Opens, Closes, Started, Stopped, Framed, AfterStart;
    if d.channel in gestures {
      StartedStays(log, d, d.gesture.value, d.channel);
      NumbersAreOld(log, gestures, counter, d.channel);
    }
    FramedGrows(log, d);
    AfterStartGrows(log, counter, d, counter);
    forall c | c in gestures && !(c == d.channel && Closes(d.event))
      ensures Started(log + [d], gestures[c].number, c) && !Stopped(log + [d], gestures[c].number)
    {
      StartedStays(log, d, gestures[c].number, c);
      if Stopped(log + [d], gestures[c].number) {
        StoppedSince(log, d, gestures[c].number);
        OneChannel(log, gestures[c].number, c, d.channel);
      }
    }
  }

  /** A start is delivered under a new number. */
  lemma StartGoesOn(log: seq<Delivery>, gestures: map<string, Gesture>, counter: nat, d: Delivery, g: Gesture,
                more: map<string, Gesture>)
    requires GestureLogOk(log, gestures, counter) && Opens(d.event) && !Closes(d.event)
    requires d.gesture == Some(counter + 1) && g.number == counter + 1
    requires RoomMade(gestures, more, d.channel, g)
    ensures GestureLogOk(log + [d], more, counter + 1)
  {
    hide Opens, Closes, Started, Stopped, Framed, AfterStart;
    StartedNow(log, d, counter + 1);
    NumberIsNew(log, counter);
    FramedGrows(log, d);
    AfterStartGrows(log, counter, d, counter + 1);
    forall c | c in more
      ensures Started(log + [d], more[c].number, c) && !Stopped(log + [d], more[c].number)
    {
      if Stopped(log + [d], more[c].number) {
        StoppedSince(log, d, more[c].number);
      }
      if c != d.channel {
        StartedStays(log, d, more[c].number, c);
      }
    }
  }

  lemma NumberIsNew(log: seq<Delivery>, counter: nat)
    requires AfterStart(log, counter)
    ensures forall i | 0 <= i < |log| :: log[i].gesture != Some(counter + 1)
    ensures !Stopped(log, counter + 1)
  {
  }

  lemma GestureLogLess(log: seq<Delivery>, gestures: map<string, Gesture>, counter: nat, c: string)
    requires GestureLogOk(log, gestures, counter)
    ensures GestureLogOk(log, gestures - {c}, counter)
  {
    hide Started, Stopped, Framed, AfterStart;
  }

  // ---------------------------------------------------------------- one gesture too many

  /** Channels that differ in length. */
  function Name(k: nat): string {
    seq(k, _ => 'x')
  }

  /** As many gestures, each on a channel of its own. */
  function Crowd(n: nat): map<string, Gesture> {
    if n == 0 then map[] else Crowd(n - 1)[Name(n - 1) := Gesture(Unidentified, n)]
  }

  function Begins(n: nat): map<nat, Begun> {
    if n == 0 then map[] else Begins(n - 1)[n := Begun(Name(n - 1), Unidentified)]
  }

  lemma {:induction false} CrowdIsOk(n: nat)
    requires n <= MAX_COUNTER
    ensures |Crowd(n)| == n && GestureMapOk(Crowd(n), n, Begins(n))
    ensures forall c | c in Crowd(n) :: |c| < n
    ensures n > 0 ==> Name(0) in Crowd(n)
  {
    if n > 0 {
      CrowdIsOk(n - 1);
      assert |Name(n - 1)| == n - 1 && Name(n - 1) !in Crowd(n - 1);
    }
  }

  /** 128 gestures are open and a touch of one of them waits, when a 129th begins: the touch goes on
      waiting without its gesture. */
  lemma TouchMayLoseItsGesture()
    ensures var c, d := Name(0), Name(MAX_CACHED);
      var q := Queue([Packet(0, Some("input.touchMove"), 0)], false, Suspended(FRESH, true, "input", 0, {}), [0], []);
      var before, after := Crowd(MAX_CACHED), Crowd(MAX_CACHED + 1) - {c};
      && NeedsGesture("input.touchMove")
      && GesturesOk(before, MAX_CACHED, Begins(MAX_CACHED)) && c in before && Waits(c, q, before, {})
      && RoomMade(before, after, d, Gesture(Unidentified, MAX_CACHED + 1))
      && GesturesOk(after, MAX_CACHED + 1, Begins(MAX_CACHED + 1))
      && c !in after && Waits(c, q, after, LostAfter({}, d, before, after))
  {
    hide GestureMapOk, NeedsGesture, Name;
    var c, d := Name(0), Name(MAX_CACHED);
    var before, all := Crowd(MAX_CACHED), Crowd(MAX_CACHED + 1);
    TouchesNeedGestures();
    CrowdIsOk(MAX_CACHED);
    CrowdIsOk(MAX_CACHED + 1);
    NamesDiffer();
    assert all == before[d := Gesture(Unidentified, MAX_CACHED + 1)];
    GesturesLess(all, c, MAX_CACHED + 1, Begins(MAX_CACHED + 1));
  }

  lemma NamesDiffer()
    ensures Name(0) != Name(MAX_CACHED)
  {
    assert |Name(0)| == 0 && |Name(MAX_CACHED)| == MAX_CACHED;
  }

  lemma TouchesNeedGestures()
    ensures NeedsGesture("input.touchMove")
  {
    assert "input.touchMove"[..11] == "input.touch";
    assert |"input.touchMove"| != |"input.touchReset"|;
  }

  // ---------------------------------------------------------------- what was submitted

  /** A packet as it was submitted. */
  datatype Sent = Sent(event: Option<string>, channel: Option<string>)

  /** An answer speaks of the packet it is given to. */
  ghost predicate AnswerFits(a: Answer, sent: Sent) {
    match a
    case Unguarded(e, c) => sent == Sent(e, c)
    case Delivered(d) => sent == Sent(Some(d.event), Some(d.channel))
    case Refused(_) => true
  }

  ghost predicate Rising(s: seq<nat>) {
    forall i, j | 0 <= i < j < |s| :: s[i] < s[j]
  }

  /** A queue takes packets in the order of their submission, and lets pass what is delivered. */
  ghost predicate Told(q: Queue, answers: map<nat, Answer>) {
    Rising(q.taken) && forall k | k in q.passed :: k in answers && answers[k].Delivered?
  }

  /** What waits in a queue was submitted for its channel. */
  ghost predicate Sendings(q: Queue, c: string, packets: seq<Sent>) {
    && (forall i | 0 <= i < |q.pending| :: q.pending[i].id < |packets| && packets[q.pending[i].id] == Sent(q.pending[i].event, Some(c)))
    && (forall k | k in q.taken :: k < |packets| && packets[k].channel == Some(c))
  }

  ghost predicate TalliesOk(queues: map<string, Queue>, ended: seq<Queue>, answers: map<nat, Answer>,
                            packets: seq<Sent>) {
    && (forall c | c in queues :: Told(queues[c], answers) && Sendings(queues[c], c, packets))
    && (forall i | 0 <= i < |ended| :: Told(ended[i], answers))
    && (forall n | n in answers :: n < |packets| && AnswerFits(answers[n], packets[n]))
  }

  lemma TalliesSame(queues: map<string, Queue>, ended: seq<Queue>, answers: map<nat, Answer>, packets: seq<Sent>,
                    c: string, q: Queue)
    requires TalliesOk(queues, ended, answers, packets) && c in queues
    requires q.pending == queues[c].pending && q.taken == queues[c].taken && q.passed == queues[c].passed
    ensures TalliesOk(queues[c := q], ended, answers, packets)
  {
    hide Rising, AnswerFits;
    assert Told(queues[c], answers) && Sendings(queues[c], c, packets);
  }

  lemma ToldStays(q: Queue, answers: map<nat, Answer>, n: nat, answer: Answer)
    requires Told(q, answers) && n !in answers
    ensures Told(q, answers[n := answer])
  {
  }

  /** The first packet of a queue has its answer. */
  lemma TalliesPop(queues: map<string, Queue>, ended: seq<Queue>, answers: map<nat, Answer>, packets: seq<Sent>,
                   c: string, q: Queue,
                   answer: Answer)
    requires TalliesOk(queues, ended, answers, packets) && c in queues && queues[c].pending != []
    requires q.pending == queues[c].pending[1..] && q.taken == queues[c].taken && queues[c].pending[0].id !in answers
    requires q.passed == queues[c].passed || (answer.Delivered? && q.passed == queues[c].passed + [queues[c].pending[0].id])
    requires AnswerFits(answer, Sent(queues[c].pending[0].event, Some(c)))
    ensures TalliesOk(queues[c := q], ended, answers[queues[c].pending[0].id := answer], packets)
  {
    hide Rising, AnswerFits;
    var n := queues[c].pending[0].id;
    assert Told(queues[c], answers) && Sendings(queues[c], c, packets);
    forall i | 0 <= i < |ended|
      ensures Told(ended[i], answers[n := answer])
    {
      ToldStays(ended[i], answers, n, answer);
    }
    forall d | d in queues
      ensures Told(queues[d], answers[n := answer])
    {
      ToldStays(queues[d], answers, n, answer);
    }
  }

  lemma TalliesDrop(queues: map<string, Queue>, ended: seq<Queue>, answers: map<nat, Answer>, packets: seq<Sent>,
                    c: string)
    requires TalliesOk(queues, ended, answers, packets) && c in queues
    ensures TalliesOk(queues - {c}, ended + [queues[c]], answers, packets)
  {
    hide Rising, AnswerFits, Told, Sendings;
  }

  lemma SendingsStay(q: Queue, c: string, packets: seq<Sent>, sent: Sent)
    requires Sendings(q, c, packets)
    ensures Sendings(q, c, packets + [sent])
  {
  }

  /** One more packet is submitted, and answered at once ... */
  lemma TalliesAnswered(queues: map<string, Queue>, ended: seq<Queue>, answers: map<nat, Answer>, packets: seq<Sent>,
                        sent: Sent,
                        answer: Answer)
    requires TalliesOk(queues, ended, answers, packets) && AnswerFits(answer, sent)
    ensures TalliesOk(queues, ended, answers[|packets| := answer], packets + [sent])
  {
    hide Rising, AnswerFits, Sendings, Told;
    forall d | d in queues
      ensures Told(queues[d], answers[|packets| := answer]) && Sendings(queues[d], d, packets + [sent])
    {
      SendingsStay(queues[d], d, packets, sent);
      ToldStays(queues[d], answers, |packets|, answer);
    }
    forall i | 0 <= i < |ended|
      ensures Told(ended[i], answers[|packets| := answer])
    {
      ToldStays(ended[i], answers, |packets|, answer);
    }
  }

  lemma RisesOn(s: seq<nat>, n: nat)
    requires Rising(s) && forall k | k in s :: k < n
    ensures Rising(s + [n])
  {
    var r := s + [n];
    forall i, j | 0 <= i < j < |r|
      ensures r[i] < r[j]
    {
      assert r[i] == s[i] && s[i] in s;
    }
  }

  lemma SendingsPushed(q: Queue, c: string, packets: seq<Sent>, p: Packet)
    requires Sendings(q, c, packets) && p.id == |packets|
    ensures Sendings(q.(pending := q.pending + [p], taken := q.taken + [p.id]), c, packets + [Sent(p.event, Some(c))])
  {
  }

  /** ... or put into a queue. */
  lemma TalliesPush(queues: map<string, Queue>, ended: seq<Queue>, answers: map<nat, Answer>, packets: seq<Sent>,
                    c: string, p: Packet)
    requires TalliesOk(queues, ended, answers, packets) && p.id == |packets|
    ensures TalliesOk(queues[c := Pushed(queues, c, p)], ended, answers, packets + [Sent(p.event, Some(c))])
  {
    hide AnswerFits, Sendings, Rising;
    var sent := Sent(p.event, Some(c));
    forall d | d in queues
      ensures Sendings(queues[d], d, packets + [sent])
    {
      SendingsStay(queues[d], d, packets, sent);
    }
    var q := if c in queues then queues[c] else Queue([], false, FRESH, [], []);
    assert Told(q, answers) && Sendings(q, c, packets) by {
      if c !in queues {
        NothingTold(c, answers, packets);
      }
    }
    TakenAreKnown(q, c, packets);
    RisesOn(q.taken, p.id);
    SendingsPushed(q, c, packets, p);
    assert Pushed(queues, c, p) == q.(pending := q.pending + [p], taken := q.taken + [p.id]);
  }

  lemma NothingTold(c: string, answers: map<nat, Answer>, packets: seq<Sent>)
    ensures Told(Queue([], false, FRESH, [], []), answers) && Sendings(Queue([], false, FRESH, [], []), c, packets)
  {
  }

  lemma TakenAreKnown(q: Queue, c: string, packets: seq<Sent>)
    requires Sendings(q, c, packets)
    ensures forall k | k in q.taken :: k < |packets|
  {
  }

  lemma NothingIsOk(x: Context, w: World, maxPending: nat, maxChannels: nat)
    ensures StateOk(map[], map[], map[], x, w) && NumbersOk(map[], map[], map[], 0) && Total(map[]) == 0
    ensures GesturesOk(map[], 0, map[]) && AllInGestures(map[], map[]) && LostOk({}, map[])
    ensures GestureLogOk([], map[], 0) && Played(map[], []) && TalliesOk(map[], [], map[], []) && EndedOk([])
    ensures AllWait(map[], map[], {}) && Fit(map[], maxPending, maxChannels)
  {
  }

  lemma LaterOn(before: World, after: World)
    requires Moved(before, after)
    ensures before.revision <= after.revision
  {
    hide Fences, Grown;
  }

  class PacketGuard {
    const access: DevicePacketAccess
    const user: User
    const names: map<string, string>
    const timeout: nat
    const maxPending: nat
    const maxTotal: nat
    const maxChannels: nat
    const cacheTime: nat

    var groups: set<string>
    var queues: map<string, Queue>
    var permissions: map<string, Permission>
    var gestures: map<string, Gesture>
    var gestureCounter: nat
    var pendingCount: int

    /** The packets submitted so far are numbered from 0; each is in a queue or has its answer. */
    var submitted: nat
    ghost var home: map<nat, string>
    ghost var answers: map<nat, Answer>
    /** The gestures ever begun. */
    ghost var begun: map<nat, Begun>
    /** The channels whose gesture was forgotten for want of room since their first packet came first. */
    ghost var lost: set<string>
    /** The queues that are gone. */
    ghost var ended: seq<Queue>
    /** The packets as they were submitted and as they were delivered, and the groups the user has had. */
    ghost var packets: seq<Sent>
    ghost var deliveries: seq<Delivery>
    /** The latest time at which a verdict was looked at. */
    ghost var clock: int
    ghost var reigns: seq<Reign>

    ghost function Now(): World
      reads access
    {
      access.Standing()
    }

    ghost function Asks(): Context
      reads this`groups, this`reigns, this`clock
    {
      Context(names, user, groups, reigns, clock + cacheTime)
    }

    ghost predicate FenceOk()
      reads access
    {
      access.Valid() && |access.sessions| <= MAX_ENTRIES && ChannelsAgree(access.channels, names)
    }

    ghost predicate Core()
      reads this, access
    {
      && FenceOk() && ReignsOk(reigns, groups, access.revision)
      && StateOk(queues, permissions, answers, Asks(), Now())
      && NumbersOk(queues, home, answers, submitted)
      && pendingCount == Total(queues)
      && GesturesOk(gestures, gestureCounter, begun)
      && AllInGestures(answers, begun)
      && LostOk(lost, gestures)
      && GestureLogOk(deliveries, gestures, gestureCounter) && Played(answers, deliveries)
      && TalliesOk(queues, ended, answers, packets) && submitted == |packets|
      && EndedOk(ended)
    }

    /** While a queue is being worked on, everything else is in order. */
    ghost predicate CoreBut(c: string)
      reads this, access
    {
      && FenceOk() && ReignsOk(reigns, groups, access.revision)
      && QueuesOkBut(queues, c, Asks(), Now())
      && PermissionsOk(permissions, Asks(), Now())
      && AnswersOk(answers, Asks(), Now())
      && NumbersOk(queues, home, answers, submitted)
      && pendingCount == Total(queues)
      && GesturesOk(gestures, gestureCounter, begun)
      && AllInGestures(answers, begun)
      && LostOk(lost, gestures)
      && GestureLogOk(deliveries, gestures, gestureCounter)
      && TalliesOk(queues, ended, answers, packets) && submitted == |packets|
      && EndedOk(ended)
    }

    ghost predicate Valid()
      reads this, access
    {
      Core() && AllWait(queues, gestures, lost) && Fit(queues, maxPending, maxChannels) && pendingCount <= maxTotal
    }

    constructor (access: DevicePacketAccess, user: User, names: map<string, string>, groups: set<string>,
                 timeout: nat, maxPending: nat, maxTotal: nat, maxChannels: nat, cacheTime: nat)
      requires access.Valid() && |access.sessions| <= MAX_ENTRIES && ChannelsAgree(access.channels, names)
      ensures Valid() && this.access == access && this.user == user && submitted == 0
    {
      hide MentionsOk, LogOk, MissesOk, ChannelsAgree, StateOk, NumbersOk, Total, GesturesOk, AllInGestures, LostOk,
        GestureLogOk, Played, TalliesOk, EndedOk, AllWait, Fit;
      this.access, this.user, this.names, this.groups := access, user, names, groups;
      this.timeout, this.maxPending, this.maxTotal := timeout, maxPending, maxTotal;
      this.maxChannels, this.cacheTime := maxChannels, cacheTime;
      queues, permissions, gestures, gestureCounter, pendingCount := map[], map[], map[], 0, 0;
      submitted, home, answers, begun, lost, ended := 0, map[], map[], map[], {}, [];
      packets, deliveries, reigns, clock := [], [], [Reign(0, groups)], 0;
      new;
      NothingIsOk(Asks(), Now(), maxPending, maxChannels);
      ReignBegins([], Reign(0, groups));
      assert [] + [Reign(0, groups)] == reigns;
    }

    /** The first packet of a queue gets its answer. */
    method Pop(c: string, q: Queue, ghost answer: Answer)
      requires c in queues && queues[c].pending != [] && q.pending == queues[c].pending[1..]
      requires NumbersOk(queues, home, answers, submitted) && pendingCount == Total(queues)
      requires TalliesOk(queues, ended, answers, packets)
      requires AnswerFits(answer, Sent(queues[c].pending[0].event, Some(c)))
      requires q.taken == queues[c].taken
      requires q.passed == queues[c].passed || (answer.Delivered? && q.passed == queues[c].passed + [queues[c].pending[0].id])
      requires AnswersOk(answers, Asks(), Now()) && AnswerOk(answer, Asks(), Now())
      requires AllInGestures(answers, begun) && InGesture(answer, begun)
      modifies `queues, `home, `answers, `pendingCount
      ensures queues == old(queues)[c := q] && pendingCount == old(pendingCount) - 1
      ensures NumbersOk(queues, home, answers, submitted) && pendingCount == Total(queues)
      ensures TalliesOk(queues, ended, answers, packets)
      ensures AnswersOk(answers, Asks(), Now()) && AllInGestures(answers, begun)
      ensures old(queues[c].pending[0].id !in answers)
      ensures answers == old(answers)[old(queues[c].pending[0].id) := answer]
    {
      hide AnswerOk, InGesture, NumbersOk, Total, TalliesOk;
      TotalUpdate(queues, c, q);
      NumbersPop(queues, home, answers, submitted, c, q, answer);
      TalliesPop(queues, ended, answers, packets, c, q, answer);
      home := home - {queues[c].pending[0].id};
      answers := answers[queues[c].pending[0].id := answer];
      queues := queues[c := q];
      pendingCount := pendingCount - 1;
    }

    /** All the packets of a failed queue get the same answer, in order. */
    method RefuseAll(c: string, reason: Reason)
      requires CoreBut(c) && c in queues && Played(answers, deliveries)
      modifies `queues, `home, `answers, `pendingCount
      ensures CoreBut(c) && Played(answers, deliveries) && pendingCount == old(pendingCount) - |old(queues[c].pending)|
      ensures Stand(old(answers), answers)
      ensures c in queues && queues == old(queues)[c := old(queues[c]).(pending := [])]
      ensures AllRefused(old(queues[c].pending), reason, answers)
    {
      hide CoreBut, Played;
      ghost var all, n := queues[c].pending, 0;
      assert queues[c := queues[c].(pending := queues[c].pending)] == queues;
      while queues[c].pending != []
        invariant c in queues && n <= |all| && queues[c].pending == all[n..]
        invariant queues == old(queues)[c := old(queues[c]).(pending := all[n..])]
        invariant CoreBut(c) && Played(answers, deliveries) && pendingCount == old(pendingCount) - n
        invariant Stand(old(answers), answers) && AllRefused(all[..n], reason, answers)
        decreases |queues[c].pending|
      {
        RefusedOneMore(all[..n], all[n], reason, answers);
        assert all[..n] + [all[n]] == all[..n + 1] && all[n..][1..] == all[n + 1..];
        RefuseFirst(c, reason);
        n := n + 1;
      }
      assert all[..n] == all;
    }

    method RefuseFirst(c: string, reason: Reason)
      requires CoreBut(c) && c in queues && queues[c].pending != [] && Played(answers, deliveries)
      modifies `queues, `home, `answers, `pendingCount
      ensures CoreBut(c) && Played(answers, deliveries) && pendingCount == old(pendingCount) - 1
      ensures old(queues[c].pending[0].id !in answers)
      ensures answers == old(answers)[old(queues[c].pending[0].id) := Refused(reason)]
      ensures queues == old(queues)[c := old(queues[c]).(pending := old(queues[c]).pending[1..])]
    {
      hide NumbersOk, TalliesOk, Total, InGesture, AnswersOk, AllInGestures, AnswerOk, QueueOk, FenceOk, GesturesOk,
        PermissionsOk, EndedOk, LostOk, GestureLogOk, Played;
      RefusedIsOk(reason, Asks(), Now(), begun);
      QueuePut(queues, c, queues[c].(pending := queues[c].pending[1..]), Asks(), Now());
      PlayedBeside(answers, deliveries, queues[c].pending[0].id, Refused(reason)) by {
        NumbersPop(queues, home, answers, submitted, c, queues[c].(pending := queues[c].pending[1..]), Refused(reason));
      }
      Pop(c, queues[c].(pending := queues[c].pending[1..]), Refused(reason));
    }

    method MarkFailed(c: string)
      requires CoreBut(c) && c in queues
      modifies `queues
      ensures CoreBut(c) && queues == old(queues)[c := old(queues[c]).(failed := true)]
    {
      hide NumbersOk, TalliesOk, Total, AnswersOk, AllInGestures, QueuesOkBut, FenceOk, GesturesOk, PermissionsOk,
        EndedOk, LostOk, GestureLogOk, Played;
      ghost var q := queues[c].(failed := true);
      QueuePut(queues, c, q, Asks(), Now());
      TotalUpdate(queues, c, q);
      NumbersSame(queues, home, answers, submitted, c, q);
      TalliesSame(queues, ended, answers, packets, c, q);
      queues := queues[c := queues[c].(failed := true)];
    }

    method ForgetPermission(c: string)
      requires CoreBut(c)
      modifies `permissions
      ensures CoreBut(c) && permissions == old(permissions) - {c}
    {
      hide Asks, Now, NumbersOk, TalliesOk, Total, AnswersOk, AllInGestures, QueuesOkBut, FenceOk, GesturesOk, LostOk,
        GestureLogOk, Played,
        PermissionsOk, EndedOk;
      CacheLess(permissions, c, Asks(), Now());
      permissions := permissions - {c};
    }

    method ForgetGesture(c: string)
      requires CoreBut(c)
      modifies `gestures
      ensures CoreBut(c) && gestures == old(gestures) - {c}
    {
      hide Asks, Now, NumbersOk, TalliesOk, Total, AnswersOk, AllInGestures, QueuesOkBut, FenceOk, GesturesOk, LostOk,
        GestureLogOk, Played,
        PermissionsOk, EndedOk;
      GestureEnded(gestures, c, gestureCounter, begun);
      GesturesRemain(gestures, c);
      LostLess(lost, gestures, lost, gestures - {c});
      GestureLogLess(deliveries, gestures, gestureCounter, c);
      gestures := gestures - {c};
    }

    method ForgetChannel(c: string)
      requires CoreBut(c)
      modifies `permissions, `gestures
      ensures CoreBut(c) && gestures == old(gestures) - {c} && permissions == old(permissions) - {c}
    {
      hide CoreBut;
      ForgetPermission(c);
      ForgetGesture(c);
    }

    method Retire(c: string)
      requires CoreBut(c) && c in queues && queues[c].pending == [] && PrefixOk(queues[c])
      requires Played(answers, deliveries)
      modifies `queues, `ended
      ensures Core() && queues == old(queues) - {c} && ended == old(ended) + [old(queues[c])]
    {
      hide NumbersOk, TalliesOk, Total, InGesture, AnswersOk, AllInGestures, QueueOk, FenceOk, GesturesOk,
        PermissionsOk;
      QueueDropped(queues, c, Asks(), Now());
      TotalWithout(queues, c);
      NumbersDrop(queues, home, answers, submitted, c);
      TalliesDrop(queues, ended, answers, packets, c);
      ended := ended + [queues[c]];
      queues := queues - {c};
    }

    method FailChannel(c: string, reason: Reason)
      requires CoreBut(c) && c in queues && PrefixOk(queues[c]) && !queues[c].failed
      requires OthersWait(queues, c, gestures, lost) && Played(answers, deliveries)
      modifies `queues, `home, `answers, `pendingCount, `permissions, `gestures, `ended
      ensures Core() && AllWait(queues, gestures, lost) && pendingCount <= old(pendingCount) - |old(queues[c].pending)|
      ensures queues == old(queues) - {c} && gestures == old(gestures) - {c} && permissions == old(permissions) - {c}
      ensures Stand(old(answers), answers) && AllRefused(old(queues[c].pending), reason, answers)
      ensures ended == old(ended) + [old(queues[c]).(failed := true, pending := [])]
    {
      hide Core, CoreBut, NumbersOk, TalliesOk, OthersWait, AllWait, EndedOk, Stand, AllRefused, Played;
      assert old(queues[c].taken) == old(queues[c].passed) + Ids(old(queues[c].pending));
      GoneWait(queues, c, gestures, lost, queues[c].(failed := true, pending := []));
      MarkFailed(c);
      ForgetChannel(c);
      RefuseAll(c, reason);
      Retire(c);
    }

    // ---------------------------------------------------------------- passing a packet

    /** The gestures with one more, and one less if there is no room. */
    method WithGesture(c: string, g: Gesture) returns (more: map<string, Gesture>, ghost begun': map<nat, Begun>)
      requires GesturesOk(gestures, gestureCounter, begun) && AllInGestures(answers, begun)
      requires gestureCounter < MAX_COUNTER && g.number == gestureCounter + 1
      ensures GesturesOk(more, gestureCounter + 1, begun') && AllInGestures(answers, begun')
      ensures RoomMade(gestures, more, c, g) && more.Keys <= gestures.Keys + {c}
    {
      hide AllInGestures, GestureMapOk;
      GestureAdded(gestures, gestureCounter, begun, answers, c, g.identity);
      more, begun' := gestures[c := g], begun[g.number := Begun(c, g.identity)];
      if |more| > MAX_CACHED {
        AnotherKey(more, c);
        var oldest :| oldest in more && oldest != c;
        GesturesLess(more, oldest, g.number, begun');
        more := more - {oldest};
      }
    }

    /** A channel gets a gesture; what another has to give up for it is lost to that one. */
    method BeginGesture(c: string, identity: Identity, ghost d: Delivery)
      requires CoreBut(c) && OthersWait(queues, c, gestures, lost) && gestureCounter < MAX_COUNTER
      requires d.channel == c && Opens(d.event) && !Closes(d.event) && d.gesture == Some(gestureCounter + 1)
      modifies `gestures, `gestureCounter, `begun, `lost, `deliveries
      ensures CoreBut(c) && OthersWait(queues, c, gestures, lost)
      ensures RoomMade(old(gestures), gestures, c, Gesture(identity, old(gestureCounter) + 1))
      ensures gestureCounter == old(gestureCounter) + 1 && deliveries == old(deliveries) + [d]
      ensures lost == LostAfter(old(lost), c, old(gestures), gestures)
    {
      hide Asks, Now, NumbersOk, TalliesOk, Total, AnswersOk, AllInGestures, QueuesOkBut, FenceOk, GesturesOk,
        PermissionsOk, EndedOk, LostOk, GestureLogOk, Played,
        OthersWait, LostAfter, RoomMade;
      var more;
      ghost var begun';
      more, begun' := WithGesture(c, Gesture(identity, gestureCounter + 1));
      ghost var lost' := LostAfter(lost, c, gestures, more);
      RoomHas(gestures, more, c, Gesture(identity, gestureCounter + 1));
      LostMore(lost, gestures, more, c);
      OthersStillWait(queues, c, gestures, lost, more, lost');
      StartGoesOn(deliveries, gestures, gestureCounter, d, Gesture(identity, gestureCounter + 1), more);
      gestures, gestureCounter, begun, lost, deliveries := more, gestureCounter + 1, begun', lost', deliveries + [d];
    }

    method EndGesture(c: string)
      requires CoreBut(c) && OthersWait(queues, c, gestures, lost)
      modifies `gestures
      ensures CoreBut(c) && OthersWait(queues, c, gestures, lost) && gestures == old(gestures) - {c}
    {
      hide CoreBut, OthersWait;
      GesturesRemain(gestures, c);
      OthersStillWait(queues, c, gestures, lost, gestures - {c}, lost);
      ForgetGesture(c);
    }

    /** A packet that begins nothing is delivered, under the gesture of its channel if it has one. */
    ghost method Log(d: Delivery, before: map<string, Gesture>)
      requires CoreBut(d.channel) && !Opens(d.event) && GestureLogOk(deliveries, before, gestureCounter)
      requires d.gesture == if d.channel in before then Some(before[d.channel].number) else None
      requires gestures == if Closes(d.event) then before - {d.channel} else before
      modifies `deliveries
      ensures CoreBut(d.channel) && deliveries == old(deliveries) + [d]
    {
      hide Asks, Now, NumbersOk, TalliesOk, Total, AnswersOk, AllInGestures, QueuesOkBut, FenceOk, GesturesOk, LostOk,
        PermissionsOk, EndedOk, GestureLogOk, Opens, Closes;
      GoesOn(deliveries, before, gestureCounter, d);
      deliveries := deliveries + [d];
    }

    predicate Mismatched(c: string, event: string, identity: Identity)
      reads `gestures
    {
      IsInput(event) && event != "input.gestureStart" && c in gestures && gestures[c].identity != identity
    }

    static function Objection(mismatched: bool): Reason {
      if mismatched then Denied else CounterExhausted
    }

    /** Why a permitted packet may yet be refused. */
    predicate GestureAllows(c: string, event: string, identity: Identity)
      reads `gestures, `gestureCounter
    {
      !Mismatched(c, event, identity) && (event == "input.gestureStart" ==> gestureCounter != MAX_COUNTER)
    }

    /** The number of the gesture under which a packet passes. */
    static ghost function UnderWhich(c: string, event: string, before: map<string, Gesture>,
                                     counter: nat): Option<nat> {
      if event == "input.gestureStart" then Some(counter + 1) else if c in before then Some(before[c].number) else None
    }

    /** What a packet that passes does to the gestures: a start begins one, a stop ends that of its channel, and
        nothing else changes any. */
    ghost predicate Follows(c: string, event: string, identity: Identity, before: map<string, Gesture>, counter: nat)
      reads `gestures, `gestureCounter
    {
      if event == "input.gestureStart" then
        gestureCounter == counter + 1 && RoomMade(before, gestures, c, Gesture(identity, counter + 1))
      else
        gestureCounter == counter && gestures == if event == "input.gestureStop" then before - {c} else before
    }

    /** The gesture an event belongs to, begins or ends; what passes is logged. */
    method TakeGesture(c: string, event: string, identity: Identity,
                       ghost d: Delivery) returns (refused: Option<Reason>, number: Option<nat>)
      requires CoreBut(c) && OthersWait(queues, c, gestures, lost) && NeedMet(c, Some(event), gestures, lost)
      requires d.channel == c && d.event == event
      modifies `gestures, `gestureCounter, `begun, `lost, `deliveries
      ensures CoreBut(c) && OthersWait(queues, c, gestures, lost)
      ensures refused.None? && IsInput(event) && number.Some? ==>
        number.value in begun && begun[number.value] == Begun(c, identity)
      ensures refused.None? && NeedsGesture(event) ==> (number.None? <==> c !in old(gestures)) && (number.None? <==> c in old(lost))
      ensures refused == if old(GestureAllows(c, event, identity)) then None
                         else Some(Objection(old(Mismatched(c, event, identity))))
      ensures refused.None? ==> Follows(c, event, identity, old(gestures), old(gestureCounter))
      ensures refused.None? ==> number == UnderWhich(c, event, old(gestures), old(gestureCounter))
      ensures refused.None? ==> deliveries == old(deliveries) + [d.(gesture := number)]
      ensures refused.Some? ==> gestures == old(gestures) && deliveries == old(deliveries)
    {
      hide NumbersOk, TalliesOk, Total, AnswersOk, AllInGestures, QueuesOkBut, FenceOk, PermissionsOk, EndedOk, LostOk,
        GestureLogOk, Played, OthersWait, IsInput, NeedsGesture, GesturesOk, RoomMade, LostAfter, Asks, Now;
      GestureIsKnown(c);
      StartsNeedNone();
      if Mismatched(c, event, identity) {
        return Some(Denied), None;
      }
      if event == "input.gestureStart" {
        if gestureCounter == MAX_COUNTER {
          return Some(CounterExhausted), None;
        }
        ghost var before := gestures;
        StartIsNoStop(event);
        BeginGesture(c, identity, d.(gesture := Some(gestureCounter + 1)));
        RoomHas(before, gestures, c, Gesture(identity, gestureCounter));
        GestureIsKnown(c);
        return None, Some(gestures[c].number);
      }
      refused := None;
      number := PassOn(c, event, d);
    }

    /** A packet that begins nothing passes under the gesture of its channel, and ends it if it is the stop. */
    method PassOn(c: string, event: string, ghost d: Delivery) returns (number: Option<nat>)
      requires CoreBut(c) && OthersWait(queues, c, gestures, lost)
      requires d.channel == c && d.event == event && event != "input.gestureStart"
      modifies `gestures, `deliveries
      ensures CoreBut(c) && OthersWait(queues, c, gestures, lost)
      ensures number == if c in old(gestures) then Some(old(gestures)[c].number) else None
      ensures gestures == if event == "input.gestureStop" then old(gestures) - {c} else old(gestures)
      ensures deliveries == old(deliveries) + [d.(gesture := number)]
    {
      hide CoreBut, OthersWait, GestureLogOk;
      LogIsOk(c);
      number := if c in gestures then Some(gestures[c].number) else None;
      ghost var before := gestures;
      if event == "input.gestureStop" {
        EndGesture(c);
      }
      Log(d.(gesture := number), before);
    }

    lemma LogIsOk(c: string)
      requires CoreBut(c)
      ensures GestureLogOk(deliveries, gestures, gestureCounter)
    {
    }

    lemma GestureIsKnown(c: string)
      requires CoreBut(c)
      ensures gestureCounter <= MAX_COUNTER
      ensures c in gestures ==>
        c !in lost && gestures[c].number in begun && begun[gestures[c].number] == Begun(c, gestures[c].identity)
    {
      hide NumbersOk, TalliesOk, Total, AnswersOk, AllInGestures, QueuesOkBut, FenceOk, PermissionsOk, EndedOk;
    }

    /** The first packet passes, unless its gesture is not its own. */
    method Let(c: string, e: Evidence, checkpoint: nat, identity: Identity) returns (passed: bool)
      requires Core() && c in queues && queues[c].pending != [] && OthersWait(queues, c, gestures, lost)
      requires queues[c].pending[0].event.Some? && NeedMet(c, queues[c].pending[0].event, gestures, lost)
      requires e.row.serial == SerialOf(names, c) && checkpoint <= e.since <= access.revision
      requires Permits(queues[c].pending[0].event.value, c, e.row, user, groups)
      requires Settled(Now(), e.row.serial) && !InvalidatedSince(access.log, e.row.serial, checkpoint)
      modifies `queues, `home, `answers, `pendingCount, `permissions, `gestures, `gestureCounter, `begun, `lost,
        `ended, `deliveries
      ensures Core() && Stand(old(answers), answers)
      ensures passed <==> old(GestureAllows(c, queues[c].pending[0].event.value, identity))
      ensures passed ==> (
        && OthersWait(queues, c, gestures, lost) && pendingCount == old(pendingCount) - 1
        && queues == old(queues)[c := old(queues[c]).(pending := old(queues[c]).pending[1..],
             passed := old(queues[c]).passed + [old(queues[c].pending[0].id)],
             drain := old(queues[c]).drain.(identity := identity, verdict := Open))]
        && DeliveredTo(answers, old(queues[c].pending[0]), c, e, identity)
        && (NeedsGesture(old(queues[c].pending[0].event.value)) ==>
              (answers[old(queues[c].pending[0].id)].delivery.gesture.None? <==> c !in old(gestures)))
        && Follows(c, old(queues[c].pending[0].event.value), identity, old(gestures), old(gestureCounter)))
      ensures !passed ==> queues == old(queues) - {c} && AllWait(queues, gestures, lost) && pendingCount <= old(pendingCount)
      ensures !passed ==> gestures == old(gestures) - {c} && permissions == old(permissions) - {c}
      ensures !passed ==> AllRefused(old(queues[c].pending), Objection(old(Mismatched(c, queues[c].pending[0].event.value, identity))), answers)
    {
      hide NumbersOk, TalliesOk, Total, AnswersOk, AllInGestures, QueuesOkBut, FenceOk, PermissionsOk, EndedOk, LostOk,
        GestureLogOk, Played,
        OthersWait,
        IsInput, NeedsGesture, GestureAllows, Mismatched, Follows, Settled, InvalidatedSince, Asks, Now, DeliveryOk,
        GesturesOk, Permits, QueueOk, SerialOf, AllRefused;
      var q := queues[c];
      QueuesApart(queues, c, Asks(), Now());
      Ready(c);
      ghost var d := Delivery(q.pending[0].id, c, q.pending[0].event.value, e, groups, checkpoint, access.revision,
                              Settled(Now(), e.row.serial), identity, None, c in lost);
      var refused, number := TakeGesture(c, q.pending[0].event.value, identity, d);
      if refused.Some? {
        FailChannel(c, refused.value);
        return false;
      }
      DeliveryIsOk(d.(gesture := number));
      Deliver(c, d.(gesture := number), identity);
      return true;
    }

    lemma DeliveryIsOk(d: Delivery)
      requires ReignsOk(reigns, groups, access.revision)
      requires d.evidence.row.serial == SerialOf(names, d.channel)
      requires d.checkpoint <= d.evidence.since <= access.revision
      requires d.at == access.revision && d.groups == groups
      requires Permits(d.event, d.channel, d.evidence.row, user, groups)
      requires d.settled && !InvalidatedSince(access.log, d.evidence.row.serial, d.checkpoint)
      requires NeedsGesture(d.event) ==> (d.gesture.None? <==> d.forgotten)
      ensures DeliveryOk(d, Asks(), Now())
    {
      hide Permits, SerialOf, NeedsGesture, InvalidatedSince;
      CurrentMeansNone(access.log, d.evidence.row.serial, d.checkpoint, access.revision);
    }

    /** What was logged as delivered leaves its queue. */
    method Deliver(c: string, ghost d: Delivery, identity: Identity)
      requires CoreBut(c) && c in queues && queues[c].pending != [] && OthersWait(queues, c, gestures, lost)
      requires deliveries != [] && deliveries[|deliveries| - 1] == d && Played(answers, deliveries[..|deliveries| - 1])
      requires QueueOk(c, queues[c], Asks(), Now()) && DeliveryOk(d, Asks(), Now()) && InGesture(Delivered(d), begun)
      requires d.packet == queues[c].pending[0].id && d.channel == c && Some(d.event) == queues[c].pending[0].event
      requires d.identity == identity
      modifies `queues, `home, `answers, `pendingCount
      ensures Core() && Stand(old(answers), answers) && OthersWait(queues, c, gestures, lost)
      ensures pendingCount == old(pendingCount) - 1 && answers == old(answers)[d.packet := Delivered(d)]
      ensures queues == old(queues)[c := old(queues[c]).(pending := old(queues[c]).pending[1..],
                passed := old(queues[c]).passed + [old(queues[c].pending[0].id)],
                drain := old(queues[c]).drain.(identity := identity, verdict := Open))]
    {
      hide NumbersOk, TalliesOk, Total, AnswersOk, AllInGestures, QueuesOkBut, FenceOk, PermissionsOk, EndedOk, LostOk,
        GestureLogOk, Played, OthersWait, GesturesOk, QueueOk, DeliveryOk, InGesture, Asks, Now, Distinct;
      var q := queues[c];
      QueuePopped(c, q, Asks(), Now(), identity);
      q := q.(pending := q.pending[1..], passed := q.passed + [q.pending[0].id], drain := q.drain.(identity := identity, verdict := Open));
      QueuePut(queues, c, q, Asks(), Now());
      OthersWaitBeside(queues, c, q, gestures, lost);
      Pop(c, q, Delivered(d));
      assert deliveries == deliveries[..|deliveries| - 1] + [d];
      PlayedOneMore(old(answers), deliveries[..|deliveries| - 1], d);
    }

    // ---------------------------------------------------------------- the drain

    /** A checkpoint that is current settles the row behind it. */
    lemma CurrentSettles(c: string, e: Evidence, checkpoint: nat)
      requires FenceOk() && EvidenceOk(c, SerialOf(names, c), e, checkpoint, Now()) && e.row.ready
      requires access.Current(c, checkpoint)
      ensures !InvalidatedSince(access.log, e.row.serial, checkpoint) && Settled(Now(), e.row.serial)
      ensures !EverythingSince(access.log, checkpoint)
    {
      access.CurrentIsExact(c, checkpoint);
      NothingNew(access.log, access.revision);
      StillInvalidated(access.log, access.log, access.revision, access.Source(c), checkpoint, checkpoint);
    }

    /** What was read for the packets before still counts for this one: it was read for the same class of events,
        not too long ago, and nothing has changed since. */
    ghost predicate ReadStillCounts(c: string, d: Drain, event: string, now: int)
      reads access
    {
      && d.commandClass == Some(if |event| >= 6 && event[..6] == "input." then "input" else event)
      && (d.expires.At? ==> now < d.expires.time)
      && d.checkpoint.Some? && !InvalidatedSince(access.log, access.Source(c), d.checkpoint.value)
    }

    /** The first packet waits, with what was read before or for a new read. */
    ghost predicate Awaits(c: string, event: string, now: int, before: Drain, after: Drain)
      reads access, `groups
    {
      && after.verdict.Open? && after.serial.None? && after.subscribed == groups && after.identity == before.identity
      && if ReadStillCounts(c, before, event, now) then
           after.checkpoint == before.checkpoint && after.read == before.read && after.expires == before.expires
         else
           after.checkpoint == Some(access.revision) && after.read.NotRead? && after.expires.Never?
    }

    lemma RenewedUnlessItCounts(c: string, event: string, d: Drain, now: int)
      requires FenceOk()
      ensures ReadStillCounts(c, d, event, now) <==>
        && d.commandClass == Some(if IsInput(event) then "input" else event) && !Expired(d.expires, now)
        && d.checkpoint.Some? && access.Current(c, d.checkpoint.value)
    {
      if d.checkpoint.Some? {
        access.CurrentIsExact(c, d.checkpoint.value);
      }
    }

    /** The first packet starts to wait for an authorization. */
    method Suspend(c: string, now: int)
      requires Core() && c in queues && queues[c].pending != [] && OthersWait(queues, c, gestures, lost)
      requires queues[c].pending[0].event.Some? && NeedMet(c, queues[c].pending[0].event, gestures, lost)
      modifies `queues
      ensures Core() && AllWait(queues, gestures, lost)
      ensures c in queues && queues == old(queues)[c := old(queues[c]).(drain := queues[c].drain)]
      ensures Awaits(c, old(queues[c].pending[0].event.value), now, old(queues[c].drain), queues[c].drain)
    {
      hide NumbersOk, TalliesOk, Total, AnswersOk, AllInGestures, QueuesOkBut, FenceOk, PermissionsOk, EndedOk, LostOk,
        GestureLogOk, Played,
        OthersWait,
        AllWait, NeedsGesture,
        GesturesOk, QueueOk, DrainOk, IsInput;
      var q := queues[c];
      var event := q.pending[0].event.value;
      var nextClass := if IsInput(event) then "input" else event;
      RenewedUnlessItCounts(c, event, q.drain, now);
      var renew := q.drain.commandClass != Some(nextClass) || Expired(q.drain.expires, now)
        || q.drain.checkpoint.None? || !access.Current(c, q.drain.checkpoint.value);
      QueuesApart(queues, c, Asks(), Now());
      QueueSuspended(c, q, Asks(), Now(), nextClass, renew);
      q := q.(drain := Suspended(q.drain, renew, nextClass, access.Checkpoint(), groups));
      QueuePut(queues, c, q, Asks(), Now());
      OthersWaitBeside(queues, c, q, gestures, lost);
      TotalUpdate(queues, c, q);
      NumbersSame(queues, home, answers, submitted, c, q);
      TalliesSame(queues, ended, answers, packets, c, q);
      queues := queues[c := q];
    }

    /** A permission given to an earlier input of the channel may be used again: not too long after it was given, for
        the same groups, and unless something was invalidated. */
    ghost predicate MayReuse(c: string, event: string, now: int)
      reads `permissions, `groups, access
    {
      && |event| >= 6 && event[..6] == "input." && c in permissions
      && now < permissions[c].until && permissions[c].groups == groups
      && !InvalidatedSince(access.log, access.Source(c), permissions[c].checkpoint)
    }

    lemma ReuseIsExact(c: string, event: string, now: int)
      requires FenceOk()
      ensures MayReuse(c, event, now) <==>
        && IsInput(event) && c in permissions && permissions[c].until > now && permissions[c].groups == groups
        && access.Current(c, permissions[c].checkpoint)
    {
      if c in permissions {
        access.CurrentIsExact(c, permissions[c].checkpoint);
      }
    }

    /** A packet that may be looked at: it has an event, and its gesture is open if it needs one. */
    predicate Presentable(c: string, event: Option<string>)
      reads `gestures
    {
      event.Some? && (c in gestures || !NeedsGesture(event.value))
    }

    /** One turn: the first packet is refused, passes at once, or waits. */
    method Turn(c: string, now: int) returns (goes: bool)
      requires Core() && c in queues && queues[c].pending != [] && OthersWait(queues, c, gestures, lost)
      modifies `queues, `home, `answers, `pendingCount, `permissions, `gestures, `gestureCounter, `begun, `lost,
        `ended, `deliveries
      ensures Core() && Stand(old(answers), answers) && pendingCount <= old(pendingCount)
      ensures goes ==> OthersWait(queues, c, gestures, lost) && c in queues
      ensures goes ==> queues == old(queues)[c := queues[c]] && queues[c].pending == old(queues[c].pending)[1..]
      ensures goes ==> old(queues[c].pending[0].id) in answers && answers[old(queues[c].pending[0].id)].Delivered?
      ensures !old(queues[c].pending[0].event.Some? && NeedMet(c, queues[c].pending[0].event, gestures, {})) ==>
        !goes && AllRefused(old(queues[c].pending), Denied, answers)
      ensures old(Presentable(c, queues[c].pending[0].event) && MayReuse(c, queues[c].pending[0].event.value, now)) ==>
        && goes == old(GestureAllows(c, queues[c].pending[0].event.value, permissions[c].identity))
        && (!goes ==> AllRefused(old(queues[c].pending),
                                 Objection(old(Mismatched(c, queues[c].pending[0].event.value, permissions[c].identity))), answers))
      ensures old(Presentable(c, queues[c].pending[0].event) && !MayReuse(c, queues[c].pending[0].event.value, now)) ==>
        && !goes && c in queues && gestures == old(gestures) && answers == old(answers)
        && Awaits(c, old(queues[c].pending[0].event.value), now, old(queues[c].drain), queues[c].drain)
      ensures !goes ==> AllWait(queues, gestures, lost)
      ensures !goes ==> queues == old(queues) - {c} || (c in queues && queues == old(queues)[c := old(queues[c]).(drain := queues[c].drain)])
    {
      hide NumbersOk, TalliesOk, Total, AnswersOk, AllInGestures, QueuesOk, FenceOk, EndedOk, LostOk, GestureLogOk,
        Played, OthersWait,
        NeedsGesture, EvidenceOk,
        SerialOf,
        GesturesOk, IsInput, Permits, PermitsInput;
      var event := queues[c].pending[0].event;
      if event.Some? {
        ReuseIsExact(c, event.value, now);
      }
      LookAgain(c);
      Ready(c);
      if event.None? || (c !in gestures && NeedsGesture(event.value)) {
        FailChannel(c, Denied);
        return false;
      }
      if IsInput(event.value) && c in permissions && permissions[c].until > now && permissions[c].groups == groups
         && access.Current(c, permissions[c].checkpoint)
      {
        var p := permissions[c];
        assert PermissionOk(c, p, Asks(), Now());
        PermissionsAreReady(c, p.evidence.row, user, p.groups);
        CurrentSettles(c, p.evidence, p.checkpoint);
        InputsAreAlike(event.value, c, p.evidence.row, user, groups);
        EvidenceSays(c, p.evidence, p.checkpoint, Now());
        goes := Let(c, p.evidence, p.checkpoint, p.identity);
        return;
      }
      Suspend(c, now);
      return false;
    }

    /** The first packet of a queue is looked at: what its channel lost before does not matter any more. */
    ghost method LookAgain(c: string)
      requires Core() && OthersWait(queues, c, gestures, lost)
      modifies `lost
      ensures Core() && OthersWait(queues, c, gestures, lost) && lost == old(lost) - {c}
    {
      hide NumbersOk, TalliesOk, Total, AnswersOk, AllInGestures, QueuesOk, FenceOk, EndedOk, LostOk, GestureLogOk,
        Played, OthersWait,
        GesturesOk, PermissionsOk;
      OthersStillWait(queues, c, gestures, lost, gestures, lost - {c});
      LostLess(lost, gestures, lost - {c}, gestures);
      lost := lost - {c};
    }

    lemma Ready(c: string)
      requires Core() && c in queues
      ensures CoreBut(c) && PrefixOk(queues[c]) && !queues[c].failed && Played(answers, deliveries)
    {
      QueuesApart(queues, c, Asks(), Now());
    }

    lemma EvidenceSays(c: string, e: Evidence, checkpoint: nat, w: World)
      requires EvidenceOk(c, SerialOf(names, c), e, checkpoint, w)
      ensures e.row.serial == SerialOf(names, c) && checkpoint <= e.since <= w.revision
    {
    }

    /** The drain works until it has to wait, fails, or has nothing left. */
    method Run(c: string, now: int)
      requires Core() && c in queues && OthersWait(queues, c, gestures, lost)
      requires Fit(queues, maxPending, maxChannels) && pendingCount <= maxTotal
      modifies `queues, `home, `answers, `pendingCount, `permissions, `gestures, `gestureCounter, `begun, `lost,
        `ended, `deliveries
      ensures Valid() && Stand(old(answers), answers)
    {
      hide Core, NumbersOk, TalliesOk, Total, AnswersOk, OthersWait, AllWait, Stand;
      StandsStill(answers);
      while queues[c].pending != []
        invariant Core() && c in queues && OthersWait(queues, c, gestures, lost)
        invariant Fit(queues, maxPending, maxChannels) && pendingCount <= maxTotal && Stand(old(answers), answers)
        decreases |queues[c].pending|
      {
        ghost var before := answers;
        var goes := Turn(c, now);
        StandTwice(old(answers), before, answers);
        if !goes {
          return;
        }
      }
      Leave(c);
    }

    /** A queue that has run empty goes. */
    method Leave(c: string)
      requires Core() && c in queues && queues[c].pending == [] && OthersWait(queues, c, gestures, lost)
      modifies `queues, `ended
      ensures Core() && AllWait(queues, gestures, lost) && queues == old(queues) - {c}
      ensures ended == old(ended) + [old(queues[c])]
    {
      hide NumbersOk, TalliesOk, Total, AnswersOk, QueueOk, StateOk, FenceOk, GestureLogOk, Played;
      Ready(c);
      Retire(c);
    }

    /** A drain notes something; its queue stays as it is. */
    method Note(c: string, d: Drain)
      requires Valid() && c in queues
      requires d.checkpoint.Some? && DrainOk(c, Head(queues[c].pending), d, Asks(), Now())
      modifies `queues
      ensures Valid() && queues == old(queues)[c := old(queues[c]).(drain := d)]
    {
      hide NumbersOk, TalliesOk, Total, AnswersOk, AllInGestures, QueuesOkBut, FenceOk, PermissionsOk, EndedOk, LostOk,
        GestureLogOk, Played,
        NeedMet,
        GesturesOk, DrainOk;
      var q := queues[c].(drain := d);
      QueuesApart(queues, c, Asks(), Now());
      QueuePut(queues, c, q, Asks(), Now());
      TotalUpdate(queues, c, q);
      NumbersSame(queues, home, answers, submitted, c, q);
      TalliesSame(queues, ended, answers, packets, c, q);
      queues := queues[c := q];
    }

    lemma DrainIsOk(c: string)
      requires Valid() && c in queues
      ensures queues[c].pending != [] && Head(queues[c].pending).Some?
      ensures queues[c].drain.checkpoint.Some? && queues[c].drain.checkpoint.value <= access.revision
      ensures DrainOk(c, Head(queues[c].pending), queues[c].drain, Asks(), Now())
      ensures ReadOk(c, queues[c].drain.read, queues[c].drain.checkpoint.value, Asks(), Now())
      ensures AllGuarded(c, queues[c].pending) && NeedMet(c, Head(queues[c].pending), gestures, lost)
    {
      QueuesApart(queues, c, Asks(), Now());
      assert Waits(c, queues[c], gestures, lost);
    }

    // ---------------------------------------------------------------- the authorization of a first packet

    /** Whether an authorization is under way that has not come to a verdict. */
    predicate Undecided(c: string)
      reads `queues
    {
      c in queues && queues[c].drain.verdict.Open?
    }

    method TimesOut(c: string, now: int)
      requires Valid() && Undecided(c) && queues[c].pending != [] && now >= queues[c].pending[0].deadline
      modifies `queues
      ensures Valid() && c in queues && queues[c].drain.verdict == Turned(TimedOut)
    {
      hide Core, AllWait, Fit, ReadOk;
      DrainIsOk(c);
      Note(c, queues[c].drain.(verdict := Turned(TimedOut)));
    }

    /** The lookup of the row begins. */
    method ReadStarts(c: string)
      requires Valid() && Undecided(c) && queues[c].drain.serial.Some? && queues[c].drain.read.NotRead?
      modifies `queues
      ensures Valid() && c in queues && queues[c].drain.read == Reading(access.revision)
    {
      hide Core, AllWait, Fit, Bound;
      DrainIsOk(c);
      Note(c, queues[c].drain.(read := Reading(access.revision)));
    }

    method ReadFails(c: string)
      requires Valid() && c in queues && queues[c].drain.read.Reading? && queues[c].drain.verdict.Open?
      modifies `queues
      ensures Valid() && c in queues && queues[c].drain.read == Failed
    {
      hide Core, AllWait, Fit, Bound;
      DrainIsOk(c);
      Note(c, queues[c].drain.(read := Failed));
    }

    // ---------------------------------------------------------------- what the fence is told

    /** The name a device gives its channel is its own. */
    predicate NamesAgree(channel: Option<string>, serial: string) {
      channel.Some? && !IsIos(channel.value) ==> serial == SerialOf(names, channel.value)
    }

    method Updated(serial: string, change: Change)
      requires Valid() && NamesAgree(access.NewChannel(change), serial)
      modifies access
      ensures Valid() && InvalidatedSince(access.log, serial, old(access.revision))
      ensures access.Noted(serial, change, old(access.observations), old(access.mentions), old(access.overflowed),
                           old(access.revision))
    {
      hide access.Noted, StateOk, NumbersOk, TalliesOk, Total, GesturesOk, AllInGestures, EndedOk, LostOk, GestureLogOk,
        Played, MentionsOk, Agrees, Moved, Grown,
        InvalidatedSince,
        EverythingSince, LogOk, AllWait, Fit,
        OnlyAdds, ChannelsAgree;
      ghost var w := Now();
      access.Update(serial, change);
      LaterOn(w, Now());
      StateStays(queues, permissions, answers, Asks(), w, Now());
      AgreesStill(old(access.channels), access.channels, access.NewChannel(change), serial, names);
    }

    method Joined(serial: string, usage: Option<string>, owner: Option<Owner>)
      requires Valid()
      modifies access
      ensures Valid() && InvalidatedSince(access.log, serial, old(access.revision))
      ensures access.Noted(serial, NO_CHANGE.(usage := Some(Known(usage)), owner := if owner.Some? then Some(owner) else None),
                           old(access.observations), old(access.mentions), old(access.overflowed), old(access.revision))
    {
      hide access.Noted, StateOk, NumbersOk, TalliesOk, Total, GesturesOk, AllInGestures, EndedOk, LostOk, GestureLogOk,
        Played, MentionsOk, Agrees, Moved, Grown,
        InvalidatedSince,
        EverythingSince, LogOk, AllWait, Fit,
        OnlyAdds, ChannelsAgree;
      ghost var w := Now();
      access.Joined(serial, usage, owner);
      LaterOn(w, Now());
      StateStays(queues, permissions, answers, Asks(), w, Now());
      AgreesStill(old(access.channels), access.channels, None, serial, names);
    }

    method Released(serial: string)
      requires Valid()
      modifies access
      ensures Valid() && InvalidatedSince(access.log, serial, old(access.revision))
      ensures access.Noted(serial, NO_CHANGE.(usage := Some(None), owner := Some(None)), old(access.observations),
                           old(access.mentions), old(access.overflowed), old(access.revision))
    {
      hide access.Noted, StateOk, NumbersOk, TalliesOk, Total, GesturesOk, AllInGestures, EndedOk, LostOk, GestureLogOk,
        Played, MentionsOk, Agrees, Moved, Grown,
        InvalidatedSince,
        EverythingSince, LogOk, AllWait, Fit,
        OnlyAdds, ChannelsAgree;
      ghost var w := Now();
      access.Released(serial);
      LaterOn(w, Now());
      StateStays(queues, permissions, answers, Asks(), w, Now());
      AgreesStill(old(access.channels), access.channels, None, serial, names);
    }

    method Invalidated(serial: Option<string>)
      requires Valid()
      modifies access
      ensures Valid()
      ensures if serial.Some? then InvalidatedSince(access.log, serial.value, old(access.revision))
              else EverythingSince(access.log, old(access.revision))
    {
      hide StateOk, NumbersOk, TalliesOk, Total, GesturesOk, AllInGestures, EndedOk, LostOk, GestureLogOk, Played,
        MentionsOk, Agrees, Moved, Grown,
        InvalidatedSince,
        EverythingSince, LogOk, AllWait, Fit,
        ChannelsAgree;
      ghost var w := Now();
      if serial.Some? {
        access.Invalidate(serial.value);
      } else {
        access.InvalidateAll();
      }
      LaterOn(w, Now());
      StateStays(queues, permissions, answers, Asks(), w, Now());
    }

    method DoubtAll()
      requires FenceOk()
      modifies access
      ensures FenceOk() && Moved(old(Now()), Now()) && EverythingSince(access.log, old(access.revision))
      ensures old(Now()).revision == old(access.revision) < access.revision && Now().log == access.log
    {
      hide Grown, InvalidatedSince, EverythingSince, LogOk, MentionsOk, MissesOk, ChannelsAgree, Fences, Settled, Moved;
      access.InvalidateAll();
    }

    /** The user joins or leaves groups: nothing decided before counts any more. */
    method ChangeGroups(groups': set<string>)
      requires Valid()
      modifies access, `groups, `reigns
      ensures reigns == old(reigns) + [Reign(access.revision, groups')]
      ensures Valid() && groups == groups' && EverythingSince(access.log, old(access.revision))
    {
      hide StateOk, NumbersOk, Total, GesturesOk, AllInGestures, EndedOk, LostOk, GestureLogOk, Played, MentionsOk,
        Agrees, Moved, Grown, InvalidatedSince, EverythingSince, LogOk, AllWait, Fit, ChannelsAgree, Fences, Settled,
        InForce, TalliesOk, ReignsOk, FenceOk, Now;
      ghost var w := Now();
      DoubtAll();
      StateStaysDoubted(queues, permissions, answers, Asks(), Reign(access.revision, groups'), w, Now());
      ReignBegins(reigns, Reign(access.revision, groups'));
      groups, reigns := groups', reigns + [Reign(access.revision, groups')];
    }

    /** A read that no living drain waits for comes back. */
    method StrayRead(device: Device)
      requires Valid()
      modifies access
      ensures Valid()
    {
      var _ := Snapshot(device);
    }

    // ---------------------------------------------------------------- from the serial to the verdict

    /** An iPhone's channel has its serial in its name; another's is known, or the lookup finds the device, unless
        it was missed a moment ago for the same groups. */
    predicate CanBeFound(c: string, found: Option<Device>, now: int)
      reads access, `groups
    {
      || IsIos(c) || c in access.channels
      || (&& found.Some? && found.value.channel == Some(c)
          && !(c in access.misses && now < access.misses[c].until && access.misses[c].groups == groups))
    }

    /** The serial of a channel: its own, a remembered one, or the one a lookup found. */
    method FindSerial(c: string, found: Option<Device>, started: nat, now: int) returns (serial: Option<string>)
      requires Valid() && started <= access.revision
      requires found.Some? && found.value.channel == Some(c) ==> NamesAgree(Some(c), found.value.serial)
      modifies access
      ensures Valid() && old(access.revision) <= access.revision
      ensures serial.Some? ==> serial.value == SerialOf(names, c) && Bound(c, old(access.revision), Now())
      ensures serial.Some? <==> old(CanBeFound(c, found, now))
    {
      hide StateOk, NumbersOk, TalliesOk, Total, GesturesOk, AllInGestures, EndedOk, LostOk, GestureLogOk, Played,
        MentionsOk, Agrees, Moved, Grown,
        InvalidatedSince,
        EverythingSince, LogOk, AllWait, Fit,
        ChannelsAgree, OnlyAdds;
      ghost var w := Now();
      if IsIos(c) {
        return Some(c[4..]);
      }
      if c in access.channels {
        KnownAgrees(access.channels, names, c);
        return Some(access.channels[c]);
      }
      if access.Missed(c, groups, now) {
        return None;
      }
      serial := access.ResolveCompletes(c, groups, started, found, now);
      LaterOn(w, Now());
      StateStays(queues, permissions, answers, Asks(), w, Now());
      if serial.Some? {
        AgreesStill(old(access.channels), access.channels, Some(c), serial.value, names);
      }
    }

    /** The channel has a serial, and that could be one; no command goes to a device once there was no room for an
        observation. */
    predicate MayBeResolved(c: string, event: Option<string>, found: Option<Device>, now: int)
      reads access, `groups
    {
      && event.Some? && (IsDeviceCommand(event.value) ==> !access.overflowed && |c| <= 256)
      && CanBeFound(c, found, now) && IsValidSerial(SerialOf(names, c))
    }

    method Resolve(c: string, found: Option<Device>, started: nat, now: int)
      requires Valid() && Undecided(c) && queues[c].drain.serial.None? && started <= access.revision
      requires found.Some? && found.value.channel == Some(c) ==> NamesAgree(Some(c), found.value.serial)
      modifies access, `queues
      ensures Valid() && c in queues
      ensures if old(MayBeResolved(c, Head(queues[c].pending), found, now)) then
                queues == old(queues)[c := old(queues[c]).(drain := old(queues[c]).drain.(serial := Some(SerialOf(names, c))))]
              else
                queues == old(queues)[c := old(queues[c]).(drain := old(queues[c]).drain.(verdict := Turned(Denied)))]
    {
      hide Core, AllWait, Fit, ReadOk, Bound, IsIos, EverythingSince, SerialOf, NamesAgree, IsDeviceCommand, CanBeFound,
        IsValidSerial;
      DrainIsOk(c);
      if IsDeviceCommand(queues[c].pending[0].event.value) && (access.overflowed || |c| > 256) {
        Note(c, queues[c].drain.(verdict := Turned(Denied)));
        return;
      }
      ghost var since := access.revision;
      var serial := FindSerial(c, found, started, now);
      DrainIsOk(c);
      if serial.None? || !IsValidSerial(serial.value) {
        Note(c, queues[c].drain.(verdict := Turned(Denied)));
      } else {
        BoundEarlier(c, queues[c].drain.checkpoint.value, since, Now());
        Note(c, queues[c].drain.(serial := serial));
      }
    }

    /** The identity is that of the row's device, channel and group, of its owner and of the session. */
    static ghost predicate BelongsTo(identity: Identity, row: Device, session: nat) {
      && identity.Identity? && identity.session == session
      && identity.serial == row.serial && identity.channel == row.channel && identity.group == row.group
      && (match row.owner
          case None => identity.email.None? && identity.reservation.None?
          case Some(owner) => identity.email == owner.email && identity.reservation == owner.reservation)
    }

    /** The row a drain waits for comes back. */
    method ReadCompletes(c: string, device: Option<Device>)
      requires Valid() && c in queues && queues[c].drain.read.Reading?
      requires device.Some? ==> device.value.serial == SerialOf(names, c)
      modifies access, `queues
      ensures Valid() && c in queues && queues[c].drain.read.Done?
      ensures queues[c].drain.read.since == old(queues[c].drain.read.since)
      ensures device.None? ==> queues == old(queues)[c := old(queues[c]).(drain := old(queues[c]).drain.(
                read := Done(old(queues[c]).drain.read.since, None)))]
      // The row counts as it is worth, and whoever it shows as the owner is the one to whom the inputs belong.
      ensures device.Some? ==>
        var agrees := !access.overflowed && Agrees(device.value, SaidOf(old(access.mentions), device.value.serial));
        var seen := device.value.(ready := device.value.ready && agrees);
        && queues == old(queues)[c := old(queues[c]).(drain :=
             old(queues[c]).drain.(read := queues[c].drain.read, identity := queues[c].drain.identity))]
        && queues[c].drain.read.device == Some(seen)
        && BelongsTo(queues[c].drain.identity, device.value, access.Session(c))
    {
      hide Core, AllWait, Fit, Bound, EverythingSince, SerialOf, InvalidatedSince, Agrees, Settled, Asks;
      DrainIsOk(c);
      if device.None? {
        Note(c, queues[c].drain.(read := Done(queues[c].drain.read.since, None)));
        return;
      }
      var seen := Snapshot(device.value);
      TakeRow(c, seen);
    }

    /** The drain keeps the row, and whose device it shows. */
    method TakeRow(c: string, seen: Device)
      requires Valid() && c in queues && queues[c].drain.read.Reading?
      requires seen.serial == SerialOf(names, c) && (seen.ready ==> Settled(Now(), seen.serial))
      modifies `queues
      ensures Valid() && c in queues && queues[c].drain.read == Done(old(queues[c].drain.read.since), Some(seen))
      ensures queues == old(queues)[c := old(queues[c]).(drain :=
                old(queues[c]).drain.(read := queues[c].drain.read, identity := queues[c].drain.identity))]
      ensures BelongsTo(queues[c].drain.identity, seen, access.Session(c))
    {
      hide Core, AllWait, Fit, Bound, EverythingSince, SerialOf, InvalidatedSince;
      DrainIsOk(c);
      Note(c, queues[c].drain.(
        read := Done(queues[c].drain.read.since, Some(seen)),
        identity := Identity(seen.serial, seen.channel, seen.group, if seen.owner.Some? then seen.owner.value.email else None,
                             if seen.owner.Some? then seen.owner.value.reservation else None, access.Session(c))));
    }

    lemma RowAgreesUnlessObserved(device: Device)
      requires Valid()
      ensures Settled(Now(), device.serial) ==> !access.overflowed && Agrees(device, SaidOf(access.mentions, device.serial))
    {
      hide StateOk, NumbersOk, TalliesOk, Total, GesturesOk, AllInGestures, EndedOk, LostOk, GestureLogOk, Played,
        MentionsOk, LogOk, Agrees, AllWait, Fit, ReignsOk, ChannelsAgree;
      access.RowAgreesIff(device);
    }

    method Snapshot(device: Device) returns (seen: Device)
      requires Valid()
      modifies access
      ensures Valid()
      ensures seen == if !access.overflowed && Agrees(device, SaidOf(old(access.mentions), device.serial)) then device
                      else device.(ready := false)
      ensures seen.ready ==> Settled(Now(), device.serial)
      ensures !seen.ready ==> !device.ready || !old(Settled(Now(), device.serial))
      ensures old(access.revision) <= access.revision
    {
      hide StateOk, NumbersOk, TalliesOk, Total, GesturesOk, AllInGestures, EndedOk, LostOk, GestureLogOk, Played,
        MentionsOk, Agrees, Moved, Grown,
        InvalidatedSince,
        EverythingSince, LogOk, AllWait, Fit,
        ChannelsAgree;
      ghost var w := Now();
      RowAgreesUnlessObserved(device);
      seen := access.Snapshot(device);
      LaterOn(w, Now());
      StateStays(queues, permissions, answers, Asks(), w, Now());
    }

    /** The row, if it came, is judged. */
    method Authorize(c: string)
      requires Valid() && Undecided(c) && queues[c].drain.serial.Some?
      requires queues[c].drain.read.Done? || queues[c].drain.read.Failed?
      modifies access, `queues
      ensures Valid() && c in queues && !queues[c].drain.verdict.Open?
      ensures queues[c].drain.verdict == Turned(Unavailable) <==> old(queues[c].drain.read.Failed?)
      ensures queues[c].drain.verdict.Allowed? ==> (
        && queues[c].drain.verdict.groups == groups
        && old(queues[c].drain.read.Done? && queues[c].drain.read.device.Some? && Head(queues[c].pending).Some?
               && Permits(Head(queues[c].pending).value, c, queues[c].drain.read.device.value, user, groups)
               && (IsInput(Head(queues[c].pending).value) ==> access.Source(c) == queues[c].drain.read.device.value.serial)))
      ensures old(queues[c].drain.read.Done? && queues[c].drain.read.device.Some? && Head(queues[c].pending).Some?
                  && Settled(Now(), queues[c].drain.read.device.value.serial)
                  && access.Source(c) == queues[c].drain.read.device.value.serial
                  && Permits(Head(queues[c].pending).value, c, queues[c].drain.read.device.value, user, groups))
        ==> queues[c].drain.verdict == Allowed(groups)
    {
      hide Core, AllWait, Fit, Permits, DrainOk, Settled;
      DrainIsOk(c);
      var verdict := Judge(c);
      Note(c, queues[c].drain.(verdict := verdict));
    }

    /** A failed read makes the device unavailable; a row that permits the packet allows it, if it is settled and that
        of the device the channel leads to; and nothing else does. */
    ghost predicate Judged(verdict: Verdict, c: string, head: Option<string>, read: Read, before: World, source: string)
      reads `groups
    {
      && (verdict == Turned(Unavailable) <==> read.Failed?)
      && (verdict.Allowed? ==>
            && verdict.groups == groups && read.Done? && read.device.Some? && head.Some?
            && Permits(head.value, c, read.device.value, user, groups)
            && (IsInput(head.value) ==> source == read.device.value.serial))
      && (read.Done? && read.device.Some? && head.Some? && Settled(before, read.device.value.serial)
          && source == read.device.value.serial && Permits(head.value, c, read.device.value, user, groups)
          ==> verdict == Allowed(groups))
    }

    /** What the row is worth to the first packet. */
    method Judge(c: string) returns (verdict: Verdict)
      requires Valid() && c in queues && queues[c].drain.verdict.Open? && queues[c].drain.serial.Some?
      requires queues[c].drain.read.Done? || queues[c].drain.read.Failed?
      modifies access
      ensures c in queues && Valid() && !verdict.Open?
      ensures DrainOk(c, Head(queues[c].pending), queues[c].drain.(verdict := verdict), Asks(), Now())
      ensures Judged(verdict, c, Head(queues[c].pending), queues[c].drain.read, old(Now()), old(access.Source(c)))
    {
      hide Core, AllWait, Fit, EverythingSince, SerialOf, Bound, IsIos, IsInput, IsDeviceCommand, Agrees;
      DrainIsOk(c);
      verdict := Turned(Denied);
      var event := queues[c].pending[0].event.value;
      if queues[c].drain.read.Failed? {
        verdict := Turned(Unavailable);
      } else if queues[c].drain.read.device.Some? {
        var device := queues[c].drain.read.device.value;
        var seen, source := device, access.Source(c);
        if IsDeviceCommand(event) {
          seen := Snapshot(device);
        }
        if (IsDeviceCommand(event) ==> Usable(seen, c, groups))
           && (IsIos(c) ==> AllowsIos(event, c, device, user, groups))
           && (IsInput(event) ==> source == device.serial && OwnedBy(device, user))
        {
          verdict := Allowed(groups);
          AllowedIsPermitted(event, c, device, seen, user, groups);
        }
        DrainIsOk(c);
      }
    }

    // ---------------------------------------------------------------- after the verdict

    /** What was allowed may be allowed again for a while, if it was an input. */
    method Cache(c: string, p: Permission)
      requires Valid() && PermissionOk(c, p, Asks(), Now())
      modifies `permissions
      ensures Valid() && c in permissions && permissions[c] == p
    {
      hide Asks, Now, QueuesOk, NumbersOk, TalliesOk, Total, GesturesOk, AllInGestures, EndedOk, LostOk, GestureLogOk,
        Played, AllWait, Fit,
        FenceOk, PermissionOk,
        PermissionsOk, AnswersOk;
      permissions := WithPermission(c, p);
    }

    /** The permissions with one more, and one less if there is no room. */
    method WithPermission(c: string, p: Permission) returns (more: map<string, Permission>)
      requires PermissionsOk(permissions, Asks(), Now()) && PermissionOk(c, p, Asks(), Now())
      ensures PermissionsOk(more, Asks(), Now()) && c in more && more[c] == p
    {
      hide Asks, Now, PermissionOk;
      more := permissions[c := p];
      assert more.Keys == permissions.Keys + {c} && |more.Keys| == |more| && |permissions.Keys| == |permissions|;
      if |more| > MAX_CACHED {
        AnotherKey(more, c);
        var oldest :| oldest in more && oldest != c;
        OneFewer(more, oldest);
        more := more - {oldest};
      }
    }

    lemma DrainStillWaits(c: string)
      requires Valid() && c in queues
      ensures Core() && CoreBut(c) && PrefixOk(queues[c]) && !queues[c].failed && OthersWait(queues, c, gestures, lost)
      ensures Played(answers, deliveries)
    {
      Ready(c);
    }

    method GiveUp(c: string, reason: Reason)
      requires Valid() && c in queues
      modifies `queues, `home, `answers, `pendingCount, `permissions, `gestures, `ended
      ensures Valid() && Stand(old(answers), answers)
      ensures queues == old(queues) - {c} && AllRefused(old(queues[c].pending), reason, answers)
    {
      hide Core, CoreBut, AllWait, OthersWait, Stand, Fit, PrefixOk, AllRefused;
      DrainStillWaits(c);
      FailChannel(c, reason);
      FitWithout(old(queues), c, maxPending, maxChannels);
    }

    /** Permissions changed while the verdict was found: it is asked for again, if there is time. */
    method Retry(c: string, now: int)
      requires Valid() && c in queues
      modifies `queues, `home, `answers, `pendingCount, `permissions, `gestures, `gestureCounter, `begun, `lost,
        `ended, `deliveries
      requires queues[c].pending != []
      ensures Valid() && Stand(old(answers), answers)
      ensures now >= old(queues[c].pending[0].deadline) ==> AllRefused(old(queues[c].pending), TimedOut, answers)
    {
      hide Core, CoreBut, AllWait, OthersWait, EverythingSince, SerialOf, Bound, NeedMet, Stand, Fit, PrefixOk,
        AllRefused, GroupsHold,
        AllGuarded;
      StandsStill(answers);
      DrainIsOk(c);
      Note(c, queues[c].drain.(read := NotRead, commandClass := None, serial := None, verdict := Open));
      if now >= queues[c].pending[0].deadline {
        GiveUp(c, TimedOut);
      } else {
        DrainStillWaits(c);
        Run(c, now);
      }
    }

    /** The authorization of the first packet has come to a verdict, and the drain goes on. */
    /** A verdict is looked at. */
    ghost method Tick(now: int)
      requires Valid()
      modifies `clock
      ensures Valid() && clock == if now < old(clock) then old(clock) else now
    {
      hide StateOk, NumbersOk, TalliesOk, Total, GesturesOk, AllInGestures, EndedOk, LostOk, GestureLogOk, Played,
        FenceOk, AllWait, Fit, ReignsOk;
      ghost var later := if now < clock then clock else now;
      StateStaysLater(queues, permissions, answers, Asks(), later + cacheTime, Now());
      clock := later;
    }

    method Continue(c: string, now: int)
      requires Valid() && c in queues && !queues[c].drain.verdict.Open?
      requires queues[c].pending != [] && Head(queues[c].pending).Some? && queues[c].drain.checkpoint.Some?
      modifies `clock, `queues, `home, `answers, `pendingCount, `permissions, `gestures, `gestureCounter, `begun, `lost,
        `ended, `deliveries
      ensures Valid() && Stand(old(answers), answers)
      ensures old(access.Current(c, queues[c].drain.checkpoint.value)) ==>
        Answered(old(queues[c]), c, old(GestureAllows(c, queues[c].pending[0].event.value, queues[c].drain.identity)),
                 Objection(old(Mismatched(c, queues[c].pending[0].event.value, queues[c].drain.identity))), answers)
      ensures !old(access.Current(c, queues[c].drain.checkpoint.value)) && now >= old(queues[c].pending[0].deadline) ==>
        AllRefused(old(queues[c].pending), TimedOut, answers)
    {
      hide Core, CoreBut, AllWait, OthersWait, EverythingSince, SerialOf, IsIos, IsInput, IsDeviceCommand, ReadOk,
        NeedMet, Stand,
        Fit, PrefixOk, AllRefused, GroupsHold, Permits, Bound, AllGuarded;
      StandsStill(answers);
      Tick(now);
      DrainIsOk(c);
      var d, event := queues[c].drain, queues[c].pending[0].event.value;
      if !access.Current(c, d.checkpoint.value) {
        Retry(c, now);
        return;
      }
      var expires := if d.expires.Never? then now + cacheTime else d.expires.time;
      Note(c, d.(expires := At(expires)));
      if d.verdict.Turned? {
        GiveUp(c, if Mismatched(c, event, d.identity) then Denied else d.verdict.reason);
        return;
      }
      PassAllowed(c, expires, now);
    }

    method PassAllowed(c: string, expires: int, now: int)
      requires expires <= clock + cacheTime
      requires Valid() && c in queues && queues[c].drain.verdict.Allowed?
      requires queues[c].pending != [] && Head(queues[c].pending).Some?
      requires queues[c].drain.checkpoint.Some? && access.Current(c, queues[c].drain.checkpoint.value)
      modifies `queues, `home, `answers, `pendingCount, `permissions, `gestures, `gestureCounter, `begun, `lost,
        `ended, `deliveries
      ensures Valid() && Stand(old(answers), answers)
      ensures Answered(old(queues[c]), c, old(GestureAllows(c, queues[c].pending[0].event.value, queues[c].drain.identity)),
                       Objection(old(Mismatched(c, queues[c].pending[0].event.value, queues[c].drain.identity))), answers)
    {
      hide AllRefused, Core, CoreBut, AllWait, OthersWait, NeedMet, Stand, Permits, PermissionOk, FenceOk, Settled,
        SerialOf,
        InvalidatedSince, Fit, PrefixOk, IsInput;
      var d, event := queues[c].drain, queues[c].pending[0].event.value;
      AllowedStillHolds(c, expires);
      DrainIsOk(c);
      var e := Evidence(d.read.device.value, d.read.since);
      if IsInput(event) {
        Cache(c, Permission(d.checkpoint.value, expires, d.subscribed, d.identity, e));
      }
      DrainStillWaits(c);
      var goes := Let(c, e, d.checkpoint.value, d.identity);
      if goes {
        ghost var before := answers;
        FitShorter(old(queues), c, queues[c], maxPending, maxChannels);
        Run(c, now);
        StandTwice(old(answers), before, answers);
        DeliveredStands(before, answers, old(queues[c].pending[0]), c, e, d.identity);
      } else {
        FitWithout(old(queues), c, maxPending, maxChannels);
      }
    }

    /** What was allowed under a checkpoint that is current is still permitted, and may be allowed again. */
    lemma AllowedStillHolds(c: string, expires: int)
      requires expires <= clock + cacheTime
      requires Valid() && c in queues && queues[c].drain.verdict.Allowed?
      requires queues[c].pending != [] && Head(queues[c].pending).Some?
      requires queues[c].drain.checkpoint.Some? && access.Current(c, queues[c].drain.checkpoint.value)
      ensures queues[c].drain.read.Done? && queues[c].drain.read.device.Some?
      ensures var d, event := queues[c].drain, queues[c].pending[0].event.value;
        var e := Evidence(d.read.device.value, d.read.since);
        && e.row.serial == SerialOf(names, c) && d.checkpoint.value <= e.since <= access.revision
        && Permits(event, c, e.row, user, groups)
        && Settled(Now(), e.row.serial) && !InvalidatedSince(access.log, e.row.serial, d.checkpoint.value)
        && (IsInput(event) ==> PermissionOk(c, Permission(d.checkpoint.value, expires, d.subscribed, d.identity, e), Asks(), Now()))
    {
      hide Core, AllWait, EverythingSince, SerialOf, Bound, IsIos, IsInput, IsDeviceCommand, InvalidatedSince, NeedMet,
        EvidenceOk,
        Permits, PermitsInput, FenceOk, OthersWait, Settled;
      DrainIsOk(c);
      FenceIsOk();
      var d, event := queues[c].drain, queues[c].pending[0].event.value;
      var e := Evidence(d.read.device.value, d.read.since);
      CurrentSettles(c, e, d.checkpoint.value);
      EvidenceSays(c, e, d.checkpoint.value, Now());
      if IsInput(event) {
        InputsAreAlike(event, c, e.row, user, groups);
      }
    }

    lemma FenceIsOk()
      requires Valid()
      ensures FenceOk()
    {
    }

    // ---------------------------------------------------------------- a packet arrives

    /** A packet gets its answer without ever being queued. */
    method AnswerAtOnce(ghost answer: Answer, ghost sent: Sent)
      requires Valid() && AnswerOk(answer, Asks(), Now()) && InGesture(answer, begun) && AnswerFits(answer, sent)
      requires !answer.Delivered?
      modifies `answers, `submitted, `packets
      ensures Valid() && submitted == old(submitted) + 1 && answers == old(answers)[old(submitted) := answer]
      ensures Stand(old(answers), answers)
      ensures packets == old(packets) + [sent]
    {
      hide Asks, Now, QueuesOk, NumbersOk, TalliesOk, Total, GesturesOk, PermissionsOk, EndedOk, LostOk, GestureLogOk,
        Played, AllWait, Fit,
        FenceOk,
        InGesture, AnswerOk;
      NumbersAnswered(queues, home, answers, submitted, answer);
      PlayedBeside(answers, deliveries, submitted, answer);
      TalliesAnswered(queues, ended, answers, packets, sent, answer);
      answers := answers[submitted := answer];
      submitted := submitted + 1;
      packets := packets + [sent];
    }

    method Push(c: string, p: Packet)
      requires Valid() && p.id == submitted
      requires IsIos(c) || (p.event.Some? && IsDeviceCommand(p.event.value))
      modifies `queues, `home, `pendingCount, `submitted, `packets
      ensures Core() && OthersWait(queues, c, gestures, lost) && (c in old(queues) ==> AllWait(queues, gestures, lost))
      ensures pendingCount == old(pendingCount) + 1 && submitted == old(submitted) + 1
      ensures packets == old(packets) + [Sent(p.event, Some(c))]
      ensures c in queues && queues == old(queues)[c := Pushed(old(queues), c, p)]
    {
      hide Asks, Now, NumbersOk, TalliesOk, Total, AnswersOk, AllInGestures, FenceOk, PermissionsOk, EndedOk, LostOk,
        GestureLogOk, Played,
        QueuesOk,
        QueuesOkBut, QueueOk, GesturesOk, IsIos, IsDeviceCommand, AllWait, OthersWait, Pushed, Fit;
      var q := Pushed(queues, c, p);
      PushedWaits(queues, c, p, gestures, lost);
      NothingElse(queues, c, Asks(), Now());
      QueuePushed(queues, c, p, Asks(), Now());
      QueuePut(queues, c, q, Asks(), Now());
      TotalUpdate(queues, c, q);
      PushedLength(queues, c, p);
      NumbersPush(queues, home, answers, submitted, c, q);
      TalliesPush(queues, ended, answers, packets, c, p);
      home, submitted, packets := home[submitted := c], submitted + 1, packets + [Sent(p.event, Some(c))];
      queues := queues[c := q];
      pendingCount := pendingCount + 1;
    }

    method Overflow(c: string)
      requires Core() && c in queues && OthersWait(queues, c, gestures, lost)
      modifies `queues, `home, `answers, `pendingCount, `permissions, `gestures, `ended
      ensures Core() && AllWait(queues, gestures, lost) && Stand(old(answers), answers)
      ensures queues == old(queues) - {c} && pendingCount <= old(pendingCount) - |old(queues[c].pending)|
      ensures AllRefused(old(queues[c].pending), LimitExceeded, answers)
    {
      hide Core, CoreBut, AllWait, OthersWait, Stand, PrefixOk, AllRefused;
      Ready(c);
      FailChannel(c, LimitExceeded);
    }

    method Enqueue(event: Option<string>, c: string, now: int)
      requires Valid() && (c in queues || |queues| < maxChannels)
      requires IsIos(c) || (event.Some? && IsDeviceCommand(event.value))
      modifies `queues, `home, `answers, `pendingCount, `permissions, `gestures, `gestureCounter, `begun, `lost,
        `ended, `deliveries, `submitted, `packets
      ensures Valid() && submitted == old(submitted) + 1 && Stand(old(answers), answers)
      ensures packets == old(packets) + [Sent(event, Some(c))]
      ensures var q := Pushed(old(queues), c, Packet(old(submitted), event, now + timeout));
        if |q.pending| > maxPending || old(pendingCount) >= maxTotal then
          queues == old(queues) - {c} && AllRefused(q.pending, LimitExceeded, answers)
        else c in old(queues) ==> queues == old(queues)[c := q]
    {
      hide Core, CoreBut, AllWait, OthersWait, IsIos, IsDeviceCommand, Stand, Fit, PrefixOk, AllRefused;
      StandsStill(answers);
      var start, p := c !in queues, Packet(submitted, event, now + timeout);
      Push(c, p);
      if |queues[c].pending| > maxPending || pendingCount > maxTotal {
        Overflow(c);
        PushedAway(old(queues), c, p);
        FitWithout(old(queues), c, maxPending, maxChannels);
      } else {
        FitNow(old(queues), c, Pushed(old(queues), c, p), maxPending, maxChannels);
        if start {
          Run(c, now);
        }
      }
    }

    method Submit(event: Option<string>, channel: Option<string>, now: int)
      requires Valid()
      modifies `queues, `home, `answers, `pendingCount, `permissions, `gestures, `gestureCounter, `begun, `lost,
        `ended, `deliveries, `submitted, `packets
      ensures Valid() && submitted == old(submitted) + 1 && Stand(old(answers), answers)
      ensures packets == old(packets) + [Sent(event, channel)]
      ensures !Guarded(event, channel) ==> answers == old(answers)[old(submitted) := Unguarded(event, channel)]
      ensures Guarded(event, channel) && (channel.None? || |channel.value| > 256) ==>
        answers == old(answers)[old(submitted) := Refused(Denied)]
      ensures Guarded(event, channel) && channel.Some? && |channel.value| <= 256 && channel.value !in old(queues) && |old(queues)| >= maxChannels ==>
        answers == old(answers)[old(submitted) := Refused(LimitExceeded)]
    {
      hide Core, AllWait, Fit, IsIos, IsDeviceCommand, Stand;
      if !Guarded(event, channel) {
        AnswerAtOnce(Unguarded(event, channel), Sent(event, channel));
      } else if channel.None? || |channel.value| > 256 {
        AnswerAtOnce(Refused(Denied), Sent(event, channel));
      } else if channel.value !in queues && |queues| >= maxChannels {
        AnswerAtOnce(Refused(LimitExceeded), Sent(event, channel));
      } else {
        Enqueue(event, channel.value, now);
      }
    }

    // ---------------------------------------------------------------- what holds in every run

    /** Every packet that passed as guarded was permitted by a row read under a checkpoint, and neither
        its device nor the user's groups were touched between the checkpoint and the delivery. */
    lemma DeliveriesArePermitted(n: nat)
      requires Valid() && n in answers && answers[n].Delivered?
      ensures var d := answers[n].delivery;
        && Permits(d.event, d.channel, d.evidence.row, user, d.groups) && d.settled
        && d.evidence.row.serial == SerialOf(names, d.channel)
        && d.checkpoint <= d.evidence.since <= d.at <= access.revision
        && n < |packets| && packets[n] == Sent(Some(d.event), Some(d.channel)) && d.groups == InForce(reigns, d.at)
        && forall j | 0 <= j < |access.log| && d.checkpoint < access.log[j].stamp <= d.at ::
             access.log[j].serial.Some? && access.log[j].serial.value != d.evidence.row.serial
    {
      hide Permits, SerialOf, InForce;
      assert AnswerOk(answers[n], Asks(), Now());
      assert AnswerFits(answers[n], packets[n]);
      forall j | 0 <= j < |access.log| && answers[n].delivery.checkpoint < access.log[j].stamp <= answers[n].delivery.at
        ensures !Concerns(access.log[j], answers[n].delivery.evidence.row.serial)
      {
      }
    }

    /** Only what needs no permission passes without one. */
    lemma UnguardedAreHarmless(n: nat)
      requires Valid() && n in answers && answers[n].Unguarded?
      ensures answers[n].event.Some? ==> !IsDeviceCommand(answers[n].event.value)
      ensures answers[n].channel.Some? ==> !IsIos(answers[n].channel.value)
      ensures n < |packets| && packets[n] == Sent(answers[n].event, answers[n].channel)
    {
      assert AnswerOk(answers[n], Asks(), Now());
      assert AnswerFits(answers[n], packets[n]);
    }

    /** What a channel may still send without being asked again: it was permitted by a row, and not longer ago than
        the cache time. */
    lemma PermissionsAreShort(c: string)
      requires Valid() && c in permissions
      ensures permissions[c].until <= clock + cacheTime
      ensures PermitsInput(c, permissions[c].evidence.row, user, permissions[c].groups)
      ensures permissions[c].evidence.row.serial == SerialOf(names, c)
      ensures permissions[c].checkpoint <= permissions[c].evidence.since
    {
      hide SerialOf, PermitsInput;
      assert PermissionOk(c, permissions[c], Asks(), Now());
    }

    /** A gesture never changes hands: its inputs all went to one channel under one identity. */
    lemma GesturesKeepTheirIdentity(m: nat, n: nat)
      requires Valid() && m in answers && n in answers && answers[m].Delivered? && answers[n].Delivered?
      requires IsInput(answers[m].delivery.event) && IsInput(answers[n].delivery.event)
      requires answers[m].delivery.gesture.Some? && answers[m].delivery.gesture == answers[n].delivery.gesture
      ensures answers[m].delivery.channel == answers[n].delivery.channel
      ensures answers[m].delivery.identity == answers[n].delivery.identity
    {
      assert InGesture(answers[m], begun) && InGesture(answers[n], begun);
    }

    /** The packets that passed, in the order in which they did, are those answered as delivered, each once. */
    lemma DeliveriesAreLogged(n: nat)
      requires Valid()
      ensures n in answers && answers[n].Delivered? <==> exists i :: 0 <= i < |deliveries| && deliveries[i].packet == n
      ensures forall i | 0 <= i < |deliveries| && deliveries[i].packet == n :: answers[n] == Delivered(deliveries[i])
      ensures forall i, j | 0 <= i < j < |deliveries| :: deliveries[i].packet != deliveries[j].packet
    {
      hide StateOk, NumbersOk, TalliesOk, GesturesOk, AllInGestures, EndedOk, LostOk, GestureLogOk, FenceOk, AllWait;
      if n in answers && answers[n].Delivered? {
        var i :| 0 <= i < |deliveries| && deliveries[i] == answers[n].delivery;
        assert deliveries[i].packet == n;
      }
    }

    /** The stop of a gesture is the last packet that passes under its number: whatever passes later, on its
        channel or elsewhere, belongs to another gesture or to none. */
    lemma StopEndsItsGesture(i: nat, j: nat)
      requires Valid() && i < j < |deliveries|
      requires deliveries[i].event == "input.gestureStop" && deliveries[i].gesture.Some?
      ensures deliveries[j].gesture != deliveries[i].gesture
    {
      hide StateOk, NumbersOk, TalliesOk, GesturesOk, AllInGestures, EndedOk, LostOk, Played, FenceOk, AllWait;
      assert Closes(deliveries[i].event);
    }

    /** Whatever passes under a number is the start of that gesture, the only one, or comes after it on the
        same channel. */
    lemma StartBeginsItsGesture(i: nat)
      requires Valid() && i < |deliveries| && deliveries[i].gesture.Some?
      ensures exists j :: 0 <= j <= i && deliveries[j].event == "input.gestureStart"
                       && deliveries[j].gesture == deliveries[i].gesture && deliveries[j].channel == deliveries[i].channel
      ensures deliveries[i].event == "input.gestureStart" ==>
        forall j | 0 <= j < |deliveries| && j != i && deliveries[j].event == "input.gestureStart" ::
          deliveries[j].gesture != deliveries[i].gesture
    {
      hide StateOk, NumbersOk, TalliesOk, GesturesOk, AllInGestures, EndedOk, LostOk, Played, FenceOk, AllWait;
      var log, number, c := deliveries[..i + 1], deliveries[i].gesture.value, deliveries[i].channel;
      assert Started(log, number, c);
      var j :| 0 <= j < |log| && Opens(log[j].event) && log[j].gesture == Some(number) && log[j].channel == c;
      assert deliveries[j] == log[j];
      if deliveries[i].event == "input.gestureStart" {
        assert Opens(deliveries[i].event);
        forall k | 0 <= k < |deliveries| && k != i && deliveries[k].event == "input.gestureStart"
          ensures deliveries[k].gesture != deliveries[i].gesture
        {
          assert Opens(deliveries[k].event);
        }
      }
    }

    /** The gesture a channel has is one whose start has passed on it and whose stop has not. */
    lemma OpenGesturesAreUnstopped(c: string)
      requires Valid() && c in gestures
      ensures exists i :: 0 <= i < |deliveries| && deliveries[i].event == "input.gestureStart"
                       && deliveries[i].gesture == Some(gestures[c].number) && deliveries[i].channel == c
      ensures forall i | 0 <= i < |deliveries| && deliveries[i].gesture == Some(gestures[c].number) ::
                deliveries[i].event != "input.gestureStop"
    {
      hide StateOk, NumbersOk, TalliesOk, GesturesOk, AllInGestures, EndedOk, LostOk, Played, FenceOk, AllWait, Framed,
        AfterStart;
      assert Started(deliveries, gestures[c].number, c) && !Stopped(deliveries, gestures[c].number);
      forall i | 0 <= i < |deliveries| && deliveries[i].gesture == Some(gestures[c].number)
        ensures deliveries[i].event != "input.gestureStop"
      {
        assert !Closes(deliveries[i].event);
      }
    }

    /** A touch passes outside any gesture if and only if the gesture of its channel was forgotten for want
        of room while the touch was the first in its queue. */
    lemma TouchesAreInGestures(n: nat)
      requires Valid() && n in answers && answers[n].Delivered? && NeedsGesture(answers[n].delivery.event)
      ensures answers[n].delivery.gesture.None? <==> answers[n].delivery.forgotten
    {
      assert AnswerOk(answers[n], Asks(), Now());
    }

    /** Every packet is waiting in exactly one queue or has its one answer; what waits is counted exactly
        and fits the limits. */
    lemma EveryPacketIsAccountedFor(n: nat)
      requires Valid()
      ensures n < submitted <==> (n in answers || exists c :: c in queues && n in Ids(queues[c].pending))
      ensures n in answers ==> forall c | c in queues :: n !in Ids(queues[c].pending)
      ensures forall c, d | c in queues && d in queues && n in Ids(queues[c].pending) && n in Ids(queues[d].pending) :: c == d
      ensures pendingCount == Total(queues) <= maxTotal && |queues| <= maxChannels
      ensures forall c | c in queues :: 0 < |queues[c].pending| <= maxPending
    {
      hide StateOk, GesturesOk, AllInGestures, EndedOk, LostOk, GestureLogOk, Played, FenceOk, NeedMet;
      assert forall c | c in queues :: PendingNumbersOk(queues[c].pending, c, home);
      assert forall c | c in queues :: Waits(c, queues[c], gestures, lost);
      if n in home {
        assert home[n] in queues && n in Ids(queues[home[n]].pending);
      }
    }

    /** What passed a queue, living or gone, was delivered, and is the beginning of what was put into it,
        in the order of submission. */
    lemma QueuesPassInOrder(q: Queue)
      requires Valid() && (q in ended || exists c :: c in queues && queues[c] == q)
      ensures q.passed <= q.taken && Rising(q.taken)
      ensures forall k | k in q.passed :: k in answers && answers[k].Delivered?
      ensures !q.failed ==> q.taken == q.passed + Ids(q.pending)
    {
      if q in ended {
        var i :| 0 <= i < |ended| && ended[i] == q;
        assert PrefixOk(ended[i]) && Told(ended[i], answers);
      } else {
        var c :| c in queues && queues[c] == q;
        Ready(c);
        assert Told(queues[c], answers);
      }
    }
  }
}
