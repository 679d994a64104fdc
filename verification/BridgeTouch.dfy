/** What the closures of touch messages make of the packets that are played: a tap or a swipe, when one
    finger goes down and up again. */
module BridgeTouches {
  import opened Wrappers
  import opened TouchMonitor

  datatype Point = Point(x: real, y: real)

  /** What a closure knows of its message; a point with a coordinate that is no finite number is `None`. */
  datatype Closure = Closure(kind: Kind, contact: int, point: Option<Point>, arrived: int)

  datatype Touch = Touch(from: Point, to: Point, started: int)

  datatype Screen = Screen(touch: Option<Touch>, multitouch: bool)

  const UNTOUCHED := Screen(None, false)

  datatype Command = Tap(at: Point) | Swipe(from: Point, to: Point, duration: int) | Other

  predicate OnScreen(p: Option<Point>) {
    p.Some? && 0.0 <= p.value.x <= 1.0 && 0.0 <= p.value.y <= 1.0
  }

  /** Less than 0.005 apart. */
  predicate Near(p: Point, q: Point) {
    (p.x - q.x) * (p.x - q.x) + (p.y - q.y) * (p.y - q.y) < 0.000025
  }

  function Duration(elapsed: int): (d: int)
    ensures 50 <= d <= 5000
  {
    if elapsed < 50 then 50 else if elapsed > 5000 then 5000 else elapsed
  }

  /** What running a closure does to what is known of the screen ... */
  function Next(s: Screen, c: Closure): Screen {
    match c.kind
    case Down =>
      if c.contact != 0 || s.touch.Some? then Screen(None, true)
      else if !s.multitouch && OnScreen(c.point) then s.(touch := Some(Touch(c.point.value, c.point.value, c.arrived)))
      else s
    case Move =>
      if s.touch.Some? && c.contact == 0 && OnScreen(c.point) then s.(touch := Some(s.touch.value.(to := c.point.value))) else s
    case Up => s.(touch := None)
    case Reset => UNTOUCHED
    case Commit => s
  }

  /** ... and what it orders. A swipe whose end arrived before its beginning has no known duration. */
  function Order(s: Screen, c: Closure): Option<Command> {
    if c.kind != Up || s.touch.None? || c.contact != 0 || s.multitouch then None
    else
      var t := s.touch.value;
      if Near(t.from, t.to) then Some(Tap(t.to))
      else if c.arrived < t.started then None
      else Some(Swipe(t.from, t.to, Duration(c.arrived - t.started)))
  }

  function ClosureOf(call: Call, closures: seq<Closure>): Option<Closure> {
    if call.Played? && call.packet.Input? && call.packet.callback < |closures| then Some(closures[call.packet.callback]) else None
  }

  function AfterCall(s: Screen, call: Call, closures: seq<Closure>): Screen {
    if !call.Played? then UNTOUCHED
    else if ClosureOf(call, closures).Some? then Next(s, ClosureOf(call, closures).value)
    else s
  }

  function AfterCalls(s: Screen, calls: seq<Call>, closures: seq<Closure>): Screen
    decreases |calls|
  {
    if calls == [] then s
    else AfterCall(AfterCalls(s, calls[..|calls| - 1], closures), calls[|calls| - 1], closures)
  }

  /** A command with the number of the closure that orders it. */
  datatype Ordered = Ordered(origin: nat, command: Command)

  function OrderedBy(s: Screen, call: Call, closures: seq<Closure>): seq<Ordered> {
    if ClosureOf(call, closures).Some? && Order(s, ClosureOf(call, closures).value).Some?
    then [Ordered(call.packet.callback, Order(s, ClosureOf(call, closures).value).value)]
    else []
  }

  function Orders(s: Screen, calls: seq<Call>, closures: seq<Closure>): seq<Ordered>
    decreases |calls|
  {
    if calls == [] then []
    else
      var front := calls[..|calls| - 1];
      Orders(s, front, closures) + OrderedBy(AfterCalls(s, front, closures), calls[|calls| - 1], closures)
  }

  lemma CallsGoOn(s: Screen, calls: seq<Call>, call: Call, closures: seq<Closure>)
    ensures AfterCalls(s, calls + [call], closures) == AfterCall(AfterCalls(s, calls, closures), call, closures)
    ensures Orders(s, calls + [call], closures) == Orders(s, calls, closures) + OrderedBy(AfterCalls(s, calls, closures), call, closures)
  {
    assert (calls + [call])[..|calls|] == calls;
  }

  /** Whatever is ordered, a packet that was played orders it, and that is the lifting of a finger. */
  lemma {:induction false} OrdersComeFromUp(s: Screen, calls: seq<Call>, closures: seq<Closure>, n: nat)
    requires n < |Orders(s, calls, closures)|
    ensures var o := Orders(s, calls, closures)[n];
      o.origin < |closures| && closures[o.origin].kind == Up
      && exists k :: 0 <= k < |calls| && calls[k].Played? && calls[k].packet.Input? && calls[k].packet.callback == o.origin
    decreases |calls|
  {
    var front, call := calls[..|calls| - 1], calls[|calls| - 1];
    if n < |Orders(s, front, closures)| {
      OrdersComeFromUp(s, front, closures, n);
    }
  }

  /** Once a second finger has been down, nothing is ordered until the touch is reset. */
  lemma {:induction false} TwoFingersOrderNothing(s: Screen, calls: seq<Call>, closures: seq<Closure>)
    requires s.multitouch && s.touch.None?
    requires forall call | call in calls :: call.Played? && (ClosureOf(call, closures).Some? ==> ClosureOf(call, closures).value.kind != Reset)
    ensures Orders(s, calls, closures) == []
    ensures AfterCalls(s, calls, closures).multitouch && AfterCalls(s, calls, closures).touch.None?
    decreases |calls|
  {
    if calls != [] {
      var front, call := calls[..|calls| - 1], calls[|calls| - 1];
      TwoFingersOrderNothing(s, front, closures);
      assert call in calls;
    }
  }

  /** A finger too many: another contact than the first, or a contact that goes down a second time. From then on
      nothing is ordered until the touch is reset. */
  lemma {:induction false} SecondFingerOrdersNothing(s: Screen, calls: seq<Call>, closures: seq<Closure>)
    requires calls != [] && ClosureOf(calls[0], closures).Some?
    requires var c := ClosureOf(calls[0], closures).value; c.kind == Down && (c.contact != 0 || s.touch.Some?)
    requires forall k | 0 < k < |calls| ::
      calls[k].Played? && (ClosureOf(calls[k], closures).Some? ==> ClosureOf(calls[k], closures).value.kind != Reset)
    ensures Orders(s, calls, closures) == []
    ensures AfterCalls(s, calls, closures).multitouch && AfterCalls(s, calls, closures).touch.None?
    decreases |calls|
  {
    if |calls| > 1 {
      SecondFingerOrdersNothing(s, calls[..|calls| - 1], closures);
    } else {
      assert calls == [calls[0]] && calls[..0] == [];
    }
  }

  /** The closure a call runs moves the first finger to a point on the screen. */
  predicate Steers(call: Call, closures: seq<Closure>) {
    && ClosureOf(call, closures).Some?
    && var c := ClosureOf(call, closures).value;
       c.kind == Move && c.contact == 0 && OnScreen(c.point)
  }

  /** The first finger goes down on the screen; nothing else goes down or up and nothing is reset before call `k`. */
  predicate OneFingerUntil(calls: seq<Call>, closures: seq<Closure>, k: nat) {
    && 1 <= k <= |calls| && ClosureOf(calls[0], closures).Some?
    && var c := ClosureOf(calls[0], closures).value;
    && c.kind == Down && c.contact == 0 && OnScreen(c.point)
    && forall j | 1 <= j < k ::
         ClosureOf(calls[j], closures).Some? && ClosureOf(calls[j], closures).value.kind in {Move, Commit}
  }

  /** Call `m` is the last before `k` that moves the first finger, or puts it down. */
  ghost predicate LastSteered(calls: seq<Call>, closures: seq<Closure>, m: nat, k: nat) {
    && m < k <= |calls| && (m == 0 || Steers(calls[m], closures))
    && forall j | m < j < k :: !Steers(calls[j], closures)
  }

  function PointOf(call: Call, closures: seq<Closure>): Point
    requires ClosureOf(call, closures).Some? && ClosureOf(call, closures).value.point.Some?
  {
    ClosureOf(call, closures).value.point.value
  }

  lemma {:induction false} FingerStaysDown(s: Screen, calls: seq<Call>, closures: seq<Closure>, k: nat) returns (m: nat)
    requires s.touch.None? && !s.multitouch && OneFingerUntil(calls, closures, k)
    ensures LastSteered(calls, closures, m, k)
    ensures AfterCalls(s, calls[..k], closures) ==
      Screen(Some(Touch(PointOf(calls[0], closures), PointOf(calls[m], closures), ClosureOf(calls[0], closures).value.arrived)), false)
    ensures Orders(s, calls[..k], closures) == []
    decreases k
  {
    hide OnScreen;
    var front := calls[..k - 1];
    assert calls[..k] == front + [calls[k - 1]];
    CallsGoOn(s, front, calls[k - 1], closures);
    if k == 1 {
      m := 0;
    } else {
      m := FingerStaysDown(s, calls, closures, k - 1);
      if Steers(calls[k - 1], closures) {
        m := k - 1;
      }
    }
  }

  /** What lifting the only finger orders: a tap where it was last, if it was less than 0.005 away from where it went
      down; else a swipe from there, as long as the finger was down, but for 50 ms at least and 5 s at most; and
      nothing, if its lifting arrived before it went down. */
  function Lifted(from: Point, to: Point, held: int): Option<Command> {
    var dx, dy := to.x - from.x, to.y - from.y;
    if dx * dx + dy * dy < 0.005 * 0.005 then Some(Tap(to))
    else if held < 0 then None
    else Some(Swipe(from, to, if held < 50 then 50 else if held <= 5000 then held else 5000))
  }

  lemma LiftingOrders(from: Point, to: Point, started: int, up: Closure)
    requires up.kind == Up && up.contact == 0
    ensures Order(Screen(Some(Touch(from, to, started)), false), up) == Lifted(from, to, up.arrived - started)
  {
    Squares(from.x, to.x);
    Squares(from.y, to.y);
  }

  lemma Squares(a: real, b: real)
    ensures (a - b) * (a - b) == (b - a) * (b - a)
  {
  }

  /** One finger goes down, moves and goes up again: exactly what its lifting orders is ordered, from where it went
      down to where it was moved last. */
  lemma OneFingerTapsOrSwipes(s: Screen, calls: seq<Call>, closures: seq<Closure>, m: nat)
    requires s.touch.None? && !s.multitouch && |calls| >= 2 && OneFingerUntil(calls, closures, |calls| - 1)
    requires var up := ClosureOf(calls[|calls| - 1], closures); up.Some? && up.value.kind == Up && up.value.contact == 0
    requires LastSteered(calls, closures, m, |calls| - 1)
    ensures var held := ClosureOf(calls[|calls| - 1], closures).value.arrived - ClosureOf(calls[0], closures).value.arrived;
      var command := Lifted(PointOf(calls[0], closures), PointOf(calls[m], closures), held);
      Orders(s, calls, closures) == if command.Some? then [Ordered(calls[|calls| - 1].packet.callback, command.value)] else []
    ensures AfterCalls(s, calls, closures) == UNTOUCHED
  {
    hide Lifted, Order, AfterCalls, Orders, Near;
    var k := |calls| - 1;
    var n := FingerStaysDown(s, calls, closures, k);
    assert n == m;
    assert calls == calls[..k] + [calls[k]];
    CallsGoOn(s, calls[..k], calls[k], closures);
    LiftingOrders(PointOf(calls[0], closures), PointOf(calls[m], closures), ClosureOf(calls[0], closures).value.arrived,
                  ClosureOf(calls[k], closures).value);
  }
}
