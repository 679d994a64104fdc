/** Requests that book devices at the same time. Each row update is one step; between its steps a
    request holds the lock of its group and, while it adds a device, the lock of that device. */
module BookingRaces {
  import opened Bookings
  import GS = GroupStore

  /** Where a request stands. `group` is the row as it was read when its lock was taken. Once the
      conflict check has passed, a request is about to write: one more device, or its `plan`. */
  datatype Process =
    | Idle
    | Holding(group: Group)
    | WithLock(group: Group, serial: string)
    | Cleared(group: Group, serial: string)
    | Planned(group: Group, plan: Group)

  datatype State = State(groups: map<string, Group>, groupLocks: map<string, nat>, deviceLocks: map<string, nat>,
                         processes: map<nat, Process>)

  const EMPTY := State(map[], map[], map[], map[])

  datatype Step =
    | Create(g: Group)
    | LockGroup(p: nat, id: string)
    | UnlockGroup(p: nat)
    | LockDevice(p: nat, serial: string)
    | UnlockDevice(p: nat)
    | Check(p: nat)
    | CheckReschedule(p: nat, g: Group)
    | Write(p: nat)
    | Shrink(p: nat, g: Group)
    | Remove(p: nat, serials: seq<string>)
    | Delete(p: nat)

  function At(s: State, p: nat): Process {
    if p in s.processes then s.processes[p] else Idle
  }

  /** The row a reschedule may put in: other dates, the same devices. */
  predicate Replaces(g: Group, group: Group) {
    g.id == group.id && g.devices == group.devices
  }

  // ---------------------------------------------------------------- what a request is about to take

  predicate Writes(x: Process) {
    x.Cleared? || x.Planned?
  }

  /** Groups that are not transient book nothing. */
  predicate Takes(x: Process) {
    (x.Cleared? && Transient(x.group)) || (x.Planned? && Transient(x.plan))
  }

  function TakenDevices(x: Process): seq<string>
    requires Writes(x)
  {
    if x.Cleared? then [x.serial] else x.plan.devices
  }

  function TakenDates(x: Process): seq<Interval>
    requires Writes(x)
  {
    if x.Cleared? then x.group.dates else x.plan.dates
  }

  /** Two requests are about to take the same device for the same time. */
  ghost predicate Clash(x: Process, y: Process) {
    Takes(x) && Takes(y) && Share(TakenDevices(x), TakenDevices(y)) && DatesOverlap(TakenDates(x), TakenDates(y))
  }

  function Row(x: Process): Group
    requires Writes(x) && x.group.dates != []
  {
    if x.Cleared? then GS.WithDevice(x.group, x.serial) else x.plan
  }

  function AfterWrite(x: Process): Process
    requires Writes(x) && x.group.dates != []
  {
    if x.Cleared? then WithLock(Row(x), x.serial) else Holding(Row(x))
  }

  // ---------------------------------------------------------------- steps

  ghost predicate Enabled(s: State, step: Step) {
    match step
    case Create(g) => g.id !in s.groups && g.devices == [] && ScheduleOk(g)
    case LockGroup(p, id) => At(s, p).Idle? && id in s.groups && id !in s.groupLocks
    case UnlockGroup(p) => At(s, p).Holding? || At(s, p).Planned?
    case LockDevice(p, serial) => At(s, p).Holding? && Transient(At(s, p).group) && serial !in s.deviceLocks
    case UnlockDevice(p) => At(s, p).WithLock? || At(s, p).Cleared?
    case Check(p) => At(s, p).WithLock? && Free(s.groups, At(s, p).group.id, [At(s, p).serial], At(s, p).group.dates)
    case CheckReschedule(p, g) =>
      && At(s, p).Holding? && ScheduleOk(g) && Replaces(g, At(s, p).group) && !OnlyShrinks(At(s, p).group, g)
      && Free(s.groups, g.id, g.devices, g.dates)
    case Write(p) => Writes(At(s, p)) && At(s, p).group.dates != []
    case Shrink(p, g) => At(s, p).Holding? && ScheduleOk(g) && Replaces(g, At(s, p).group) && OnlyShrinks(At(s, p).group, g)
    case Remove(p, serials) => At(s, p).Holding? && At(s, p).group.dates != []
    case Delete(p) => At(s, p).Holding?
  }

  function Put(s: State, p: nat, g: Group, process: Process): State {
    s.(groups := s.groups[g.id := g], processes := s.processes[p := process])
  }

  ghost function Apply(s: State, step: Step): State
    requires Enabled(s, step)
  {
    match step
    case Create(g) => s.(groups := s.groups[g.id := g])
    case LockGroup(p, id) =>
      s.(groupLocks := s.groupLocks[id := p], processes := s.processes[p := Holding(s.groups[id])])
    case UnlockGroup(p) =>
      s.(groupLocks := s.groupLocks - {At(s, p).group.id}, processes := s.processes[p := Idle])
    case LockDevice(p, serial) =>
      s.(deviceLocks := s.deviceLocks[serial := p], processes := s.processes[p := WithLock(At(s, p).group, serial)])
    case UnlockDevice(p) =>
      s.(deviceLocks := s.deviceLocks - {At(s, p).serial}, processes := s.processes[p := Holding(At(s, p).group)])
    case Check(p) =>
      s.(processes := s.processes[p := Cleared(At(s, p).group, At(s, p).serial)])
    case CheckReschedule(p, g) =>
      s.(processes := s.processes[p := Planned(At(s, p).group, g)])
    case Write(p) => Put(s, p, Row(At(s, p)), AfterWrite(At(s, p)))
    case Shrink(p, g) => Put(s, p, g, Holding(g))
    case Remove(p, serials) =>
      var g := GS.WithoutDevices(At(s, p).group, serials);
      Put(s, p, g, Holding(g))
    case Delete(p) =>
      s.(groups := s.groups - {At(s, p).group.id}, groupLocks := s.groupLocks - {At(s, p).group.id},
         processes := s.processes[p := Idle])
  }

  // ---------------------------------------------------------------- the invariant

  /** A request holds the locks it believes to hold, and knows the row as it is. */
  ghost predicate Knows(s: State, p: nat) {
    !At(s, p).Idle? ==> (
      && At(s, p).group.id in s.groups && s.groups[At(s, p).group.id] == At(s, p).group
      && At(s, p).group.id in s.groupLocks && s.groupLocks[At(s, p).group.id] == p
      && (At(s, p).WithLock? || At(s, p).Cleared? ==>
            && Transient(At(s, p).group) && At(s, p).serial in s.deviceLocks && s.deviceLocks[At(s, p).serial] == p)
      && (At(s, p).Planned? ==> ScheduleOk(At(s, p).plan) && Replaces(At(s, p).plan, At(s, p).group)))
  }

  /** What was found free is free until it is booked. */
  ghost predicate StillFree(s: State, p: nat) {
    Takes(At(s, p)) ==> Free(s.groups, At(s, p).group.id, TakenDevices(At(s, p)), TakenDates(At(s, p)))
  }

  ghost predicate Inv(s: State) {
    && NoOverlap(s.groups)
    && (forall id | id in s.groups :: s.groups[id].id == id && ScheduleOk(s.groups[id]))
    && (forall p | p in s.processes :: Knows(s, p) && StillFree(s, p))
  }

  ghost predicate ClashesWithNone(s: State, p: nat) {
    forall q | q in s.processes && q != p :: !Clash(At(s, p), At(s, q))
  }

  ghost predicate NoClash(s: State) {
    forall p | p in s.processes :: ClashesWithNone(s, p)
  }

  /** The new row of a group takes away nothing that another request has found free. */
  ghost predicate LeavesFree(s: State, p: nat, g: Group) {
    forall q | q in s.processes && q != p && Takes(At(s, q)) && Transient(g) ::
      !Collide(TakenDevices(At(s, q)), TakenDates(At(s, q)), g)
  }

  // ---------------------------------------------------------------- every step keeps the invariant

  /** A new row that overlaps no other keeps the invariant exactly if it takes nothing from the others. */
  lemma PutKeepsIff(s: State, p: nat, g: Group, process: Process)
    requires Inv(s) && p in s.processes && !At(s, p).Idle? && g.id == At(s, p).group.id && ScheduleOk(g)
    requires NoOverlap(s.groups[g.id := g])
    requires process.Holding? || (process.WithLock? && Transient(g) && At(s, p).Cleared? && process.serial == At(s, p).serial)
    requires process.group == g
    ensures Inv(Put(s, p, g, process)) <==> LeavesFree(s, p, g)
  {
    hide NoOverlap, ScheduleOk, Collide;
    var t := Put(s, p, g, process);
    assert Knows(s, p);
    if LeavesFree(s, p, g) {
      forall q | q in t.processes
        ensures Knows(t, q) && StillFree(t, q)
      {
        assert q != p ==> At(t, q) == At(s, q) && Knows(s, q) && StillFree(s, q);
      }
    }
    if Inv(t) {
      forall q | q in s.processes && q != p && Takes(At(s, q)) && Transient(g)
        ensures !Collide(TakenDevices(At(s, q)), TakenDates(At(s, q)), g)
      {
        assert Knows(s, q) && q in t.processes && At(t, q) == At(s, q) && StillFree(t, q);
        assert t.groups[g.id] == g;
      }
    }
  }

  /** What is about to be written overlaps no other row. */
  lemma WriteOverlapsNone(s: State, p: nat)
    requires Inv(s) && Enabled(s, Write(p))
    ensures p in s.processes && Row(At(s, p)).id == At(s, p).group.id && ScheduleOk(Row(At(s, p)))
    ensures NoOverlap(s.groups[Row(At(s, p)).id := Row(At(s, p))])
  {
    var x := At(s, p);
    assert Knows(s, p) && StillFree(s, p);
    if x.Cleared? {
      GS.DeviceKeepsApart(s.groups, x.group.id, Row(x), x.serial);
    } else {
      PutKeepsApart(s.groups, x.group.id, x.plan);
    }
  }

  /** A row that is written takes from another request exactly what the two clash over. */
  lemma WriteTakesTheClash(s: State, p: nat, q: nat)
    requires Inv(s) && Enabled(s, Write(p)) && q in s.processes && q != p && Takes(At(s, q)) && Transient(Row(At(s, p)))
    ensures Collide(TakenDevices(At(s, q)), TakenDates(At(s, q)), Row(At(s, p))) <==> Clash(At(s, p), At(s, q))
  {
    var x, y := At(s, p), At(s, q);
    assert Knows(s, p) && Knows(s, q) && StillFree(s, q);
    ShareIsMutual(TakenDevices(x), TakenDevices(y));
    DatesOverlapIsMutual(TakenDates(x), TakenDates(y));
    if x.Cleared? {
      assert Row(x).devices == GS.Union(x.group.devices, x.serial) && Row(x).dates == x.group.dates;
      assert !Collide(TakenDevices(y), TakenDates(y), x.group);
      ShareWithUnion(TakenDevices(y), x.group.devices, x.serial);
    }
  }

  lemma ShareIsMutual(a: seq<string>, b: seq<string>)
    ensures Share(a, b) <==> Share(b, a)
  {
  }

  lemma DatesOverlapIsMutual(a: seq<Interval>, b: seq<Interval>)
    ensures DatesOverlap(a, b) <==> DatesOverlap(b, a)
  {
    if DatesOverlap(a, b) {
      var i, j :| 0 <= i < |a| && 0 <= j < |b| && Overlap(a[i], b[j]);
      assert Overlap(b[j], a[i]);
    }
    if DatesOverlap(b, a) {
      var i, j :| 0 <= i < |b| && 0 <= j < |a| && Overlap(b[i], a[j]);
      assert Overlap(a[j], b[i]);
    }
  }

  lemma ShareWithUnion(a: seq<string>, devices: seq<string>, serial: string)
    ensures Share(a, GS.Union(devices, serial)) <==> Share(a, devices) || Share(a, [serial])
  {
    if Share(a, devices) {
      var s :| s in a && s in devices;
      assert s in GS.Union(devices, serial);
    }
    if Share(a, [serial]) {
      assert serial in a && serial in GS.Union(devices, serial);
    }
    if Share(a, GS.Union(devices, serial)) {
      var s :| s in a && s in GS.Union(devices, serial);
      assert s in devices || s in [serial];
    }
  }

  /** A write, of a device or of new dates, keeps the invariant if and only if it clashes with nothing
      that another request has found free. */
  lemma WriteKeepsIff(s: State, p: nat)
    requires Inv(s) && Enabled(s, Write(p))
    ensures Inv(Apply(s, Write(p))) <==> ClashesWithNone(s, p)
  {
    hide Inv, Collide, Clash;
    var x := At(s, p);
    WriteOverlapsNone(s, p);
    WriterIsTransient(s, p);
    PutKeepsIff(s, p, Row(x), AfterWrite(x));
    forall q | q in s.processes && q != p
      ensures Clash(x, At(s, q)) <==>
        Takes(At(s, q)) && Transient(Row(x)) && Collide(TakenDevices(At(s, q)), TakenDates(At(s, q)), Row(x))
    {
      if Takes(At(s, q)) && Transient(Row(x)) {
        WriteTakesTheClash(s, p, q);
      } else {
        OnlyTakersClash(x, At(s, q));
      }
    }
  }

  lemma WriterIsTransient(s: State, p: nat)
    requires Inv(s) && Enabled(s, Write(p))
    ensures Takes(At(s, p)) == Transient(Row(At(s, p))) && (At(s, p).Cleared? ==> Takes(At(s, p)))
  {
    assert Knows(s, p);
  }

  lemma OnlyTakersClash(x: Process, y: Process)
    ensures Clash(x, y) ==> Takes(x) && Takes(y)
  {
  }

  /** The lock of a device spans check and write, so two requests that add devices never clash. */
  lemma AdditionsNeverClash(s: State, p: nat, q: nat)
    requires Inv(s) && p in s.processes && q in s.processes && p != q
    requires At(s, p).Cleared? && At(s, q).Cleared?
    ensures !Clash(At(s, p), At(s, q))
  {
    assert Knows(s, p) && Knows(s, q);
  }

  /** Taking less than before takes nothing from others. */
  lemma LessLeavesFree(s: State, p: nat, g: Group)
    requires Inv(s) && p in s.processes && !At(s, p).Idle? && g.id == At(s, p).group.id
    requires OnlyShrinks(At(s, p).group, g)
    requires ScheduleOk(g) && (forall d | d in g.devices :: d in At(s, p).group.devices)
    ensures LeavesFree(s, p, g) && NoOverlap(s.groups[g.id := g])
  {
    var group := At(s, p).group;
    assert Knows(s, p);
    ShrinkingNeedsNoCheck(s.groups, group.id, g);
    ShrunkDatesAreInside(group, g);
    forall q | q in s.processes && q != p && Takes(At(s, q)) && Transient(g)
      ensures !Collide(TakenDevices(At(s, q)), TakenDates(At(s, q)), g)
    {
      assert Knows(s, q) && StillFree(s, q);
      assert !Collide(TakenDevices(At(s, q)), TakenDates(At(s, q)), group);
      LessCollides(TakenDevices(At(s, q)), TakenDates(At(s, q)), group, g);
    }
  }

  lemma LessCollides(devices: seq<string>, dates: seq<Interval>, g: Group, h: Group)
    requires forall d | d in h.devices :: d in g.devices
    requires |h.dates| <= |g.dates| && forall k | 0 <= k < |h.dates| :: Inside(h.dates[k], g.dates[k])
    ensures Collide(devices, dates, h) ==> Collide(devices, dates, g)
  {
    if Collide(devices, dates, h) {
      var d :| d in devices && d in h.devices;
      assert d in g.devices;
      var i, j :| 0 <= i < |dates| && 0 <= j < |h.dates| && Overlap(dates[i], h.dates[j]);
      assert Overlap(dates[i], g.dates[j]);
    }
  }

  lemma ShrinkKeeps(s: State, p: nat, g: Group)
    requires Inv(s) && Enabled(s, Shrink(p, g))
    ensures Inv(Apply(s, Shrink(p, g)))
  {
    LessLeavesFree(s, p, g);
    PutKeepsIff(s, p, g, Holding(g));
  }

  lemma RemoveKeeps(s: State, p: nat, serials: seq<string>)
    requires Inv(s) && Enabled(s, Remove(p, serials))
    ensures Inv(Apply(s, Remove(p, serials)))
  {
    var g := GS.WithoutDevices(At(s, p).group, serials);
    assert Knows(s, p);
    LessLeavesFree(s, p, g);
    PutKeepsIff(s, p, g, Holding(g));
  }

  lemma DeleteKeeps(s: State, p: nat)
    requires Inv(s) && Enabled(s, Delete(p))
    ensures Inv(Apply(s, Delete(p)))
  {
    hide ScheduleOk, Collide;
    var t := Apply(s, Delete(p));
    assert Knows(s, p);
    GS.DropKeepsApart(s.groups, At(s, p).group.id);
    forall q | q in t.processes
      ensures Knows(t, q) && StillFree(t, q)
    {
      assert q != p ==> At(t, q) == At(s, q) && Knows(s, q) && StillFree(s, q);
    }
  }

  lemma CreateKeeps(s: State, g: Group)
    requires Inv(s) && Enabled(s, Create(g))
    ensures Inv(Apply(s, Create(g)))
  {
    hide ScheduleOk;
    var t := Apply(s, Create(g));
    PutKeepsApart(s.groups, g.id, g);
    forall q | q in t.processes
      ensures Knows(t, q) && StillFree(t, q)
    {
      assert At(t, q) == At(s, q) && Knows(s, q) && StillFree(s, q);
    }
  }

  lemma LockStepKeeps(s: State, step: Step)
    requires Inv(s) && Enabled(s, step)
    requires step.LockGroup? || step.UnlockGroup? || step.LockDevice? || step.UnlockDevice? || step.Check? || step.CheckReschedule?
    ensures Inv(Apply(s, step))
  {
    hide NoOverlap, ScheduleOk, Free;
    var t := Apply(s, step);
    assert step.p in s.processes ==> Knows(s, step.p);
    forall q | q in t.processes
      ensures Knows(t, q) && StillFree(t, q)
    {
      assert q != step.p ==> At(t, q) == At(s, q) && Knows(s, q) && StillFree(s, q);
    }
  }

  lemma StepKeeps(s: State, step: Step)
    requires Inv(s) && Enabled(s, step) && NoClash(s)
    ensures Inv(Apply(s, step))
  {
    hide Inv, Enabled, Apply, Clash;
    match step
    case Create(g) => CreateKeeps(s, g);
    case Write(p) => WriterIsKnown(s, p); WriteKeepsIff(s, p);
    case Shrink(p, g) => ShrinkKeeps(s, p, g);
    case Remove(p, serials) => RemoveKeeps(s, p, serials);
    case Delete(p) => DeleteKeeps(s, p);
    case _ => LockStepKeeps(s, step);
  }

  lemma WriterIsKnown(s: State, p: nat)
    requires Enabled(s, Write(p))
    ensures p in s.processes
  {
  }

  // ---------------------------------------------------------------- runs

  ghost predicate Run(s: State, steps: seq<Step>, t: State)
    decreases |steps|
  {
    if steps == [] then s == t
    else Enabled(s, steps[0]) && Run(Apply(s, steps[0]), steps[1..], t)
  }

  /** At no moment of the run are two requests about to take the same. */
  ghost predicate NeverClash(s: State, steps: seq<Step>)
    decreases |steps|
  {
    NoClash(s) && (steps != [] && Enabled(s, steps[0]) ==> NeverClash(Apply(s, steps[0]), steps[1..]))
  }

  /** However requests interleave, no device is booked twice, as long as no two of them have passed their
      conflict checks for the same device and time. */
  lemma {:induction false} RunsBookNothingTwice(s: State, steps: seq<Step>, t: State)
    requires Inv(s) && Run(s, steps, t) && NeverClash(s, steps)
    ensures Inv(t) && NoOverlap(t.groups)
    decreases |steps|
  {
    if steps != [] {
      StepKeeps(s, steps[0]);
      RunsBookNothingTwice(Apply(s, steps[0]), steps[1..], t);
    }
  }

  predicate NoPlans(s: State) {
    forall p | p in s.processes :: !s.processes[p].Planned?
  }

  /** Requests that only add and remove devices, shrink and delete never book a device twice. */
  lemma {:induction false} AdditionsAreSafe(s: State, steps: seq<Step>, t: State)
    requires Inv(s) && Run(s, steps, t) && NoPlans(s) && forall step | step in steps :: !step.CheckReschedule?
    ensures Inv(t) && NoOverlap(t.groups)
    decreases |steps|
  {
    if steps != [] {
      AdditionsAreApart(s);
      StepKeeps(s, steps[0]);
      NoNewPlan(s, steps[0]);
      AdditionsAreSafe(Apply(s, steps[0]), steps[1..], t);
    }
  }

  lemma AdditionsAreApart(s: State)
    requires Inv(s) && NoPlans(s)
    ensures NoClash(s)
  {
    hide Inv, Clash;
    forall p, q | p in s.processes && q in s.processes && q != p
      ensures !Clash(At(s, p), At(s, q))
    {
      if At(s, p).Cleared? && At(s, q).Cleared? {
        AdditionsNeverClash(s, p, q);
      } else {
        OnlyTakersClash(At(s, p), At(s, q));
      }
    }
  }

  lemma NoNewPlan(s: State, step: Step)
    requires NoPlans(s) && Enabled(s, step) && !step.CheckReschedule?
    ensures NoPlans(Apply(s, step))
  {
  }

  // ---------------------------------------------------------------- the race that remains

  /** Of two requests that have passed their checks, both finish, and the rows overlap afterwards if and
      only if the two clash. */
  lemma BookedTwiceIff(s: State, p: nat, q: nat)
    requires Inv(s) && Enabled(s, Write(p)) && Enabled(s, Write(q)) && p != q
    ensures var t := Apply(s, Write(p));
      Enabled(t, Write(q)) && (NoOverlap(Apply(t, Write(q)).groups) <==> !Clash(At(s, p), At(s, q)))
  {
    hide Clash, Collide, Apart;
    var x, y := At(s, p), At(s, q);
    var t := Apply(s, Write(p));
    assert Knows(s, p) && Knows(s, q) && At(t, q) == y;
    assert x.group.id != y.group.id;
    WriteOverlapsNone(s, p);
    WriteOverlapsNone(s, q);
    var g, h := Row(x), Row(y);
    var u := Apply(t, Write(q)).groups;
    assert u == s.groups[g.id := g][h.id := h];
    RowsClash(s, p, q);
    LastPair(s.groups, g, h);
  }

  /** Two rows that overlap no third are without overlap exactly if they do not overlap each other. */
  lemma LastPair(groups: map<string, Group>, g: Group, h: Group)
    requires g.id != h.id && NoOverlap(groups[g.id := g]) && NoOverlap(groups[h.id := h])
    ensures NoOverlap(groups[g.id := g][h.id := h]) <==> Apart(g, h)
  {
    var u := groups[g.id := g][h.id := h];
    assert u[g.id] == g && u[h.id] == h;
    CollideIsMutual(g, h);
    if Apart(g, h) {
      forall a, b | a in u && b in u && a != b
        ensures Apart(u[a], u[b])
      {
        assert a != h.id && b != h.id ==> u[a] == groups[g.id := g][a] && u[b] == groups[g.id := g][b];
        assert a != g.id && b != g.id ==> u[a] == groups[h.id := h][a] && u[b] == groups[h.id := h][b];
      }
    }
  }

  lemma RowsClash(s: State, p: nat, q: nat)
    requires Inv(s) && Enabled(s, Write(p)) && Enabled(s, Write(q)) && p != q && At(s, p).group.id != At(s, q).group.id
    ensures Apart(Row(At(s, p)), Row(At(s, q))) <==> !Clash(At(s, p), At(s, q))
  {
    var x, y := At(s, p), At(s, q);
    WriterIsTransient(s, p);
    WriterIsTransient(s, q);
    if Takes(x) && Takes(y) {
      WriteTakesTheClash(s, p, q);
      WrittenCollides(s, p, q);
    }
  }

  /** With the row that another request is about to write, a request collides over what it takes itself. */
  lemma WrittenCollides(s: State, p: nat, q: nat)
    requires Inv(s) && Enabled(s, Write(p)) && Enabled(s, Write(q)) && p != q && At(s, p).group.id != At(s, q).group.id
    requires Takes(At(s, p)) && Takes(At(s, q))
    ensures Collide(Row(At(s, p)).devices, Row(At(s, p)).dates, Row(At(s, q))) <==>
      Collide(TakenDevices(At(s, q)), TakenDates(At(s, q)), Row(At(s, p)))
  {
    var x, y := At(s, p), At(s, q);
    assert Knows(s, p) && Knows(s, q);
    CollideIsMutual(Row(x), Row(y));
    if y.Cleared? {
      WriteOverlapsNone(s, p);
      var groups := s.groups[Row(x).id := Row(x)];
      assert Apart(groups[y.group.id], groups[Row(x).id]);
      UnionCollides(y.group, y.serial, Row(x));
    }
  }

  lemma UnionCollides(g: Group, serial: string, h: Group)
    requires g.dates != []
    ensures Collide(GS.WithDevice(g, serial).devices, g.dates, h) <==> Collide(g.devices, g.dates, h) || Collide([serial], g.dates, h)
  {
    ShareIsMutual(GS.WithDevice(g, serial).devices, h.devices);
    ShareIsMutual(g.devices, h.devices);
    ShareIsMutual([serial], h.devices);
    ShareWithUnion(h.devices, g.devices, serial);
  }

  // ---------------------------------------------------------------- runs from the empty farm that book a device twice

  /** A pending group of ten time units that is charged for its devices. */
  function Sample(id: string, start: int, devices: seq<string>): Group {
    Group(id, id, id, User, Once, Pending, false, 0, [Interval(start, start + 10)], devices, 10 * |devices|)
  }

  lemma SamplesAreOk(id: string, start: int, devices: seq<string>)
    ensures ScheduleOk(Sample(id, start, devices)) && Transient(Sample(id, start, devices))
  {
    assert Dates(Interval(start, start + 10), 0, 0) == [Interval(start, start + 10)];
  }

  lemma SamplesApart(id: string, start: int, devices: seq<string>, serials: seq<string>, start': int)
    ensures Collide(serials, [Interval(start', start' + 10)], Sample(id, start, devices)) <==>
      Share(serials, devices) && start' < start + 10 && start < start' + 10
  {
    var a, b := [Interval(start', start' + 10)], Sample(id, start, devices).dates;
    assert Overlap(a[0], b[0]) <==> DatesOverlap(a, b);
  }

  /** The only other group is out of the way. */
  lemma OnlyOther(groups: map<string, Group>, id: string, other: string, start: int, devices: seq<string>,
                  serials: seq<string>, start': int)
    requires groups.Keys == {id, other} && groups[other] == Sample(other, start, devices)
    requires Share(serials, devices) ==> start' >= start + 10 || start >= start' + 10
    ensures Free(groups, id, serials, [Interval(start', start' + 10)])
  {
    SamplesApart(other, start, devices, serials, start');
  }

  lemma RunStep(s: State, step: Step, steps: seq<Step>, t: State)
    requires Enabled(s, step) && Run(Apply(s, step), steps, t)
    ensures Run(s, [step] + steps, t)
  {
    assert ([step] + steps)[1..] == steps;
  }

  lemma {:induction false} RunOn(s: State, steps: seq<Step>, t: State, more: seq<Step>, u: State)
    requires Run(s, steps, t) && Run(t, more, u)
    ensures Run(s, steps + more, u)
    decreases |steps|
  {
    if steps == [] {
      assert steps + more == more;
    } else {
      RunOn(Apply(s, steps[0]), steps[1..], t, more, u);
      assert (steps + more)[1..] == steps[1..] + more;
    }
  }

  /** One request adds one device to its group, up to the conflict check ... */
  function Checks(p: nat, id: string, d: string): seq<Step> {
    [LockGroup(p, id)] + ([LockDevice(p, d)] + ([Check(p)] + []))
  }

  /** ... and from there on. */
  function Finishes(p: nat): seq<Step> {
    [Write(p)] + ([UnlockDevice(p)] + [])
  }

  function Booked(s: State, p: nat, g: Group): State {
    State(s.groups[g.id := g], s.groupLocks[g.id := p], s.deviceLocks, s.processes[p := Holding(g)])
  }

  function Allowed(s: State, p: nat, g: Group, d: string): State {
    State(s.groups, s.groupLocks[g.id := p], s.deviceLocks[d := p], s.processes[p := Cleared(g, d)])
  }

  lemma ChecksRun(s: State, p: nat, id: string, start: int, d: string)
    requires At(s, p).Idle? && id in s.groups && s.groups[id] == Sample(id, start, [])
    requires id !in s.groupLocks && d !in s.deviceLocks
    requires Free(s.groups, id, [d], [Interval(start, start + 10)])
    ensures Run(s, Checks(p, id, d), Allowed(s, p, Sample(id, start, []), d))
  {
    hide Free;
    var g := Sample(id, start, []);
    var s1 := Apply(s, LockGroup(p, id));
    assert At(s1, p) == Holding(g);
    var s2 := Apply(s1, LockDevice(p, d));
    assert At(s2, p) == WithLock(g, d) && s2.groups == s.groups;
    var s3 := Apply(s2, Check(p));
    var t := Allowed(s, p, g, d);
    assert s3.processes == t.processes;
    assert s3 == t;
    RunStep(s2, Check(p), [], t);
    RunStep(s1, LockDevice(p, d), [Check(p)] + [], t);
    RunStep(s, LockGroup(p, id), [LockDevice(p, d)] + ([Check(p)] + []), t);
  }

  lemma FinishesRun(s: State, p: nat, id: string, start: int, d: string)
    requires d !in s.deviceLocks
    ensures Run(Allowed(s, p, Sample(id, start, []), d), Finishes(p), Booked(s, p, Sample(id, start, [d])))
  {
    var g, h := Sample(id, start, []), Sample(id, start, [d]);
    var s0, t := Allowed(s, p, g, d), Booked(s, p, h);
    assert At(s0, p) == Cleared(g, d);
    assert GS.WithDevice(g, d) == h;
    var s1 := Apply(s0, Write(p));
    assert At(s1, p) == WithLock(h, d);
    var s2 := Apply(s1, UnlockDevice(p));
    assert s2.processes == t.processes && s2.deviceLocks == t.deviceLocks;
    assert s2 == t;
    RunStep(s1, UnlockDevice(p), [], t);
    RunStep(s0, Write(p), [UnlockDevice(p)] + [], t);
  }

  lemma BooksRun(s: State, p: nat, id: string, start: int, d: string)
    requires At(s, p).Idle? && id in s.groups && s.groups[id] == Sample(id, start, [])
    requires id !in s.groupLocks && d !in s.deviceLocks
    requires Free(s.groups, id, [d], [Interval(start, start + 10)])
    ensures Run(s, Checks(p, id, d) + Finishes(p), Booked(s, p, Sample(id, start, [d])))
  {
    hide Free, Run;
    ChecksRun(s, p, id, start, d);
    FinishesRun(s, p, id, start, d);
    RunOn(s, Checks(p, id, d), Allowed(s, p, Sample(id, start, []), d), Finishes(p), Booked(s, p, Sample(id, start, [d])));
  }

  /** Two empty groups, and the second of them has booked the device from 20 to 30. */
  function Opening(a: string, b: string, d: string): seq<Step> {
    [Create(Sample(a, 0, []))] + ([Create(Sample(b, 20, []))] + (Checks(1, b, d) + Finishes(1)))
  }

  function Opened(a: string, b: string, d: string): State {
    State(map[a := Sample(a, 0, []), b := Sample(b, 20, [d])], map[b := 1], map[], map[1 := Holding(Sample(b, 20, [d]))])
  }

  lemma OpeningRuns(a: string, b: string, d: string)
    requires a != b
    ensures Run(EMPTY, Opening(a, b, d), Opened(a, b, d))
  {
    hide ScheduleOk, Run;
    SamplesAreOk(a, 0, []);
    SamplesAreOk(b, 20, []);
    var s1 := Apply(EMPTY, Create(Sample(a, 0, [])));
    var s2 := Apply(s1, Create(Sample(b, 20, [])));
    OnlyOther(s2.groups, b, a, 0, [], [d], 20);
    BooksRun(s2, 1, b, 20, d);
    var t := Opened(a, b, d);
    assert Booked(s2, 1, Sample(b, 20, [d])) == t;
    RunStep(s1, Create(Sample(b, 20, [])), Checks(1, b, d) + Finishes(1), t);
    RunStep(EMPTY, Create(Sample(a, 0, [])), [Create(Sample(b, 20, []))] + (Checks(1, b, d) + Finishes(1)), t);
  }

  /** Rows at the same time with the same device. */
  lemma BothHave(groups: map<string, Group>, a: string, x: int, b: string, y: int, d: string)
    requires a != b && a in groups && b in groups && groups[a] == Sample(a, x, [d]) && groups[b] == Sample(b, y, [d])
    requires x < y + 10 && y < x + 10
    ensures !NoOverlap(groups)
  {
    SamplesApart(b, y, [d], [d], x);
    assert d in [d];
    assert !Apart(groups[a], groups[b]);
  }

  /** A group moves onto time for which another request has found its device free: that request goes on. */
  function MovedUnderAnAddition(a: string, b: string, d: string): seq<Step> {
    Checks(0, a, d) + ([CheckReschedule(1, Sample(b, 5, [d]))] + ([Write(1)] + ([Write(0)] + [])))
  }

  lemma MoveUnderAnAdditionBooksTwice(a: string, b: string, d: string)
    requires a != b
    ensures exists t :: Run(EMPTY, Opening(a, b, d) + MovedUnderAnAddition(a, b, d), t) && !NoOverlap(t.groups)
  {
    hide ScheduleOk, Run, NoOverlap;
    OpeningRuns(a, b, d);
    var s := Opened(a, b, d);
    OnlyOther(s.groups, a, b, 20, [d], [d], 0);
    ChecksRun(s, 0, a, 0, d);
    var s0 := Allowed(s, 0, Sample(a, 0, []), d);
    var h := Sample(b, 5, [d]);
    SamplesAreOk(b, 5, [d]);
    OnlyOther(s0.groups, b, a, 0, [], [d], 5);
    assert At(s0, 1) == Holding(Sample(b, 20, [d]));
    var s1 := Apply(s0, CheckReschedule(1, h));
    assert At(s1, 1) == Planned(Sample(b, 20, [d]), h);
    var s2 := Apply(s1, Write(1));
    assert At(s2, 0) == Cleared(Sample(a, 0, []), d);
    assert GS.WithDevice(Sample(a, 0, []), d) == Sample(a, 0, [d]);
    var t := Apply(s2, Write(0));
    RunIsDone(t);
    RunStep(s2, Write(0), [], t);
    RunStep(s1, Write(1), [Write(0)] + [], t);
    RunStep(s0, CheckReschedule(1, h), [Write(1)] + ([Write(0)] + []), t);
    RunOn(s, Checks(0, a, d), s0, [CheckReschedule(1, h)] + ([Write(1)] + ([Write(0)] + [])), t);
    RunOn(EMPTY, Opening(a, b, d), s, MovedUnderAnAddition(a, b, d), t);
    BothHave(t.groups, a, 0, b, 5, d);
  }

  lemma RunIsDone(t: State)
    ensures Run(t, [], t)
  {
  }

  /** A group moves, and while its row is being written another request adds the device completely. */
  function AddedUnderAMove(a: string, b: string, d: string): seq<Step> {
    [CheckReschedule(1, Sample(b, 5, [d]))] + ((Checks(0, a, d) + Finishes(0)) + ([Write(1)] + []))
  }

  lemma AdditionUnderAMoveBooksTwice(a: string, b: string, d: string)
    requires a != b
    ensures exists t :: Run(EMPTY, Opening(a, b, d) + AddedUnderAMove(a, b, d), t) && !NoOverlap(t.groups)
  {
    hide ScheduleOk, Run, NoOverlap;
    OpeningRuns(a, b, d);
    var s := Opened(a, b, d);
    var h := Sample(b, 5, [d]);
    SamplesAreOk(b, 5, [d]);
    OnlyOther(s.groups, b, a, 0, [], [d], 5);
    var s0 := Apply(s, CheckReschedule(1, h));
    OnlyOther(s0.groups, a, b, 20, [d], [d], 0);
    BooksRun(s0, 0, a, 0, d);
    var s1 := Booked(s0, 0, Sample(a, 0, [d]));
    assert At(s1, 1) == Planned(Sample(b, 20, [d]), h);
    var t := Apply(s1, Write(1));
    RunIsDone(t);
    RunStep(s1, Write(1), [], t);
    RunOn(s0, Checks(0, a, d) + Finishes(0), s1, [Write(1)] + [], t);
    RunStep(s, CheckReschedule(1, h), (Checks(0, a, d) + Finishes(0)) + ([Write(1)] + []), t);
    RunOn(EMPTY, Opening(a, b, d), s, AddedUnderAMove(a, b, d), t);
    BothHave(t.groups, a, 0, b, 5, d);
  }

  /** Two groups with the same device move to the same time, and both checks come before both writes. */
  function MovedTogether(a: string, b: string, d: string): seq<Step> {
    (Checks(0, a, d) + Finishes(0)) +
    ([CheckReschedule(0, Sample(a, 40, [d]))] + ([CheckReschedule(1, Sample(b, 45, [d]))] + ([Write(0)] + ([Write(1)] + []))))
  }

  lemma MovesTogetherBookTwice(a: string, b: string, d: string)
    requires a != b
    ensures exists t :: Run(EMPTY, Opening(a, b, d) + MovedTogether(a, b, d), t) && !NoOverlap(t.groups)
  {
    hide ScheduleOk, Run, NoOverlap;
    OpeningRuns(a, b, d);
    var s := Opened(a, b, d);
    OnlyOther(s.groups, a, b, 20, [d], [d], 0);
    BooksRun(s, 0, a, 0, d);
    var s0 := Booked(s, 0, Sample(a, 0, [d]));
    var g, h := Sample(a, 40, [d]), Sample(b, 45, [d]);
    SamplesAreOk(a, 40, [d]);
    SamplesAreOk(b, 45, [d]);
    OnlyOther(s0.groups, a, b, 20, [d], [d], 40);
    OnlyOther(s0.groups, b, a, 0, [d], [d], 45);
    var s1 := Apply(s0, CheckReschedule(0, g));
    var s2 := Apply(s1, CheckReschedule(1, h));
    assert At(s2, 0) == Planned(Sample(a, 0, [d]), g) && At(s2, 1) == Planned(Sample(b, 20, [d]), h);
    var s3 := Apply(s2, Write(0));
    var t := Apply(s3, Write(1));
    RunIsDone(t);
    RunStep(s3, Write(1), [], t);
    RunStep(s2, Write(0), [Write(1)] + [], t);
    RunStep(s1, CheckReschedule(1, h), [Write(0)] + ([Write(1)] + []), t);
    RunStep(s0, CheckReschedule(0, g), [CheckReschedule(1, h)] + ([Write(0)] + ([Write(1)] + [])), t);
    RunOn(s, Checks(0, a, d) + Finishes(0), s0,
          [CheckReschedule(0, g)] + ([CheckReschedule(1, h)] + ([Write(0)] + ([Write(1)] + []))), t);
    RunOn(EMPTY, Opening(a, b, d), s, MovedTogether(a, b, d), t);
    BothHave(t.groups, a, 40, b, 45, d);
  }
}
