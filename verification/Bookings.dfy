/** Recurring bookings of devices: when two of them collide, and what a schedule may be. */
module Bookings {
  import opened Wrappers

  const ONE_HOUR := 3600000
  const ONE_DAY := 86400000

  /** Half open: a booking that stops when another starts does not touch it. */
  datatype Interval = Interval(start: int, stop: int)

  predicate Contains(i: Interval, t: int) {
    i.start <= t < i.stop
  }

  /** `Unknown` is any string that names no class. */
  datatype Class =
    Bookable | Standard | Once | Debug | Hourly | Daily | Weekly | Monthly | Quaterly | HalfYearly | Yearly | Unknown

  datatype Length = Infinite | Finite(time: int)

  function ClassDuration(c: Class): Length
    requires !c.Unknown?
  {
    match c
    case Bookable | Standard | Once => Infinite
    case Hourly => Finite(ONE_HOUR)
    case Daily => Finite(ONE_DAY)
    case Weekly => Finite(7 * ONE_DAY)
    case Monthly => Finite(30 * ONE_DAY)
    case Quaterly => Finite(90 * ONE_DAY)
    case HalfYearly => Finite(180 * ONE_DAY)
    case Yearly => Finite(365 * ONE_DAY)
    case Debug => Finite(300000)
  }

  /** How long a booking of a class may be, and how far apart its repetitions are, in minutes; the others have no
      limit and are not repeated. */
  const MINUTES := map[Debug := 5, Hourly := 60, Daily := 1440, Weekly := 10080, Monthly := 43200, Quaterly := 129600,
                       HalfYearly := 259200, Yearly := 525600]

  lemma ClassesLastMinutes(c: Class)
    requires !c.Unknown?
    ensures ClassDuration(c) == if c in MINUTES then Finite(60000 * MINUTES[c]) else Infinite
    ensures StepOf(c) == if c in MINUTES then 60000 * MINUTES[c] else 0
  {
    assert ONE_HOUR == 60000 * 60 && ONE_DAY == 60000 * 1440;
  }

  predicate IsOrigin(c: Class) {
    c.Bookable? || c.Standard?
  }

  predicate IsForAdmins(c: Class) {
    IsOrigin(c) || c.Debug?
  }

  datatype Privilege = Root | Admin | User

  datatype State = Pending | Waiting | Ready

  datatype Group = Group(
    id: string, name: string, owner: string, privilege: Privilege, class_: Class, state: State, isActive: bool,
    repetitions: nat, dates: seq<Interval>, devices: seq<string>, duration: int)

  // ---------------------------------------------------------------- occurrences

  /** The k-th occurrence of a booking that recurs every `step`. */
  function Occurrence(life: Interval, step: int, k: nat): Interval {
    Interval(life.start + k * step, life.stop + k * step)
  }

  function Dates(life: Interval, step: int, repetitions: nat): seq<Interval> {
    seq(repetitions + 1, k requires 0 <= k => Occurrence(life, step, k))
  }

  function StepOf(c: Class): int {
    if c.Unknown? || ClassDuration(c).Infinite? then 0 else ClassDuration(c).time
  }

  /** The first occurrence and, one class duration after the other, the repetitions. */
  method ComputeGroupDates(life: Interval, c: Class, repetitions: nat) returns (dates: seq<Interval>)
    requires !c.Unknown? && (ClassDuration(c).Infinite? ==> repetitions == 0)
    ensures dates == Dates(life, StepOf(c), repetitions)
  {
    dates := [life];
    var current := life;
    for repetition := 1 to repetitions + 1
      invariant current == Occurrence(life, StepOf(c), repetition - 1)
      invariant dates == Dates(life, StepOf(c), repetition - 1)
    {
      var step := ClassDuration(c).time;
      current := Interval(current.start + step, current.stop + step);
      dates := dates + [current];
      NextOccurrence(life, step, repetition);
    }
  }

  lemma NextOccurrence(life: Interval, step: int, k: nat)
    requires k > 0
    ensures Occurrence(life, step, k) ==
      Interval(Occurrence(life, step, k - 1).start + step, Occurrence(life, step, k - 1).stop + step)
    ensures Dates(life, step, k) == Dates(life, step, k - 1) + [Occurrence(life, step, k)]
  {
    assert k * step == (k - 1) * step + step;
  }

  predicate Overlap(a: Interval, b: Interval) {
    a.start < b.stop && a.stop > b.start
  }

  /** Two bookings overlap exactly when some moment belongs to both. */
  lemma OverlapMeansSharedMoment(a: Interval, b: Interval)
    requires a.start < a.stop && b.start < b.stop
    ensures Overlap(a, b) <==> exists t :: Contains(a, t) && Contains(b, t)
  {
    if Overlap(a, b) {
      var t := if a.start < b.start then b.start else a.start;
      assert Contains(a, t) && Contains(b, t);
    }
  }

  predicate Inside(a: Interval, b: Interval) {
    b.start <= a.start && a.stop <= b.stop
  }

  /** A schedule whose life fits into its period never meets itself. */
  lemma {:induction false} OccurrencesAreDisjoint(life: Interval, step: int, i: nat, j: nat)
    requires life.start < life.stop <= life.start + step && i < j
    ensures !Overlap(Occurrence(life, step, i), Occurrence(life, step, j))
  {
    assert (j - i) * step >= step by {
      assert (j - i - 1) * step >= 0;
    }
    assert j * step == i * step + (j - i) * step;
  }

  /** Starting later, stopping earlier and recurring no more often only frees time. */
  lemma ShrunkIsInside(life: Interval, life': Interval, step: int, repetitions: nat, repetitions': nat, k: nat)
    requires Inside(life', life) && k <= repetitions' <= repetitions
    ensures Inside(Dates(life', step, repetitions')[k], Dates(life, step, repetitions)[k])
  {
  }

  // ---------------------------------------------------------------- conflicts

  predicate Transient(g: Group) {
    !IsOrigin(g.class_)
  }

  predicate DatesOverlap(a: seq<Interval>, b: seq<Interval>) {
    exists i, j :: 0 <= i < |a| && 0 <= j < |b| && Overlap(a[i], b[j])
  }

  predicate Share(a: seq<string>, b: seq<string>) {
    exists s :: s in a && s in b
  }

  predicate Collide(devices: seq<string>, dates: seq<Interval>, g: Group) {
    Share(devices, g.devices) && DatesOverlap(dates, g.dates)
  }

  datatype Conflict = Conflict(devices: seq<string>, date: Interval, group: string, owner: string)

  function Without(s: seq<string>, x: string): (r: seq<string>)
    ensures forall y :: y in r <==> y in s && y != x
  {
    if s == [] then [] else if s[0] == x then Without(s[1..], x) else [s[0]] + Without(s[1..], x)
  }

  /** The distinct elements of `a` that are in `b`, in the order of `a`. */
  function Intersection(a: seq<string>, b: seq<string>): (r: seq<string>)
    ensures forall x :: x in r <==> x in a && x in b
    decreases |a|
  {
    if a == [] then []
    else if a[|a| - 1] in b && a[|a| - 1] !in a[..|a| - 1] then Intersection(a[..|a| - 1], b) + [a[|a| - 1]]
    else Intersection(a[..|a| - 1], b)
  }

  function Cut(a: Interval, b: Interval): Interval {
    Interval(if a.start < b.start then b.start else a.start, if a.stop < b.stop then a.stop else b.stop)
  }

  function ConflictOf(d: Interval, e: Interval, shared: seq<string>, g: Group): Conflict {
    Conflict(shared, Cut(d, e), g.name, g.owner)
  }

  /** The conflicts of one date with the first `n` dates of a group. */
  function DateConflicts(d: Interval, shared: seq<string>, g: Group, n: nat): seq<Conflict>
    requires n <= |g.dates|
  {
    if n == 0 then []
    else DateConflicts(d, shared, g, n - 1) + if Overlap(d, g.dates[n - 1]) then [ConflictOf(d, g.dates[n - 1], shared, g)] else []
  }

  function GroupConflicts(dates: seq<Interval>, shared: seq<string>, g: Group): seq<Conflict> {
    if dates == [] then []
    else GroupConflicts(dates[..|dates| - 1], shared, g) + DateConflicts(dates[|dates| - 1], shared, g, |g.dates|)
  }

  function AllConflicts(id: string, devices: seq<string>, dates: seq<Interval>, groups: seq<Group>): seq<Conflict> {
    if groups == [] then []
    else
      var g := groups[|groups| - 1];
      AllConflicts(id, devices, dates, groups[..|groups| - 1]) +
      if g.id == id || Intersection(devices, g.devices) == [] then [] else GroupConflicts(dates, Intersection(devices, g.devices), g)
  }

  method ComputeConflicts(conflicts: seq<Conflict>, id: string, devices: seq<string>, dates: seq<Interval>, g: Group)
    returns (more: seq<Conflict>)
    ensures more == conflicts + AllConflicts(id, devices, dates, [g])
  {
    assert [g][..0] == [];
    if g.id == id {
      return conflicts;
    }
    var shared := Intersection(devices, g.devices);
    if shared == [] {
      return conflicts;
    }
    more := conflicts;
    for i := 0 to |dates|
      invariant more == conflicts + GroupConflicts(dates[..i], shared, g)
    {
      for j := 0 to |g.dates|
        invariant more == conflicts + GroupConflicts(dates[..i], shared, g) + DateConflicts(dates[i], shared, g, j)
      {
        if Overlap(dates[i], g.dates[j]) {
          more := more + [ConflictOf(dates[i], g.dates[j], shared, g)];
        }
      }
      assert dates[..i + 1][..i] == dates[..i];
    }
    assert dates[..|dates|] == dates;
  }

  method CheckConflicts(id: string, devices: seq<string>, dates: seq<Interval>,
                        groups: seq<Group>) returns (conflicts: seq<Conflict>)
    ensures conflicts == AllConflicts(id, devices, dates, groups)
  {
    conflicts := [];
    for n := 0 to |groups|
      invariant conflicts == AllConflicts(id, devices, dates, groups[..n])
    {
      conflicts := ComputeConflicts(conflicts, id, devices, dates, groups[n]);
      assert groups[..n + 1][..n] == groups[..n] && [groups[n]][..0] == [];
    }
    assert groups[..|groups|] == groups;
  }

  /** A conflict of two dates says which devices are wanted twice, from the later start to the earlier stop, and by
      whose group. */
  predicate Tells(c: Conflict, d: Interval, e: Interval, shared: seq<string>, g: Group) {
    && c.devices == shared && c.group == g.name && c.owner == g.owner
    && c.date.start in {d.start, e.start} && d.start <= c.date.start && e.start <= c.date.start
    && c.date.stop in {d.stop, e.stop} && c.date.stop <= d.stop && c.date.stop <= e.stop
  }

  lemma OneTells(c: Conflict, d: Interval, e: Interval, shared: seq<string>, g: Group)
    ensures Tells(c, d, e, shared, g) <==> c == ConflictOf(d, e, shared, g)
  {
  }

  /** `c` is the time that one of the dates shares with one of the group's. */
  ghost predicate IsConflict(c: Conflict, dates: seq<Interval>, shared: seq<string>, g: Group) {
    exists i, j :: 0 <= i < |dates| && 0 <= j < |g.dates| && Overlap(dates[i], g.dates[j]) && Tells(c, dates[i], g.dates[j], shared, g)
  }

  ghost predicate IsDateConflict(c: Conflict, d: Interval, shared: seq<string>, g: Group, n: nat) {
    exists j :: 0 <= j < n <= |g.dates| && Overlap(d, g.dates[j]) && Tells(c, d, g.dates[j], shared, g)
  }

  lemma {:induction false} DateConflictsAreExact(c: Conflict, d: Interval, shared: seq<string>, g: Group, n: nat)
    requires n <= |g.dates|
    ensures c in DateConflicts(d, shared, g, n) <==> IsDateConflict(c, d, shared, g, n)
  {
    hide Tells, ConflictOf;
    if n > 0 {
      DateConflictsAreExact(c, d, shared, g, n - 1);
      OneTells(c, d, g.dates[n - 1], shared, g);
    }
  }

  lemma ConflictIsInSomeDate(c: Conflict, dates: seq<Interval>, shared: seq<string>, g: Group)
    ensures IsConflict(c, dates, shared, g) <==> exists i :: 0 <= i < |dates| && IsDateConflict(c, dates[i], shared, g, |g.dates|)
  {
    if IsConflict(c, dates, shared, g) {
      var i, j :| 0 <= i < |dates| && 0 <= j < |g.dates| && Overlap(dates[i], g.dates[j]) && Tells(c, dates[i], g.dates[j], shared, g);
      assert IsDateConflict(c, dates[i], shared, g, |g.dates|);
    }
    if i :| 0 <= i < |dates| && IsDateConflict(c, dates[i], shared, g, |g.dates|) {
      var j :| 0 <= j < |g.dates| && Overlap(dates[i], g.dates[j]) && Tells(c, dates[i], g.dates[j], shared, g);
    }
  }

  lemma {:induction false} GroupConflictsAreExact(c: Conflict, dates: seq<Interval>, shared: seq<string>, g: Group)
    ensures c in GroupConflicts(dates, shared, g) <==> IsConflict(c, dates, shared, g)
  {
    hide IsConflict, IsDateConflict;
    ConflictIsInSomeDate(c, dates, shared, g);
    if dates != [] {
      var front, last := dates[..|dates| - 1], dates[|dates| - 1];
      GroupConflictsAreExact(c, front, shared, g);
      ConflictIsInSomeDate(c, front, shared, g);
      DateConflictsAreExact(c, last, shared, g, |g.dates|);
      assert forall i | 0 <= i < |front| :: front[i] == dates[i];
    }
  }

  ghost predicate Conflicts(c: Conflict, id: string, devices: seq<string>, dates: seq<Interval>, g: Group) {
    g.id != id && Share(devices, g.devices) && IsConflict(c, dates, Intersection(devices, g.devices), g)
  }

  /** Exactly the overlaps with other groups over common devices are reported. */
  lemma {:induction false} ConflictsAreExact(c: Conflict, id: string, devices: seq<string>, dates: seq<Interval>,
                                             groups: seq<Group>)
    ensures c in AllConflicts(id, devices, dates, groups) <==> exists k :: 0 <= k < |groups| && Conflicts(c, id, devices, dates, groups[k])
  {
    hide IsConflict, Share;
    if groups != [] {
      var front, g := groups[..|groups| - 1], groups[|groups| - 1];
      ConflictsAreExact(c, id, devices, dates, front);
      GroupConflictsAreExact(c, dates, Intersection(devices, g.devices), g);
      SharedMeansIntersection(devices, g.devices);
      assert forall k | 0 <= k < |front| :: front[k] == groups[k];
    }
  }

  lemma SharedMeansIntersection(a: seq<string>, b: seq<string>)
    ensures Share(a, b) <==> Intersection(a, b) != []
  {
    if Intersection(a, b) != [] {
      assert Intersection(a, b)[0] in Intersection(a, b);
    }
  }

  /** No conflict is reported if and only if there is none. */
  lemma NoConflictMeansNone(id: string, devices: seq<string>, dates: seq<Interval>, groups: seq<Group>)
    ensures AllConflicts(id, devices, dates, groups) == [] <==>
      forall k | 0 <= k < |groups| && groups[k].id != id :: !Collide(devices, dates, groups[k])
  {
    var all := AllConflicts(id, devices, dates, groups);
    if all != [] {
      ConflictsAreExact(all[0], id, devices, dates, groups);
      var k :| 0 <= k < |groups| && Conflicts(all[0], id, devices, dates, groups[k]);
      assert DatesOverlap(dates, groups[k].dates);
    }
    forall k | 0 <= k < |groups| && groups[k].id != id && Collide(devices, dates, groups[k])
      ensures all != []
    {
      var g := groups[k];
      var i, j :| 0 <= i < |dates| && 0 <= j < |g.dates| && Overlap(dates[i], g.dates[j]);
      var c := ConflictOf(dates[i], g.dates[j], Intersection(devices, g.devices), g);
      OneTells(c, dates[i], g.dates[j], Intersection(devices, g.devices), g);
      assert IsConflict(c, dates, Intersection(devices, g.devices), g);
      assert Conflicts(c, id, devices, dates, g);
      ConflictsAreExact(c, id, devices, dates, groups);
    }
  }

  /** A reported time is a real one, common to both. */
  lemma CutIsCommon(a: Interval, b: Interval, t: int)
    ensures Contains(Cut(a, b), t) <==> Contains(a, t) && Contains(b, t)
  {
  }

  // ---------------------------------------------------------------- no device is booked twice

  ghost predicate Apart(g: Group, h: Group) {
    Transient(g) && Transient(h) ==> !Collide(g.devices, g.dates, h)
  }

  /** No other transient group books any of these devices at any of these times. */
  ghost predicate Free(groups: map<string, Group>, id: string, devices: seq<string>, dates: seq<Interval>) {
    forall k | k in groups && k != id && Transient(groups[k]) :: !Collide(devices, dates, groups[k])
  }

  ghost predicate NoOverlap(groups: map<string, Group>) {
    forall a, b | a in groups && b in groups && a != b :: Apart(groups[a], groups[b])
  }

  /** What the absence of overlaps is for: at no moment do two bookings hold the same device. */
  lemma NeverBookedTwice(groups: map<string, Group>, a: string, b: string, i: nat, j: nat, serial: string, t: int)
    requires NoOverlap(groups) && a in groups && b in groups && Transient(groups[a]) && Transient(groups[b])
    requires ScheduleOk(groups[a]) && ScheduleOk(groups[b])
    requires serial in groups[a].devices && serial in groups[b].devices
    requires i < |groups[a].dates| && j < |groups[b].dates|
    requires Contains(groups[a].dates[i], t) && Contains(groups[b].dates[j], t)
    ensures a == b && i == j
  {
    var x, y := groups[a].dates[i], groups[b].dates[j];
    assert Overlap(x, y);
    if a != b {
      assert Apart(groups[a], groups[b]);
      assert Share(groups[a].devices, groups[b].devices);
      assert false;
    }
    var g := groups[a];
    if i < j {
      OccurrencesAreDisjoint(g.dates[0], StepOf(g.class_), i, j);
    } else if j < i {
      OccurrencesAreDisjoint(g.dates[0], StepOf(g.class_), j, i);
    }
  }

  /** A group's dates are the occurrences of the first, and these fit into the period of its class. */
  ghost predicate ScheduleOk(g: Group) {
    && !g.class_.Unknown? && |g.dates| == g.repetitions + 1
    && g.dates == Dates(g.dates[0], StepOf(g.class_), g.repetitions)
    && g.dates[0].start < g.dates[0].stop
    && (ClassDuration(g.class_).Infinite? ==> g.repetitions == 0)
    && (ClassDuration(g.class_).Finite? ==> g.dates[0].stop <= g.dates[0].start + ClassDuration(g.class_).time)
  }

  lemma CollideIsMutual(g: Group, h: Group)
    ensures Collide(g.devices, g.dates, h) <==> Collide(h.devices, h.dates, g)
  {
    if DatesOverlap(g.dates, h.dates) {
      var i, j :| 0 <= i < |g.dates| && 0 <= j < |h.dates| && Overlap(g.dates[i], h.dates[j]);
      assert Overlap(h.dates[j], g.dates[i]);
    }
    if DatesOverlap(h.dates, g.dates) {
      var i, j :| 0 <= i < |h.dates| && 0 <= j < |g.dates| && Overlap(h.dates[i], g.dates[j]);
      assert Overlap(g.dates[j], h.dates[i]);
    }
  }

  /** A row may be put in if it collides with no other transient row. */
  lemma PutKeepsApart(groups: map<string, Group>, id: string, g: Group)
    requires NoOverlap(groups)
    requires Transient(g) ==> Free(groups, id, g.devices, g.dates)
    ensures NoOverlap(groups[id := g])
  {
    var more := groups[id := g];
    forall a, b | a in more && b in more && a != b
      ensures Apart(more[a], more[b])
    {
      CollideIsMutual(more[a], more[b]);
      if a != id && b != id {
        assert Apart(groups[a], groups[b]);
      }
    }
  }

  /** What takes no more time and no more devices than another booking collides with no more. */
  lemma LessCollidesLess(devices: seq<string>, dates: seq<Interval>, devices': seq<string>, dates': seq<Interval>,
                         h: Group)
    requires forall s | s in devices' :: s in devices
    requires |dates'| <= |dates| && forall k | 0 <= k < |dates'| :: Inside(dates'[k], dates[k])
    ensures Collide(devices', dates', h) ==> Collide(devices, dates, h)
  {
    if Collide(devices', dates', h) {
      var s :| s in devices' && s in h.devices;
      assert s in devices;
      var i, j :| 0 <= i < |dates'| && 0 <= j < |h.dates| && Overlap(dates'[i], h.dates[j]);
      assert Overlap(dates[i], h.dates[j]);
    }
  }

  /** One more device adds only the collisions over that device. */
  lemma OneMoreDevice(devices: seq<string>, serial: string, dates: seq<Interval>, h: Group)
    requires Collide(devices + [serial], dates, h)
    ensures Collide(devices, dates, h) || Collide([serial], dates, h)
  {
    var s :| s in devices + [serial] && s in h.devices;
    if s == serial {
      assert s in [serial];
    } else {
      assert s in devices;
    }
  }

  /** Same class, no earlier start, no later stop, no more repetitions. */
  predicate OnlyShrinks(before: Group, after: Group) {
    && before.dates != [] && after.dates != []
    && before.dates[0].start <= after.dates[0].start && after.dates[0].stop <= before.dates[0].stop
    && after.repetitions <= before.repetitions && after.class_ == before.class_
  }

  lemma ShrunkDatesAreInside(before: Group, after: Group)
    requires ScheduleOk(before) && ScheduleOk(after) && OnlyShrinks(before, after)
    ensures |after.dates| <= |before.dates| && forall k | 0 <= k < |after.dates| :: Inside(after.dates[k], before.dates[k])
  {
    forall k | 0 <= k < |after.dates|
      ensures Inside(after.dates[k], before.dates[k])
    {
      ShrunkIsInside(before.dates[0], after.dates[0], StepOf(after.class_), before.repetitions, after.repetitions, k);
    }
  }

  /** Why the conflict check may be skipped: same class, later start, earlier stop, no more repetitions. */
  lemma ShrinkingNeedsNoCheck(groups: map<string, Group>, id: string, g: Group)
    requires NoOverlap(groups) && id in groups && ScheduleOk(groups[id]) && ScheduleOk(g)
    requires OnlyShrinks(groups[id], g)
    requires forall s | s in g.devices :: s in groups[id].devices
    ensures NoOverlap(groups[id := g])
  {
    var h := groups[id];
    ShrunkDatesAreInside(h, g);
    forall b | b in groups && b != id && Transient(groups[b]) && Transient(g)
      ensures !Collide(g.devices, g.dates, groups[b])
    {
      assert Apart(h, groups[b]);
      LessCollidesLess(h.devices, h.dates, g.devices, g.dates, groups[b]);
    }
    PutKeepsApart(groups, id, g);
  }
}
