/** What the group controller does with a request, once it holds the group's lock. */
module GroupRequests {
  import opened Wrappers
  import opened Bookings
  import opened GroupStore

  /** Nobody but the group `id` and its owner was touched. */
  ghost predicate OnlyTouches(id: string, users: map<string, Account>, groups: map<string, Group>,
                              users': map<string, Account>, groups': map<string, Group>)
    requires id in groups
  {
    && users'.Keys == users.Keys && groups'.Keys == groups.Keys
    && (forall k | k in groups && k != id :: groups'[k] == groups[k])
    && (forall e | e in users && e != groups[id].owner :: users'[e] == users[e])
  }

  /** No conflict with the rows that were read is no conflict with any group. */
  lemma NoConflictAtAll(db: Database, id: string, devices: seq<string>, dates: seq<Interval>, rows: seq<Group>)
    requires db.Valid() && AllConflicts(id, devices, dates, rows) == []
    requires forall k | k in db.groups && Transient(db.groups[k]) :: db.groups[k] in rows
    ensures Free(db.groups, id, devices, dates)
  {
    NoConflictMeansNone(id, devices, dates, rows);
    forall k | k in db.groups && k != id && Transient(db.groups[k])
      ensures !Collide(devices, dates, db.groups[k])
    {
      assert RowOk(k, db.groups[k], db.users);
      var n :| 0 <= n < |rows| && rows[n] == db.groups[k];
    }
  }

  method FindConflicts(db: Database, id: string, devices: seq<string>,
                       dates: seq<Interval>) returns (conflicts: seq<Conflict>)
    requires db.Valid()
    ensures conflicts == [] <==> Free(db.groups, id, devices, dates)
  {
    var rows := db.GetTransientGroups();
    conflicts := CheckConflicts(id, devices, dates, rows);
    if conflicts == [] {
      NoConflictAtAll(db, id, devices, dates, rows);
    } else {
      NoConflictMeansNone(id, devices, dates, rows);
      var n :| 0 <= n < |rows| && rows[n].id != id && Collide(devices, dates, rows[n]);
      var k :| k in db.groups && db.groups[k] == rows[n];
      assert RowOk(k, db.groups[k], db.users);
    }
  }

  // ---------------------------------------------------------------- create

  /** The class, repetitions and life asked for, with what a request may leave out filled in. */
  function ClassAsked(class_: Option<Class>): Class {
    if class_.Some? then class_.value else Once
  }

  function RepetitionsAsked(c: Class, repetitions: Option<nat>): nat {
    if IsOrigin(c) || repetitions.None? then 0 else repetitions.value
  }

  function StartAsked(c: Class, start: Time, now: int): Option<int> {
    if IsOrigin(c) then Some(now) else OrElse(start, now)
  }

  function StopAsked(c: Class, stop: Time, now: int): Option<int> {
    if IsOrigin(c) then Some(now + 365 * ONE_DAY) else OrElse(stop, now + ONE_HOUR)
  }

  /** What a request that leaves something out is taken to ask for: a booking of one hour from now on, once; a home for
      devices always lasts a year from now on. */
  lemma LeftOutMeans(c: Class, start: Time, stop: Time, now: int, repetitions: Option<nat>)
    ensures ClassAsked(None) == Once && ClassAsked(Some(c)) == c
    ensures c in {Class.Bookable, Class.Standard} ==>
      StartAsked(c, start, now) == Some(now) && StopAsked(c, stop, now) == Some(now + 60000 * 525600) && RepetitionsAsked(c, repetitions) == 0
    ensures c !in {Class.Bookable, Class.Standard} ==>
      && StartAsked(c, Absent, now) == Some(now) && StopAsked(c, Absent, now) == Some(now + 60000 * 60)
      && (start.At? ==> StartAsked(c, start, now) == Some(start.time)) && (stop.At? ==> StopAsked(c, stop, now) == Some(stop.time))
      && StartAsked(c, Invalid, now) == None == StopAsked(c, Invalid, now)
      && RepetitionsAsked(c, repetitions) == match repetitions { case None => 0 case Some(n) => n }
  {
    assert ONE_HOUR == 60000 * 60 && 365 * ONE_DAY == 60000 * 525600;
  }

  /** Whether a new group is what the schedule rules and the quota allow. */
  predicate MayCreate(account: Account, privilege: Privilege, c: Class, repetitions: nat, start: Option<int>,
                      stop: Option<int>) {
    && CheckSchedule(None, c, account.repetitions, repetitions, privilege, start, stop) == None
    && account.consumedNumber < account.allocatedNumber
  }

  method CreateGroup(db: Database, id: string, name: string, email: string, privilege: Privilege, class_: Option<Class>,
                     repetitions: Option<nat>, start: Time, stop: Time, state: Option<State>, now: int) returns (reply: Reply)
    requires db.Valid() && id !in db.groups && email in db.users && !privilege.Root?
    modifies db
    ensures db.Valid()
    ensures reply.Done? || reply == Refused(BAD_REQUEST) || reply == Refused(FORBIDDEN)
    ensures !reply.Done? ==> db.groups == old(db.groups) && db.users == old(db.users)
    ensures var c := ClassAsked(class_);
      reply.Done? <==> MayCreate(old(db.users)[email], privilege, c, RepetitionsAsked(c, repetitions), StartAsked(c, start, now), StopAsked(c, stop, now))
    ensures reply.Done? ==> db.groups == old(db.groups)[id := reply.group]
    ensures reply.Done? ==>
      db.users == old(db.users)[email := old(db.users)[email].(consumedNumber := old(db.users)[email].consumedNumber + 1)]
    ensures reply.Done? ==>
      var g, c := reply.group, ClassAsked(class_);
      && g.id == id && g.name == name && g.owner == email && g.privilege == privilege && g.class_ == c && g.devices == [] && g.duration == 0
      && g.repetitions == RepetitionsAsked(c, repetitions) && ScheduleOk(g)
      && Some(g.dates[0].start) == StartAsked(c, start, now) && Some(g.dates[0].stop) == StopAsked(c, stop, now)
      && g.state == (if IsOrigin(c) || state.None? then Ready else state.value) && (g.isActive <==> IsOrigin(c))
  {
    hide Books;
    var c := ClassAsked(class_);
    var reps, from, to := RepetitionsAsked(c, repetitions), StartAsked(c, start, now), StopAsked(c, stop, now);
    var refusal := CheckSchedule(None, c, db.users[email].repetitions, reps, privilege, from, to);
    if refusal.Some? {
      return Refused(refusal.value);
    }
    var ready := if IsOrigin(c) || state.None? then Ready else state.value;
    var dates := ComputeGroupDates(Interval(from.value, to.value), c, reps);
    var g := Group(id, name, email, privilege, c, ready, ready.Ready? && IsOrigin(c), reps, dates, [], 0);
    CheckedScheduleIsOk(None, c, db.users[email].repetitions, reps, privilege, from, to, g);
    var created := db.CreateUserGroup(g);
    return if created.Some? then Done(created.value) else Refused(FORBIDDEN);
  }

  // ---------------------------------------------------------------- devices

  /** The serials a request names that the group does not have yet; without a list, all that can be had. */
  function Wanted(serials: Option<seq<string>>, bookable: seq<string>, devices: seq<string>): seq<string> {
    match serials
    case None => Difference(bookable, devices)
    case Some(list) => Difference(Without(list, ""), devices)
  }

  /** What is worked through is new to the group and was named, or can be had if nothing was named. */
  lemma WantedIff(serials: Option<seq<string>>, bookable: seq<string>, devices: seq<string>, x: string)
    ensures x in Wanted(serials, bookable, devices) <==>
      && x !in devices
      && match serials { case None => x in bookable case Some(list) => x in list && x != "" }
  {
  }

  /** One device: nobody else's booking may be in the way, and the quota must allow it. */
  method AddGroupDevice(db: Database, group: Group, serial: string) returns (reply: Reply)
    requires db.Valid() && group.id in db.groups && db.groups[group.id] == group && Transient(group)
    modifies db
    ensures db.Valid() && OnlyTouches(group.id, old(db.users), old(db.groups), db.users, db.groups)
    ensures group.dates != []
    ensures reply.Done? ==> reply.group == WithDevice(group, serial) == db.groups[group.id]
    ensures !reply.Done? ==> db.groups == old(db.groups) && db.users == old(db.users)
    ensures reply.Conflicting? ==> reply.conflicts != []
    ensures reply.Conflicting? <==> !Free(old(db.groups), group.id, [serial], group.dates)
    ensures reply.Done? || reply.Conflicting? || reply == Refused(FORBIDDEN)
    ensures reply.Done? <==> (
      && Free(old(db.groups), group.id, [serial], group.dates)
      && Exchangeable(old(db.users), group.owner, group.duration, ComputeDuration(group, 1))
      && group.duration != ComputeDuration(group, 1))
  {
    hide Books, Free, ComputeDuration;
    OwnerIsKnown(db.users, db.groups, group.id);
    var conflicts := FindConflicts(db, group.id, [serial], group.dates);
    if conflicts != [] {
      return Conflicting(conflicts);
    }
    var added := db.AddDevice(group, serial);
    return if added.Some? then Done(added.value) else Refused(FORBIDDEN);
  }

  /** Some of what was wanted was added, at least the first `n`. */
  ghost predicate Added(before: seq<string>, after: seq<string>, wanted: seq<string>, bookable: seq<string>, n: nat) {
    && (forall s | s in before :: s in after)
    && (forall s | s in after :: s in before || (s in wanted && s in bookable))
    && (forall k | 0 <= k < n <= |wanted| && wanted[k] in bookable :: wanted[k] in after)
  }

  lemma OneMoreAdded(before: seq<string>, after: seq<string>, wanted: seq<string>, bookable: seq<string>, n: nat)
    requires Added(before, after, wanted, bookable, n) && n < |wanted|
    ensures wanted[n] in bookable ==> Added(before, Union(after, wanted[n]), wanted, bookable, n + 1)
    ensures wanted[n] !in bookable ==> Added(before, after, wanted, bookable, n + 1)
  {
  }

  // ---------------------------------------------------------------- devices named twice

  /** The devices among those wanted that can be had, each as often as it is named. */
  function Bookable(wanted: seq<string>, bookable: seq<string>): seq<string>
    decreases |wanted|
  {
    if wanted == [] then []
    else Bookable(wanted[..|wanted| - 1], bookable) + if wanted[|wanted| - 1] in bookable then [wanted[|wanted| - 1]] else []
  }

  predicate Charged(g: Group) {
    g.dates != [] && g.duration == ComputeDuration(g, 0)
  }

  /** After `done` was added to a group that was charged for what it had. */
  ghost predicate ChargedFor(before: Group, after: Group, done: seq<string>) {
    && before.dates != [] && after.dates != []
    && (forall s :: s in after.devices <==> s in before.devices || s in done)
    && (Charged(before) ==>
          && (Charged(after) <==> Distinct(done))
          && (!Distinct(done) ==> after.duration == ComputeDuration(after, 1) && Distinct(done[..|done| - 1])))
  }

  lemma NothingIsCharged(g: Group)
    requires g.dates != []
    ensures ChargedFor(g, g, [])
  {
  }

  lemma OneMoreCharged(before: Group, after: Group, done: seq<string>, serial: string, id: string,
                       users: map<string, Account>)
    requires ChargedFor(before, after, done) && RowOk(id, after, users) && serial !in before.devices
    requires after.duration != ComputeDuration(after, 1)
    ensures ChargedFor(before, WithDevice(after, serial), done + [serial])
  {
    hide ComputeDuration, RowOk;
    var h, more := WithDevice(after, serial), done + [serial];
    ChargedExactly(id, after, serial, users);
    NextIsRefused(id, after, serial, users);
    if Charged(before) {
      assert more[..|more| - 1] == done;
      LastIsNew(done, serial);
    }
    forall s
      ensures s in h.devices <==> s in before.devices || s in more
    {
    }
  }

  lemma LastIsNew(done: seq<string>, serial: string)
    requires Distinct(done)
    ensures Distinct(done + [serial]) <==> serial !in done
  {
    var more := done + [serial];
    if serial in done {
      var i :| 0 <= i < |done| && done[i] == serial;
      assert more[i] == more[|done|];
    }
  }

  lemma {:induction false} BookableFront(wanted: seq<string>, bookable: seq<string>, n: nat)
    requires n < |wanted|
    ensures wanted[n] in bookable ==> Bookable(wanted[..n + 1], bookable) == Bookable(wanted[..n], bookable) + [wanted[n]]
    ensures wanted[n] !in bookable ==> Bookable(wanted[..n + 1], bookable) == Bookable(wanted[..n], bookable)
  {
    assert wanted[..n + 1][..n] == wanted[..n];
  }

  lemma WantedIsNew(serials: Option<seq<string>>, bookable: seq<string>, devices: seq<string>)
    ensures forall s | s in Wanted(serials, bookable, devices) :: s !in devices
  {
  }

  lemma {:induction false} DifferenceCounts(a: seq<string>, b: seq<string>, x: string)
    ensures multiset(Difference(a, b))[x] == if x in b then 0 else multiset(a)[x]
    decreases |a|
  {
    if a != [] {
      var front := a[..|a| - 1];
      DifferenceCounts(front, b, x);
      assert a == front + [a[|a| - 1]];
    }
  }

  lemma {:induction false} WithoutCounts(a: seq<string>, b: string, x: string)
    ensures multiset(Without(a, b))[x] == if x == b then 0 else multiset(a)[x]
  {
    if a != [] {
      WithoutCounts(a[1..], b, x);
      assert a == [a[0]] + a[1..];
    }
  }

  lemma {:induction false} BookableCounts(a: seq<string>, bookable: seq<string>, x: string)
    ensures multiset(Bookable(a, bookable))[x] == if x in bookable then multiset(a)[x] else 0
    decreases |a|
  {
    if a != [] {
      var front := a[..|a| - 1];
      BookableCounts(front, bookable, x);
      assert a == front + [a[|a| - 1]];
    }
  }

  lemma DistinctMeansOnce(s: seq<string>)
    ensures Distinct(s) <==> forall x :: multiset(s)[x] <= 1
  {
    if Distinct(s) {
      forall x
        ensures multiset(s)[x] <= 1
      {
        DistinctCounts(s, x);
      }
    } else {
      var i, j :| 0 <= i < j < |s| && s[i] == s[j];
      assert s == s[..i] + [s[i]] + s[i + 1..j] + [s[j]] + s[j + 1..];
      assert multiset(s)[s[i]] >= 2;
    }
  }

  lemma {:induction false} DistinctCounts(s: seq<string>, x: string)
    requires Distinct(s)
    ensures multiset(s)[x] <= 1
  {
    if s != [] {
      DistinctCounts(s[1..], x);
      assert s == [s[0]] + s[1..];
      assert s[0] !in s[1..];
    }
  }

  /** The list that is worked through names no device twice if and only if the request names none twice
      that is new to the group and can be had. */
  lemma WantedOnceIff(list: seq<string>, bookable: seq<string>, devices: seq<string>)
    ensures Distinct(Bookable(Wanted(Some(list), bookable, devices), bookable)) <==>
      forall x | x != "" && x !in devices && x in bookable :: multiset(list)[x] <= 1
  {
    var wanted := Wanted(Some(list), bookable, devices);
    DistinctMeansOnce(Bookable(wanted, bookable));
    forall x
      ensures multiset(Bookable(wanted, bookable))[x] == if x != "" && x !in devices && x in bookable then multiset(list)[x] else 0
    {
      BookableCounts(wanted, bookable, x);
      DifferenceCounts(Without(list, ""), devices, x);
      WithoutCounts(list, "", x);
    }
  }

  /** A request that names a new device twice has it worked through twice, the second time as one that
      the group has. */
  lemma NamedTwiceIsAddedTwice(group: Group, d: string, bookable: seq<string>)
    requires group.dates != [] && d != "" && d !in group.devices && d in bookable
    ensures Wanted(Some([d, d]), bookable, group.devices) == [d, d] == Bookable([d, d], bookable)
    ensures d in WithDevice(group, d).devices
  {
    assert [d, d][..1] == [d] && [d][..0] == [] && [d, d][1..] == [d];
    assert Without([d], "") == [d] && Without([d, d], "") == [d, d];
    assert Difference([d], group.devices) == [d] && Bookable([d], bookable) == [d];
  }

  /** The devices one after the other, up to the first that is refused: that is at place `n`. */
  method AddEach(db: Database, id: string, wanted: seq<string>, bookable: seq<string>) returns (reply: Reply, n: nat)
    requires db.Valid() && id in db.groups && Transient(db.groups[id])
    requires forall s | s in wanted :: s !in db.groups[id].devices
    modifies db
    ensures db.Valid() && OnlyTouches(id, old(db.users), old(db.groups), db.users, db.groups) && n <= |wanted|
    ensures Added(old(db.groups)[id].devices, db.groups[id].devices, wanted, bookable, n)
    ensures ChargedFor(old(db.groups)[id], db.groups[id], Bookable(wanted[..n], bookable))
    ensures reply.Done? ==> reply.group == db.groups[id] && n == |wanted|
    ensures reply.Conflicting? ==> reply.conflicts != []
    ensures reply.Unchanged? <==> wanted == []
    ensures reply == Refused(NOT_FOUND) <==> wanted != [] && forall s | s in wanted :: s !in bookable
  {
    hide Books, Distinct, ComputeDuration, ChargedFor;
    IdIsKey(db, id);
    OwnerIsKnown(db.users, db.groups, id);
    var group, found := db.groups[id], false;
    NothingIsCharged(group);
    n := 0;
    while n < |wanted|
      invariant n <= |wanted| && db.Valid() && id in db.groups && db.groups[id] == group && Transient(group)
      invariant group.id == id
      invariant OnlyTouches(id, old(db.users), old(db.groups), db.users, db.groups)
      invariant group.owner == old(db.groups)[id].owner
      invariant Added(old(db.groups)[id].devices, group.devices, wanted, bookable, n)
      invariant ChargedFor(old(db.groups)[id], group, Bookable(wanted[..n], bookable))
      invariant found <==> exists k :: 0 <= k < n && wanted[k] in bookable
    {
      OneMoreAdded(old(db.groups)[id].devices, group.devices, wanted, bookable, n);
      BookableFront(wanted, bookable, n);
      if wanted[n] in bookable {
        found := true;
        OwnerIsKnown(db.users, db.groups, id);
        ghost var users := db.users;
        reply := AddGroupDevice(db, group, wanted[n]);
        if !reply.Done? {
          return;
        }
        OneMoreCharged(old(db.groups)[id], group, Bookable(wanted[..n], bookable), wanted[n], id, users);
        group := reply.group;
      }
      n := n + 1;
    }
    reply := if wanted == [] then Unchanged else if !found then Refused(NOT_FOUND) else Done(group);
  }

  method AddGroupDevices(db: Database, id: string, serials: Option<seq<string>>,
                         bookable: seq<string>) returns (reply: Reply)
    requires db.Valid()
    modifies db
    ensures db.Valid()
    ensures id !in old(db.groups) ==> reply == Refused(NOT_FOUND) && db.groups == old(db.groups) && db.users == old(db.users)
    ensures id in old(db.groups) ==> OnlyTouches(id, old(db.users), old(db.groups), db.users, db.groups)
    ensures id in old(db.groups) ==>
      Added(old(db.groups)[id].devices, db.groups[id].devices, Wanted(serials, bookable, old(db.groups)[id].devices), bookable, 0)
    ensures reply.Done? ==> id in old(db.groups) && reply.group == db.groups[id]
    ensures reply.Done? ==>
      var wanted := Wanted(serials, bookable, old(db.groups)[id].devices);
      Added(old(db.groups)[id].devices, db.groups[id].devices, wanted, bookable, |wanted|)
    ensures reply.Conflicting? ==> reply.conflicts != []
    ensures id in old(db.groups) && Charged(old(db.groups)[id]) ==>
      var named := Bookable(Wanted(serials, bookable, old(db.groups)[id].devices), bookable);
      && (Distinct(named) ==> Charged(db.groups[id]))
      && (reply.Done? && !Distinct(named) ==> !Charged(db.groups[id]) && Distinct(named[..|named| - 1]))
  {
    hide Books, Distinct, ComputeDuration, Charged;
    if id !in db.groups {
      return Refused(NOT_FOUND);
    }
    var group := db.groups[id];
    if IsOrigin(group.class_) {
      return Refused(BAD_REQUEST);
    }
    var wanted := Wanted(serials, bookable, group.devices);
    WantedIsNew(serials, bookable, group.devices);
    var n;
    reply, n := AddEach(db, id, wanted, bookable);
    LessAdded(group.devices, db.groups[id].devices, wanted, bookable, n);
    BookableParts(wanted, bookable, n);
    assert wanted[..|wanted|] == wanted;
  }

  lemma LessAdded(before: seq<string>, after: seq<string>, wanted: seq<string>, bookable: seq<string>, n: nat)
    requires Added(before, after, wanted, bookable, n)
    ensures Added(before, after, wanted, bookable, 0)
  {
  }

  lemma {:induction false} BookableParts(wanted: seq<string>, bookable: seq<string>, n: nat)
    requires n <= |wanted|
    ensures Bookable(wanted[..n], bookable) <= Bookable(wanted, bookable)
    ensures Distinct(Bookable(wanted, bookable)) ==> Distinct(Bookable(wanted[..n], bookable))
    decreases |wanted|
  {
    if n == |wanted| {
      assert wanted[..n] == wanted;
    } else {
      var front := wanted[..|wanted| - 1];
      BookableParts(front, bookable, n);
      assert front[..n] == wanted[..n];
      assert Bookable(front, bookable) <= Bookable(wanted, bookable);
    }
  }

  lemma IdIsKey(db: Database, id: string)
    requires db.Valid() && id in db.groups
    ensures db.groups[id].id == id
  {
    OwnerIsKnown(db.users, db.groups, id);
  }

  lemma {:induction false} IntersectionIsDistinct(a: seq<string>, b: seq<string>)
    ensures Distinct(Intersection(a, b))
    decreases |a|
  {
    if a != [] {
      IntersectionIsDistinct(a[..|a| - 1], b);
    }
  }

  method RemoveGroupDevices(db: Database, id: string, serials: Option<seq<string>>) returns (reply: Reply)
    requires db.Valid()
    modifies db
    ensures db.Valid()
    ensures !reply.Done? ==> db.groups == old(db.groups) && db.users == old(db.users)
    ensures reply.Done? <==> (
      && id in old(db.groups) && Transient(old(db.groups)[id])
      && exists s :: s in old(db.groups)[id].devices && (serials.Some? ==> s in serials.value && s != ""))
    ensures reply.Done? ==> db.groups == old(db.groups)[id := reply.group]
    ensures reply.Done? ==> forall s :: s in reply.group.devices <==>
      s in old(db.groups)[id].devices && serials.Some? && (s == "" || s !in serials.value)
    ensures reply.Done? ==> reply.group.dates != [] && reply.group.duration == ComputeDuration(reply.group, 0)
    ensures reply.Done? ==> db.users == Exchanged(old(db.users), reply.group.owner, old(db.groups)[id].duration, reply.group.duration)
  {
    if id !in db.groups {
      return Refused(NOT_FOUND);
    }
    var group := db.groups[id];
    if IsOrigin(group.class_) {
      return Refused(BAD_REQUEST);
    }
    var list := if serials.None? then group.devices else Without(serials.value, "");
    if list == [] {
      return Unchanged;
    }
    var removed := Intersection(list, group.devices);
    if removed == [] {
      return Refused(NOT_FOUND);
    }
    assert removed[0] in removed;
    OwnerIsKnown(db.users, db.groups, id);
    IntersectionIsDistinct(list, group.devices);
    var g := db.RemoveDevices(group, removed);
    return Done(g);
  }

  // ---------------------------------------------------------------- update

  /** The group with another schedule, and what it then costs. */
  function Rescheduled(group: Group, name: string, c: Class, repetitions: nat, state: State, isActive: bool,
                       start: int, stop: int): Group
    requires !c.Unknown?
  {
    group.(name := name, class_ := c, repetitions := repetitions, state := state, isActive := isActive,
           dates := Dates(Interval(start, stop), StepOf(c), repetitions),
           duration := if IsOrigin(c) then 0 else |group.devices| * (stop - start) * (repetitions + 1))
  }

  lemma RescheduledIsOk(users: map<string, Account>, groups: map<string, Group>, id: string, g: Group,
                        quota: int, privilege: Privilege, start: int, stop: int)
    requires Books(users, groups) && id in groups && groups[id].state.Pending?
    requires CheckSchedule(Some(groups[id]), g.class_, quota, g.repetitions, privilege, Some(start), Some(stop)) == None
    requires g == Rescheduled(groups[id], g.name, g.class_, g.repetitions, g.state, g.isActive, start, stop)
    ensures RowOk(id, g, users) && g.dates != [] && g.dates[0] == Interval(start, stop) && groups[id].dates != []
    ensures g.owner == groups[id].owner && g.privilege == groups[id].privilege && g.devices == groups[id].devices
    ensures Free(groups, id, g.devices, g.dates) ==> NoOverlap(groups[id := g])
    ensures OnlyShrinks(groups[id], g) ==> NoOverlap(groups[id := g])
  {
    hide AllBalanced, NoOverlap;
    assert RowOk(id, groups[id], users);
    CheckedScheduleIsOk(Some(groups[id]), g.class_, quota, g.repetitions, privilege, Some(start), Some(stop), g);
    if Free(groups, id, g.devices, g.dates) {
      PutKeepsApart(groups, id, g);
    }
    if OnlyShrinks(groups[id], g) {
      ShrinkingNeedsNoCheck(groups, id, g);
    }
  }

  /** Something is asked for that is not there. */
  predicate Asks<T(==)>(asked: Option<T>, present: T) {
    asked.Some? && asked.value != present
  }

  /** The change asks for something else than a name: another first date, state, class or number of repetitions. */
  predicate AsksForMore(group: Group, change: Change)
    requires group.dates != []
  {
    || (change.start.At? && change.start.time != group.dates[0].start)
    || (change.stop.At? && change.stop.time != group.dates[0].stop)
    || Asks(change.state, group.state) || Asks(change.class_, group.class_) || Asks(change.repetitions, group.repetitions)
  }

  /** A group that is not pending takes a new name and nothing else. */
  method RenameGroup(db: Database, id: string, change: Change) returns (reply: Reply)
    requires db.Valid() && id in db.groups
    modifies db
    ensures db.Valid() && db.users == old(db.users)
    ensures reply.Done? ==> reply.group == old(db.groups)[id].(name := reply.group.name) && db.groups == old(db.groups)[id := reply.group]
    ensures reply.Done? ==> change.name == Some(reply.group.name)
    ensures !reply.Conflicting? && !reply.Deleted?
    ensures !reply.Done? ==> db.groups == old(db.groups)
    ensures old(db.groups)[id].dates != []
    ensures reply == Refused(INTERNAL_ERROR) <==> change.start.Invalid? || change.stop.Invalid?
    ensures reply == Refused(FORBIDDEN) <==>
      !change.start.Invalid? && !change.stop.Invalid? && AsksForMore(old(db.groups)[id], change)
    ensures reply.Done? <==>
      && !change.start.Invalid? && !change.stop.Invalid? && !AsksForMore(old(db.groups)[id], change)
      && Asks(change.name, old(db.groups)[id].name)
    ensures reply.Done? || reply == Unchanged || reply in {Refused(INTERNAL_ERROR), Refused(FORBIDDEN)}
  {
    OwnerIsKnown(db.users, db.groups, id);
    var group := db.groups[id];
    var name := if change.name.Some? then change.name.value else group.name;
    var start, stop := OrElse(change.start, group.dates[0].start), OrElse(change.stop, group.dates[0].stop);
    if start.None? || stop.None? {
      return Refused(INTERNAL_ERROR);
    }
    if || start.value != group.dates[0].start || stop.value != group.dates[0].stop
       || (change.state.Some? && change.state.value != group.state)
       || (change.class_.Some? && change.class_.value != group.class_)
       || (change.repetitions.Some? && change.repetitions.value != group.repetitions)
    {
      return Refused(FORBIDDEN);
    }
    if name == group.name {
      return Unchanged;
    }
    var renamed := db.Rename(id, name);
    return Done(renamed);
  }

  /** The new row goes in: after a look for conflicts, unless the group only gives up time. */
  method Reschedule(db: Database, id: string, g: Group, ghost quota: int, ghost privilege: Privilege, start: int,
                    stop: int)
    returns (reply: Reply)
    requires db.Valid() && id in db.groups && db.groups[id].state.Pending?
    requires CheckSchedule(Some(db.groups[id]), g.class_, quota, g.repetitions, privilege, Some(start), Some(stop)) == None
    requires g == Rescheduled(db.groups[id], g.name, g.class_, g.repetitions, g.state, g.isActive, start, stop)
    modifies db
    ensures db.Valid()
    ensures reply.Done? ==> reply.group == g && db.groups == old(db.groups)[id := g]
    ensures reply.Done? ==> db.users == Exchanged(old(db.users), g.owner, old(db.groups)[id].duration, g.duration)
    ensures !reply.Done? ==> db.groups == old(db.groups) && db.users == old(db.users)
    ensures reply.Done? || reply.Conflicting? || reply == Refused(FORBIDDEN)
    ensures reply.Conflicting? <==> !OnlyShrinks(old(db.groups)[id], g) && !Free(old(db.groups), id, g.devices, g.dates)
    ensures reply.Done? <==>
      && (OnlyShrinks(old(db.groups)[id], g) || Free(old(db.groups), id, g.devices, g.dates))
      && (g.duration == old(db.groups)[id].duration || Exchangeable(old(db.users), g.owner, old(db.groups)[id].duration, g.duration))
  {
    hide Books, Free, NoOverlap, RowOk, Rescheduled, CheckSchedule;
    OwnerIsKnown(db.users, db.groups, id);
    RescheduledIsOk(db.users, db.groups, id, g, quota, privilege, start, stop);
    var group := db.groups[id];
    if || start < group.dates[0].start || stop > group.dates[0].stop
       || g.repetitions > group.repetitions || g.class_ != group.class_
    {
      var conflicts := FindConflicts(db, id, group.devices, g.dates);
      if conflicts != [] {
        return Conflicting(conflicts);
      }
    }
    var updated := db.UpdateUserGroup(group, g);
    return if updated.Some? then Done(updated.value) else Refused(FORBIDDEN);
  }

  /** The row a change asks for, if its times can be read and its class is known. */
  function Target(group: Group, change: Change): Option<Group>
    requires group.dates != []
  {
    var c := if change.class_.Some? then change.class_.value else group.class_;
    var start, stop := OrElse(change.start, group.dates[0].start), OrElse(change.stop, group.dates[0].stop);
    if c.Unknown? || start.None? || stop.None? then None
    else Some(Rescheduled(
      group, if change.name.Some? then change.name.value else group.name, c,
      if change.repetitions.Some? then change.repetitions.value else group.repetitions,
      if IsOrigin(c) then Ready else if change.state.Some? then change.state.value else Pending,
      IsOrigin(c), start.value, stop.value))
  }

  /** The schedule the change asks for is refused. */
  function Objection(group: Group, change: Change, quota: int): Option<nat>
    requires group.dates != []
  {
    CheckSchedule(Some(group), if change.class_.Some? then change.class_.value else group.class_, quota,
                  if change.repetitions.Some? then change.repetitions.value else group.repetitions, group.privilege,
                  OrElse(change.start, group.dates[0].start), OrElse(change.stop, group.dates[0].stop))
  }

  /** Nothing that can be asked for is different. */
  predicate Alike(group: Group, g: Group) {
    && g.name == group.name && g.class_ == group.class_ && g.repetitions == group.repetitions && g.state == group.state
    && group.dates != [] && g.dates != [] && g.dates[0] == group.dates[0]
  }

  /** A row that goes in is charged exactly, runs as long and as often as asked, and is ready at once if it is a
      home for devices. */
  ghost predicate Renewed(group: Group, change: Change, g: Group) {
    && g.id == group.id && g.owner == group.owner && g.privilege == group.privilege && g.devices == group.devices
    && (change.name.Some? ==> g.name == change.name.value) && (change.name.None? ==> g.name == group.name)
    && (change.class_.Some? ==> g.class_ == change.class_.value) && (change.class_.None? ==> g.class_ == group.class_)
    && (change.repetitions.Some? ==> g.repetitions == change.repetitions.value)
    && (change.repetitions.None? ==> g.repetitions == group.repetitions)
    && group.dates != [] && |g.dates| == g.repetitions + 1
    && (change.start.At? ==> g.dates[0].start == change.start.time)
    && (change.start.Absent? ==> g.dates[0].start == group.dates[0].start)
    && (change.stop.At? ==> g.dates[0].stop == change.stop.time)
    && (change.stop.Absent? ==> g.dates[0].stop == group.dates[0].stop)
    && (g.class_ in {Class.Bookable, Class.Standard} ==> g.state == Ready && g.isActive && g.duration == 0)
    && (g.class_ !in {Class.Bookable, Class.Standard} ==>
          && g.state == (if change.state.Some? then change.state.value else Pending) && !g.isActive
          && g.duration == ComputeDuration(g, 0))
  }

  /** What a change of a pending group comes to: refused for its schedule; nothing, if it asks for what there is; and
      otherwise done if and only if it gives up time or nobody is in the way, and the difference can be charged. */
  ghost predicate Decided(groups: map<string, Group>, users: map<string, Account>, id: string, change: Change,
                          objection: Option<nat>, reply: Reply)
    requires id in groups && groups[id].dates != []
  {
    var group, target := groups[id], Target(groups[id], change);
    if objection.Some? then reply == Refused(objection.value)
    else
      && target.Some?
      && (reply == Unchanged <==> Alike(group, target.value))
      && (!Alike(group, target.value) ==>
            && (reply.Conflicting? <==>
                  !OnlyShrinks(group, target.value) && !Free(groups, id, group.devices, target.value.dates))
            && (reply.Done? <==>
                  && (OnlyShrinks(group, target.value) || Free(groups, id, group.devices, target.value.dates))
                  && (target.value.duration == group.duration
                      || Exchangeable(users, group.owner, group.duration, target.value.duration)))
            && (reply.Done? ==> reply.group == target.value)
            && (reply.Done? || reply.Conflicting? || reply == Refused(FORBIDDEN)))
  }

  lemma TargetIsRenewed(group: Group, change: Change, quota: int)
    requires group.dates != [] && Objection(group, change, quota) == None
    ensures Target(group, change).Some? && Renewed(group, change, Target(group, change).value)
  {
    var g := Target(group, change).value;
    AcceptedIff(Some(group), g.class_, quota, g.repetitions, group.privilege, OrElse(change.start, group.dates[0].start),
                OrElse(change.stop, group.dates[0].stop));
    assert g.dates[0] == Occurrence(Interval(OrElse(change.start, group.dates[0].start).value,
                                             OrElse(change.stop, group.dates[0].stop).value), StepOf(g.class_), 0);
  }

  lemma RefusalDecides(groups: map<string, Group>, users: map<string, Account>, id: string, change: Change, status: nat)
    requires id in groups && groups[id].dates != []
    ensures Decided(groups, users, id, change, Some(status), Refused(status))
  {
  }

  lemma SamenessDecides(groups: map<string, Group>, users: map<string, Account>, id: string, change: Change)
    requires id in groups && groups[id].dates != [] && Target(groups[id], change).Some?
    requires Alike(groups[id], Target(groups[id], change).value)
    ensures Decided(groups, users, id, change, None, Unchanged)
  {
  }

  lemma WritingDecides(groups: map<string, Group>, users: map<string, Account>, id: string, change: Change, g: Group,
                       reply: Reply)
    requires id in groups && groups[id].dates != [] && Target(groups[id], change) == Some(g) && !Alike(groups[id], g)
    requires g.owner == groups[id].owner && g.devices == groups[id].devices
    requires reply.Conflicting? <==> !OnlyShrinks(groups[id], g) && !Free(groups, id, g.devices, g.dates)
    requires reply.Done? <==>
      && (OnlyShrinks(groups[id], g) || Free(groups, id, g.devices, g.dates))
      && (g.duration == groups[id].duration || Exchangeable(users, g.owner, groups[id].duration, g.duration))
    requires reply.Done? ==> reply.group == g
    requires reply.Done? || reply.Conflicting? || reply == Refused(FORBIDDEN)
    ensures Decided(groups, users, id, change, None, reply)
  {
    hide OnlyShrinks, Free, Exchangeable;
  }

  lemma AlikeIff(group: Group, name: string, c: Class, repetitions: nat, state: State, start: int, stop: int)
    requires !c.Unknown? && group.dates != []
    ensures Alike(group, Rescheduled(group, name, c, repetitions, state, IsOrigin(c), start, stop)) <==>
      && name == group.name && start == group.dates[0].start && stop == group.dates[0].stop
      && state == group.state && c == group.class_ && repetitions == group.repetitions
  {
    assert Dates(Interval(start, stop), StepOf(c), repetitions)[0] == Occurrence(Interval(start, stop), StepOf(c), 0) == Interval(start, stop);
  }

  /** A change of a pending group: its schedule is checked, and then it goes in. */
  method UpdatePending(db: Database, id: string, change: Change) returns (reply: Reply)
    requires db.Valid() && id in db.groups && db.groups[id].state.Pending?
    modifies db
    ensures db.Valid()
    ensures old(db.groups)[id].dates != [] && old(db.groups)[id].owner in old(db.users)
    ensures Decided(old(db.groups), old(db.users), id, change,
                    Objection(old(db.groups)[id], change, old(db.users)[old(db.groups)[id].owner].repetitions), reply)
    ensures !reply.Done? ==> db.groups == old(db.groups) && db.users == old(db.users)
    ensures reply.Done? ==>
      && db.groups == old(db.groups)[id := reply.group] && Renewed(old(db.groups)[id], change, reply.group)
      && db.users == Exchanged(old(db.users), reply.group.owner, old(db.groups)[id].duration, reply.group.duration)
    ensures reply != Refused(NOT_FOUND)
  {
    hide Books, Free, Renewed, CheckSchedule, Decided, Alike, Dates, ComputeDuration, OnlyShrinks, Exchangeable,
      Exchanged, StepOf, IsForAdmins;
    OwnerIsKnown(db.users, db.groups, id);
    var group := db.groups[id];
    var c := if change.class_.Some? then change.class_.value else group.class_;
    var name := if change.name.Some? then change.name.value else group.name;
    var repetitions := if change.repetitions.Some? then change.repetitions.value else group.repetitions;
    var start, stop := OrElse(change.start, group.dates[0].start), OrElse(change.stop, group.dates[0].stop);
    var state := if IsOrigin(c) then Ready else if change.state.Some? then change.state.value else Pending;
    var quota := db.users[group.owner].repetitions;
    var refusal := CheckSchedule(Some(group), c, quota, repetitions, group.privilege, start, stop);
    AcceptedIff(Some(group), c, quota, repetitions, group.privilege, start, stop);
    if refusal.Some? {
      RefusalDecides(db.groups, db.users, id, change, refusal.value);
      return Refused(refusal.value);
    }
    TargetIsRenewed(group, change, quota);
    ghost var target := Target(group, change).value;
    AlikeIff(group, name, c, repetitions, state, start.value, stop.value);
    if && name == group.name && start.value == group.dates[0].start && stop.value == group.dates[0].stop
       && state == group.state && c == group.class_ && repetitions == group.repetitions
    {
      SamenessDecides(db.groups, db.users, id, change);
      return Unchanged;
    }
    var g := Rescheduled(group, name, c, repetitions, state, IsOrigin(c), start.value, stop.value);
    assert g == target;
    reply := Reschedule(db, id, g, quota, group.privilege, start.value, stop.value);
    WritingDecides(old(db.groups), old(db.users), id, change, g, reply);
  }

  method UpdateGroup(db: Database, id: string, change: Change) returns (reply: Reply)
    requires db.Valid()
    modifies db
    ensures db.Valid()
    ensures !reply.Done? ==> db.groups == old(db.groups) && db.users == old(db.users)
    ensures reply == Refused(NOT_FOUND) <==> id !in old(db.groups)
    ensures id in old(db.groups) ==> old(db.groups)[id].dates != [] && old(db.groups)[id].owner in old(db.users)
    ensures reply.Done? ==> db.groups == old(db.groups)[id := reply.group]
    // A group that is not pending takes a new name, if nothing else is asked for ...
    ensures id in old(db.groups) && !old(db.groups)[id].state.Pending? ==>
      && (reply.Done? <==>
            && !change.start.Invalid? && !change.stop.Invalid? && !AsksForMore(old(db.groups)[id], change)
            && Asks(change.name, old(db.groups)[id].name))
      && (reply.Done? ==> reply.group == old(db.groups)[id].(name := change.name.value) && db.users == old(db.users))
    // ... and a pending one takes another schedule as well.
    ensures id in old(db.groups) && old(db.groups)[id].state.Pending? ==>
      && Decided(old(db.groups), old(db.users), id, change,
                 Objection(old(db.groups)[id], change, old(db.users)[old(db.groups)[id].owner].repetitions), reply)
      && (reply.Done? ==>
            && Renewed(old(db.groups)[id], change, reply.group)
            && db.users == Exchanged(old(db.users), reply.group.owner, old(db.groups)[id].duration, reply.group.duration))
  {
    hide Books, Decided, Renewed, Objection, Exchanged;
    if id !in db.groups {
      return Refused(NOT_FOUND);
    }
    OwnerIsKnown(db.users, db.groups, id);
    if !db.groups[id].state.Pending? {
      reply := RenameGroup(db, id, change);
    } else {
      reply := UpdatePending(db, id, change);
    }
  }

  // ---------------------------------------------------------------- delete

  predicate Booked(db: Database, serial: string)
    reads db
  {
    exists id :: id in db.groups && Transient(db.groups[id]) && serial in db.groups[id].devices
  }

  method AnyBooked(db: Database, serials: seq<string>) returns (booked: bool)
    ensures booked <==> exists s :: s in serials && Booked(db, s)
  {
    for n := 0 to |serials|
      invariant forall k | 0 <= k < n :: !Booked(db, serials[k])
    {
      if Booked(db, serials[n]) {
        return true;
      }
    }
    return false;
  }

  /** A home for devices goes only when none of them is booked; the root group never does. */
  method DeleteGroup(db: Database, id: string) returns (reply: Reply)
    requires db.Valid()
    modifies db
    ensures db.Valid()
    ensures reply == Deleted <==> (
      && id in old(db.groups) && !old(db.groups)[id].privilege.Root?
      && !(old(db.groups)[id].class_.Bookable? && exists s :: s in old(db.groups)[id].devices && old(Booked(db, s))))
    ensures reply == Deleted ==> db.groups == old(db.groups) - {id}
    ensures id in old(db.groups) ==> old(db.groups)[id].owner in old(db.users)
    ensures reply == Deleted ==>
      db.users == old(db.users)[old(db.groups)[id].owner := Returned(old(db.users)[old(db.groups)[id].owner], old(db.groups)[id].duration)]
    ensures reply != Deleted ==> db.groups == old(db.groups) && db.users == old(db.users)
  {
    hide Books, Booked;
    if id !in db.groups {
      return Refused(NOT_FOUND);
    }
    OwnerIsKnown(db.users, db.groups, id);
    var group := db.groups[id];
    if group.privilege.Root? {
      return Refused(FORBIDDEN);
    }
    if group.class_.Bookable? {
      var booked := AnyBooked(db, group.devices);
      if booked {
        return Refused(FORBIDDEN);
      }
    }
    reply := db.DeleteUserGroup(id);
  }

  method DeleteGroups(db: Database, ids: seq<string>) returns (replies: seq<Reply>)
    requires db.Valid()
    modifies db
    ensures db.Valid()
    ensures |replies| == |ids| && db.groups.Keys == old(db.groups).Keys - DeletedOf(ids, replies)
    ensures forall id | id in db.groups :: db.groups[id] == old(db.groups)[id]
  {
    hide Books;
    replies := [];
    for n := 0 to |ids|
      invariant db.Valid() && |replies| == n
      invariant db.groups.Keys == old(db.groups).Keys - DeletedOf(ids[..n], replies)
      invariant forall id | id in db.groups :: db.groups[id] == old(db.groups)[id]
    {
      var reply := DeleteGroup(db, ids[n]);
      assert ids[..n + 1][..n] == ids[..n] && (replies + [reply])[..n] == replies;
      replies := replies + [reply];
    }
    assert ids[..|ids|] == ids;
  }

  function DeletedOf(ids: seq<string>, replies: seq<Reply>): set<string>
    requires |ids| == |replies|
  {
    if ids == [] then {}
    else
      var n := |ids| - 1;
      DeletedOf(ids[..n], replies[..n]) + if replies[n] == Deleted then {ids[n]} else {}
  }
}
