/** The requests that create, change and delete groups, executed one at a time, and the two tables
    they keep in step: what each user has consumed, and which groups there are. */
module GroupStore {
  import opened Wrappers
  import opened MapSize
  import opened Bookings

  datatype Account = Account(
    consumedNumber: int, consumedDuration: int, allocatedNumber: int, allocatedDuration: int, repetitions: int)

  // ---------------------------------------------------------------- sums over a table

  ghost function Sum(m: map<string, int>): int {
    if m == map[] then 0 else
      var k :| k in m;
      m[k] + Sum(m - {k})
  }

  lemma {:induction false} SumWithout(m: map<string, int>, k: string)
    requires k in m
    ensures Sum(m) == m[k] + Sum(m - {k})
    decreases |m|
  {
    var j :| j in m && Sum(m) == m[j] + Sum(m - {j});
    if j != k {
      OneFewer(m, j);
      OneFewer(m, k);
      SumWithout(m - {j}, k);
      SumWithout(m - {k}, j);
      assert m - {j} - {k} == m - {k} - {j};
    }
  }

  lemma SumPut(m: map<string, int>, k: string, v: int)
    ensures Sum(m[k := v]) == Sum(m - {k}) + v
    ensures Sum(m) == Sum(m - {k}) + if k in m then m[k] else 0
  {
    SumWithout(m[k := v], k);
    assert m[k := v] - {k} == m - {k};
    if k in m {
      SumWithout(m, k);
    } else {
      assert m - {k} == m;
    }
  }

  /** The durations of the groups somebody owns. */
  ghost function Durations(groups: map<string, Group>, email: string): map<string, int> {
    map id | id in groups && groups[id].owner == email :: groups[id].duration
  }

  /** The groups somebody owns, except the root group, which nobody reserved. */
  ghost function Owned(groups: map<string, Group>, email: string): set<string> {
    set id | id in groups && groups[id].owner == email && !groups[id].privilege.Root?
  }

  lemma DurationsPut(groups: map<string, Group>, id: string, g: Group, email: string)
    ensures Sum(Durations(groups[id := g], email)) == Sum(Durations(groups - {id}, email)) + if g.owner == email then g.duration else 0
    ensures Sum(Durations(groups, email)) == Sum(Durations(groups - {id}, email))
      + if id in groups && groups[id].owner == email then groups[id].duration else 0
  {
    SumPut(Durations(groups, email), id, g.duration);
    assert Durations(groups - {id}, email) == Durations(groups, email) - {id};
    if g.owner == email {
      assert Durations(groups[id := g], email) == Durations(groups, email)[id := g.duration];
    } else {
      assert Durations(groups[id := g], email) == Durations(groups, email) - {id};
    }
  }

  lemma OwnedPut(groups: map<string, Group>, id: string, g: Group, email: string)
    ensures |Owned(groups[id := g], email)| == |Owned(groups - {id}, email)| + if g.owner == email && !g.privilege.Root? then 1 else 0
    ensures |Owned(groups, email)| == |Owned(groups - {id}, email)|
      + if id in groups && groups[id].owner == email && !groups[id].privilege.Root? then 1 else 0
  {
    OwnedApart(groups, id, email);
    OwnedApart(groups[id := g], id, email);
    assert groups[id := g] - {id} == groups - {id};
  }

  lemma OwnedApart(groups: map<string, Group>, id: string, email: string)
    ensures |Owned(groups, email)| == |Owned(groups - {id}, email)|
      + if id in groups && groups[id].owner == email && !groups[id].privilege.Root? then 1 else 0
  {
    var rest := Owned(groups - {id}, email);
    assert Owned(groups, email) == if id in Owned(groups, email) then rest + {id} else rest;
  }

  // ---------------------------------------------------------------- the books

  /** What one user has consumed is what the groups say, and no more than was allocated. */
  ghost predicate Balanced(a: Account, groups: map<string, Group>, email: string) {
    && a.consumedNumber == |Owned(groups, email)| <= a.allocatedNumber
    && a.consumedDuration == Sum(Durations(groups, email)) <= a.allocatedDuration
  }

  predicate Distinct(s: seq<string>) {
    forall i, j | 0 <= i < j < |s| :: s[i] != s[j]
  }

  function Span(g: Group): int
    requires g.dates != []
  {
    g.dates[0].stop - g.dates[0].start
  }

  /** The duration a group is charged with `more` devices than it has. */
  function ComputeDuration(g: Group, more: int): int
    requires g.dates != []
  {
    (|g.devices| + more) * Span(g) * (g.repetitions + 1)
  }

  ghost predicate RowOk(id: string, g: Group, users: map<string, Account>) {
    && g.id == id && g.owner in users && ScheduleOk(g) && Distinct(g.devices)
    && (IsOrigin(g.class_) ==> g.duration == 0)
    && (Transient(g) ==> g.duration >= ComputeDuration(g, 0))
    && (g.privilege.Root? ==> IsOrigin(g.class_) && !g.state.Pending?)
  }

  ghost predicate RowsOk(groups: map<string, Group>, users: map<string, Account>) {
    forall id | id in groups :: RowOk(id, groups[id], users)
  }

  ghost predicate AllBalanced(users: map<string, Account>, groups: map<string, Group>) {
    forall email | email in users :: Balanced(users[email], groups, email)
  }

  ghost predicate Books(users: map<string, Account>, groups: map<string, Group>) {
    RowsOk(groups, users) && AllBalanced(users, groups) && NoOverlap(groups)
  }

  lemma OwnerIsKnown(users: map<string, Account>, groups: map<string, Group>, id: string)
    requires Books(users, groups) && id in groups
    ensures RowOk(id, groups[id], users) && groups[id].dates != []
  {
  }

  lemma RowsPut(groups: map<string, Group>, users: map<string, Account>, id: string, g: Group, email: string,
                a: Account)
    requires RowsOk(groups, users) && RowOk(id, g, users) && email in users
    ensures RowsOk(groups[id := g], users[email := a])
  {
    var more := groups[id := g];
    forall k | k in more
      ensures RowOk(k, more[k], users[email := a])
    {
      if k != id {
        assert RowOk(k, groups[k], users);
      }
    }
  }

  /** A group changes and its owner is charged the difference. */
  lemma BalancedPut(users: map<string, Account>, groups: map<string, Group>, id: string, g: Group, a: Account)
    requires AllBalanced(users, groups) && id in groups && groups[id].owner == g.owner && g.owner in users
    requires g.privilege.Root? == groups[id].privilege.Root?
    requires a == users[g.owner].(consumedDuration := users[g.owner].consumedDuration - groups[id].duration + g.duration)
    requires a.consumedDuration <= a.allocatedDuration
    ensures AllBalanced(users[g.owner := a], groups[id := g])
  {
    forall email | email in users
      ensures Balanced(users[g.owner := a][email], groups[id := g], email)
    {
      assert Balanced(users[email], groups, email);
      DurationsPut(groups, id, g, email);
      OwnedPut(groups, id, g, email);
    }
  }

  lemma BalancedNew(users: map<string, Account>, groups: map<string, Group>, id: string, g: Group, a: Account)
    requires AllBalanced(users, groups) && id !in groups && g.owner in users && g.duration == 0 && !g.privilege.Root?
    requires a == users[g.owner].(consumedNumber := users[g.owner].consumedNumber + 1)
    requires a.consumedNumber <= a.allocatedNumber
    ensures AllBalanced(users[g.owner := a], groups[id := g])
  {
    forall email | email in users
      ensures Balanced(users[g.owner := a][email], groups[id := g], email)
    {
      assert Balanced(users[email], groups, email);
      DurationsPut(groups, id, g, email);
      OwnedPut(groups, id, g, email);
    }
  }

  /** What a group was charged is there to be given back: a release is never refused. */
  lemma ReleaseIsPossible(users: map<string, Account>, groups: map<string, Group>, id: string)
    requires Books(users, groups) && id in groups && !groups[id].privilege.Root?
    ensures groups[id].owner in users && 0 <= groups[id].duration
    ensures 1 <= users[groups[id].owner].consumedNumber
    ensures users[groups[id].owner].consumedDuration - groups[id].duration <= users[groups[id].owner].allocatedDuration
  {
    var g := groups[id];
    assert RowOk(id, g, users) && Balanced(users[g.owner], groups, g.owner);
    assert id in Owned(groups, g.owner);
    DurationIsNatural(g, users);
  }

  lemma DurationIsNatural(g: Group, users: map<string, Account>)
    requires RowOk(g.id, g, users)
    ensures 0 <= g.duration && Span(g) > 0
    ensures Transient(g) ==> 0 <= ComputeDuration(g, 0) <= g.duration
  {
    if Transient(g) {
      MulNatural(|g.devices|, Span(g));
      MulNatural(|g.devices| * Span(g), g.repetitions + 1);
    }
  }

  lemma MulNatural(a: int, b: int)
    requires 0 <= a && 0 <= b
    ensures 0 <= a * b
  {
  }

  lemma BalancedDrop(users: map<string, Account>, groups: map<string, Group>, id: string, a: Account)
    requires Books(users, groups) && id in groups && !groups[id].privilege.Root?
    requires a == users[groups[id].owner].(consumedNumber := users[groups[id].owner].consumedNumber - 1,
                                           consumedDuration := users[groups[id].owner].consumedDuration - groups[id].duration)
    ensures AllBalanced(users[groups[id].owner := a], groups - {id})
  {
    ReleaseIsPossible(users, groups, id);
    var g := groups[id];
    forall email | email in users
      ensures Balanced(users[g.owner := a][email], groups - {id}, email)
    {
      assert Balanced(users[email], groups, email);
      DurationsPut(groups, id, g, email);
      OwnedPut(groups, id, g, email);
    }
  }

  lemma DropKeepsApart(groups: map<string, Group>, id: string)
    requires NoOverlap(groups)
    ensures NoOverlap(groups - {id})
  {
    forall a, b | a in groups - {id} && b in groups - {id} && a != b
      ensures Apart(groups[a], groups[b])
    {
    }
  }

  predicate Exchangeable(users: map<string, Account>, email: string, before: int, after: int) {
    email in users && users[email].consumedDuration - before + after <= users[email].allocatedDuration
  }

  function Exchanged(users: map<string, Account>, email: string, before: int, after: int): map<string, Account> {
    if email in users then users[email := users[email].(consumedDuration := users[email].consumedDuration - before + after)] else users
  }

  lemma ExchangedForSame(users: map<string, Account>, email: string, duration: int)
    ensures Exchanged(users, email, duration, duration) == users
  {
  }

  lemma BalancedAgain(users: map<string, Account>, groups: map<string, Group>, email: string, a: Account)
    requires Books(users, groups) && email in users
    requires a.consumedNumber == users[email].consumedNumber <= a.allocatedNumber
    requires a.consumedDuration == users[email].consumedDuration <= a.allocatedDuration
    ensures Books(users[email := a], groups)
  {
    assert Balanced(users[email], groups, email);
    forall e | e in users
      ensures Balanced(users[email := a][e], groups, e)
    {
      assert Balanced(users[e], groups, e);
    }
    forall id | id in groups
      ensures RowOk(id, groups[id], users[email := a])
    {
      assert RowOk(id, groups[id], users);
    }
  }

  /** New quotas are taken together or not at all. */
  predicate QuotasFit(a: Account, duration: Option<int>, number: Option<int>) {
    && (duration.Some? ==> a.consumedDuration <= duration.value)
    && (number.Some? ==> a.consumedNumber <= number.value)
  }

  function Reallocated(a: Account, duration: Option<int>, number: Option<int>, repetitions: Option<int>): Account {
    a.(allocatedDuration := if duration.Some? then duration.value else a.allocatedDuration,
       allocatedNumber := if number.Some? then number.value else a.allocatedNumber,
       repetitions := if repetitions.Some? then repetitions.value else a.repetitions)
  }

  // ---------------------------------------------------------------- devices of a group

  function Union(a: seq<string>, x: string): (r: seq<string>)
    ensures forall y :: y in r <==> y in a || y == x
    ensures Distinct(a) ==> Distinct(r)
  {
    if x in a then a else a + [x]
  }

  function Difference(a: seq<string>, b: seq<string>): (r: seq<string>)
    ensures forall y :: y in r <==> y in a && y !in b
    ensures Distinct(a) ==> Distinct(r)
    ensures |r| <= |a|
    decreases |a|
  {
    if a == [] then [] else
      var front := Difference(a[..|a| - 1], b);
      if a[|a| - 1] in b then front else
        assert a[|a| - 1] in a[..|a| - 1] || a[|a| - 1] !in front;
        front + [a[|a| - 1]]
  }

  function WithDevice(g: Group, serial: string): Group
    requires g.dates != []
  {
    g.(duration := ComputeDuration(g, 1), devices := Union(g.devices, serial))
  }

  function WithoutDevices(g: Group, serials: seq<string>): Group
    requires g.dates != []
  {
    g.(duration := ComputeDuration(g, -|serials|), devices := Difference(g.devices, serials))
  }

  lemma DeviceAdded(users: map<string, Account>, groups: map<string, Group>, id: string, serial: string)
    requires Books(users, groups) && id in groups && Transient(groups[id])
    requires Exchangeable(users, groups[id].owner, groups[id].duration, ComputeDuration(groups[id], 1))
    requires Free(groups, id, [serial], groups[id].dates)
    ensures Books(Exchanged(users, groups[id].owner, groups[id].duration, ComputeDuration(groups[id], 1)),
                  groups[id := WithDevice(groups[id], serial)])
  {
    hide NoOverlap, ScheduleOk, ComputeDuration, RowsOk, Owned, Durations, Sum, Free;
    OwnerIsKnown(users, groups, id);
    var g, h := groups[id], WithDevice(groups[id], serial);
    DeviceKeepsApart(groups, id, h, serial);
    WithDeviceIsOk(id, g, serial, users);
    var a := users[g.owner].(consumedDuration := users[g.owner].consumedDuration - g.duration + h.duration);
    RowsPut(groups, users, id, h, g.owner, a);
    BalancedPut(users, groups, id, h, a);
  }

  lemma WithDeviceIsOk(id: string, g: Group, serial: string, users: map<string, Account>)
    requires RowOk(id, g, users) && Transient(g)
    ensures RowOk(id, WithDevice(g, serial), users)
  {
    var h := WithDevice(g, serial);
    MoreDevicesCostMore(|h.devices|, |g.devices| + 1, Span(g), g.repetitions + 1);
  }

  lemma DeviceKeepsApart(groups: map<string, Group>, id: string, h: Group, serial: string)
    requires NoOverlap(groups) && id in groups && Transient(groups[id]) && Free(groups, id, [serial], groups[id].dates)
    requires h == groups[id].(duration := h.duration, devices := Union(groups[id].devices, serial))
    ensures NoOverlap(groups[id := h])
  {
    forall b | b in groups && b != id && Transient(groups[b])
      ensures !Collide(h.devices, h.dates, groups[b])
    {
      assert Apart(groups[id], groups[b]);
      if Collide(h.devices, h.dates, groups[b]) {
        DevicesOfUnion(groups[id].devices, serial, h.dates, groups[b]);
      }
    }
    PutKeepsApart(groups, id, h);
  }

  lemma DevicesOfUnion(devices: seq<string>, serial: string, dates: seq<Interval>, h: Group)
    requires Collide(Union(devices, serial), dates, h)
    ensures Collide(devices, dates, h) || Collide([serial], dates, h)
  {
    if serial !in devices {
      OneMoreDevice(devices, serial, dates, h);
    }
  }

  lemma MoreDevicesCostMore(few: nat, many: nat, span: nat, times: nat)
    requires few <= many
    ensures few * span * times <= many * span * times
  {
    assert few * span <= many * span;
  }

  lemma {:induction false} DifferenceLength(a: seq<string>, b: seq<string>)
    requires Distinct(a) && Distinct(b) && forall x | x in b :: x in a
    ensures |Difference(a, b)| == |a| - |b|
  {
    var r := Difference(a, b);
    DistinctIsSetSize(a);
    DistinctIsSetSize(b);
    DistinctIsSetSize(r);
    assert (set x | x in r) == (set x | x in a) - (set x | x in b);
    assert (set x | x in b) <= (set x | x in a);
  }

  lemma {:induction false} DistinctIsSetSize(s: seq<string>)
    requires Distinct(s)
    ensures |set x | x in s| == |s|
  {
    if s != [] {
      var front := s[..|s| - 1];
      DistinctIsSetSize(front);
      assert (set x | x in s) == (set x | x in front) + {s[|s| - 1]};
    }
  }

  /** Whoever names a device the group already has is charged for one device too many ... */
  lemma ChargedExactly(id: string, g: Group, serial: string, users: map<string, Account>)
    requires RowOk(id, g, users)
    ensures WithDevice(g, serial).duration == ComputeDuration(WithDevice(g, serial), 0) <==> serial !in g.devices
  {
    var h := WithDevice(g, serial);
    if serial in g.devices {
      OneMoreCosts(|g.devices|, Span(g), g.repetitions + 1);
    }
  }

  /** ... and the next device is then refused, whatever the quota, because it seems to cost nothing. */
  lemma NextIsRefused(id: string, g: Group, serial: string, users: map<string, Account>)
    requires RowOk(id, g, users)
    ensures WithDevice(g, serial).duration == ComputeDuration(WithDevice(g, serial), 1) <==> serial in g.devices
  {
    var h := WithDevice(g, serial);
    if serial !in g.devices {
      OneMoreCosts(|g.devices| + 1, Span(g), g.repetitions + 1);
    }
  }

  lemma OneMoreCosts(n: nat, span: int, times: int)
    requires span > 0 && times > 0
    ensures n * span * times < (n + 1) * span * times
  {
    assert (n + 1) * span == n * span + span;
    assert (n * span + span) * times == n * span * times + span * times;
    assert span * times > 0;
  }

  lemma DevicesRemoved(users: map<string, Account>, groups: map<string, Group>, id: string, serials: seq<string>)
    requires Books(users, groups) && id in groups && Transient(groups[id])
    requires Distinct(serials) && forall s | s in serials :: s in groups[id].devices
    ensures groups[id].dates != [] && groups[id].owner in users
    ensures var h := WithoutDevices(groups[id], serials);
      && h.duration == ComputeDuration(h, 0) <= groups[id].duration
      && Exchangeable(users, h.owner, groups[id].duration, h.duration)
      && Books(Exchanged(users, h.owner, groups[id].duration, h.duration), groups[id := h])
  {
    hide NoOverlap, RowsOk, Owned, Durations, Sum;
    OwnerIsKnown(users, groups, id);
    var g, h := groups[id], WithoutDevices(groups[id], serials);
    WithoutDevicesIsOk(id, g, serials, users);
    ShrinkingNeedsNoCheck(groups, id, h);
    var a := users[g.owner].(consumedDuration := users[g.owner].consumedDuration - g.duration + h.duration);
    assert Balanced(users[g.owner], groups, g.owner);
    RowsPut(groups, users, id, h, g.owner, a);
    BalancedPut(users, groups, id, h, a);
  }

  lemma WithoutDevicesIsOk(id: string, g: Group, serials: seq<string>, users: map<string, Account>)
    requires RowOk(id, g, users) && Transient(g) && Distinct(serials) && forall s | s in serials :: s in g.devices
    ensures var h := WithoutDevices(g, serials);
      RowOk(id, h, users) && h.duration == ComputeDuration(h, 0) <= g.duration
  {
    var h := WithoutDevices(g, serials);
    DifferenceLength(g.devices, serials);
    DurationIsNatural(g, users);
    MoreDevicesCostMore(|h.devices|, |g.devices|, Span(g), g.repetitions + 1);
  }

  // ---------------------------------------------------------------- whole groups

  lemma GroupAdded(users: map<string, Account>, groups: map<string, Group>, g: Group)
    requires Books(users, groups) && g.id !in groups && g.owner in users
    requires ScheduleOk(g) && g.devices == [] && g.duration == 0 && !g.privilege.Root?
    requires users[g.owner].consumedNumber < users[g.owner].allocatedNumber
    ensures Books(users[g.owner := users[g.owner].(consumedNumber := users[g.owner].consumedNumber + 1)], groups[g.id := g])
  {
    var a := users[g.owner].(consumedNumber := users[g.owner].consumedNumber + 1);
    assert ComputeDuration(g, 0) == 0 by {
      assert 0 * Span(g) == 0;
      assert 0 * (g.repetitions + 1) == 0;
    }
    RowsPut(groups, users, g.id, g, g.owner, a);
    BalancedNew(users, groups, g.id, g, a);
    PutKeepsApart(groups, g.id, g);
  }

  /** An account that got a group back. */
  function Returned(a: Account, duration: int): Account {
    a.(consumedNumber := a.consumedNumber - 1, consumedDuration := a.consumedDuration - duration)
  }

  lemma GroupDropped(users: map<string, Account>, groups: map<string, Group>, id: string)
    requires Books(users, groups) && id in groups && !groups[id].privilege.Root? && groups[id].owner in users
    ensures Books(users[groups[id].owner := Returned(users[groups[id].owner], groups[id].duration)], groups - {id})
  {
    var g := groups[id];
    var a := Returned(users[g.owner], g.duration);
    BalancedDrop(users, groups, id, a);
    DropKeepsApart(groups, id);
    forall k | k in groups - {id}
      ensures RowOk(k, (groups - {id})[k], users[g.owner := a])
    {
      assert RowOk(k, groups[k], users);
    }
  }

  lemma GroupExchanged(users: map<string, Account>, groups: map<string, Group>, id: string, g: Group)
    requires Books(users, groups) && id in groups && RowOk(id, g, users) && NoOverlap(groups[id := g])
    requires groups[id].owner == g.owner && g.privilege.Root? == groups[id].privilege.Root?
    requires Exchangeable(users, g.owner, groups[id].duration, g.duration) || groups[id].duration == g.duration
    ensures Books(Exchanged(users, g.owner, groups[id].duration, g.duration), groups[id := g])
  {
    hide NoOverlap, ScheduleOk, ComputeDuration, RowsOk, Owned, Durations, Sum;
    assert Balanced(users[g.owner], groups, g.owner);
    var a := users[g.owner].(consumedDuration := users[g.owner].consumedDuration - groups[id].duration + g.duration);
    RowsPut(groups, users, id, g, g.owner, a);
    BalancedPut(users, groups, id, g, a);
  }

  lemma GroupRenamed(users: map<string, Account>, groups: map<string, Group>, id: string, g: Group)
    requires Books(users, groups) && id in groups && g == groups[id].(name := g.name)
    ensures Books(users, groups[id := g])
  {
    hide AllBalanced, NoOverlap;
    assert RowOk(id, groups[id], users) && RowOk(id, g, users);
    ShrinkingNeedsNoCheck(groups, id, g);
    GroupExchanged(users, groups, id, g);
    ExchangedForSame(users, g.owner, g.duration);
  }

  // ---------------------------------------------------------------- schedules

  datatype Time = Absent | Invalid | At(time: int)

  function OrElse(t: Time, default: int): Option<int> {
    match t
    case Absent => Some(default)
    case Invalid => None
    case At(time) => Some(time)
  }

  const BAD_REQUEST := 400
  const FORBIDDEN := 403
  const NOT_FOUND := 404
  const INTERNAL_ERROR := 500

  /** The status a schedule is refused with, if it is. */
  function CheckSchedule(oldGroup: Option<Group>, c: Class, quota: int, repetitions: nat, privilege: Privilege,
                         start: Option<int>, stop: Option<int>): Option<nat>
  {
    if c.Unknown? then Some(BAD_REQUEST)
    else if oldGroup.Some? && oldGroup.value.devices != []
            && (|| (IsOrigin(c) && !IsOrigin(oldGroup.value.class_))
                || (IsOrigin(oldGroup.value.class_) && !IsOrigin(c))) then Some(FORBIDDEN)
    else if IsForAdmins(c) && privilege.User? then Some(FORBIDDEN)
    else if start.None? then Some(BAD_REQUEST)
    else if stop.None? then Some(BAD_REQUEST)
    else if start.value >= stop.value then Some(BAD_REQUEST)
    else if ClassDuration(c).Finite? && stop.value - start.value > ClassDuration(c).time then Some(BAD_REQUEST)
    else if c.Bookable? || c.Standard? || c.Once? then
      if repetitions != 0 then Some(BAD_REQUEST) else if repetitions > quota then Some(BAD_REQUEST) else None
    else if repetitions == 0 then Some(BAD_REQUEST)
    else if repetitions > quota then Some(BAD_REQUEST)
    else None
  }

  /** Only administrators may use the class. */
  predicate Reserved(c: Class) {
    c in {Bookable, Standard, Debug}
  }

  /** A group with devices is a home for them or is not, and stays so. */
  predicate ChangesSides(oldGroup: Option<Group>, c: Class) {
    oldGroup.Some? && oldGroup.value.devices != [] && (c in {Bookable, Standard}) != (oldGroup.value.class_ in {Bookable, Standard})
  }

  /** Exactly which schedules are accepted, and what the others are told. */
  lemma AcceptedIff(oldGroup: Option<Group>, c: Class, quota: int, repetitions: nat, privilege: Privilege,
                    start: Option<int>, stop: Option<int>)
    ensures var refusal := CheckSchedule(oldGroup, c, quota, repetitions, privilege, start, stop);
      && (refusal == None <==>
            && !c.Unknown? && !ChangesSides(oldGroup, c) && !(Reserved(c) && privilege == User)
            && start.Some? && stop.Some? && start.value < stop.value
            && (c in MINUTES ==> stop.value - start.value <= 60000 * MINUTES[c])
            && (repetitions > 0 <==> c in MINUTES) && repetitions <= quota)
      && (refusal == Some(FORBIDDEN) <==> !c.Unknown? && (ChangesSides(oldGroup, c) || (Reserved(c) && privilege == User)))
      && (refusal.Some? ==> refusal.value in {BAD_REQUEST, FORBIDDEN})
  {
    if !c.Unknown? {
      ClassesLastMinutes(c);
    }
  }

  /** A schedule that passes can be laid out, whatever else the group is. */
  lemma CheckedScheduleIsOk(oldGroup: Option<Group>, c: Class, quota: int, repetitions: nat, privilege: Privilege,
                            start: Option<int>, stop: Option<int>, g: Group)
    requires CheckSchedule(oldGroup, c, quota, repetitions, privilege, start, stop) == None
    requires g.class_ == c && g.repetitions == repetitions
    requires start.Some? && stop.Some? ==> g.dates == Dates(Interval(start.value, stop.value), StepOf(c), repetitions)
    ensures start.Some? && stop.Some? && ScheduleOk(g) && g.dates[0] == Interval(start.value, stop.value)
    ensures repetitions <= quota && (privilege.User? ==> !IsForAdmins(c))
    ensures oldGroup.Some? && oldGroup.value.devices != [] ==> (IsOrigin(c) <==> IsOrigin(oldGroup.value.class_))
  {
    assert Occurrence(Interval(start.value, stop.value), StepOf(c), 0) == Interval(start.value, stop.value);
  }

  // ---------------------------------------------------------------- requests

  datatype Reply =
    | Done(group: Group)
    | Deleted
    | Unchanged
    | Conflicting(conflicts: seq<Conflict>)
    | Refused(status: nat)

  /** How a row update went. */
  datatype Stats = Replaced | Same | Skipped

  datatype Change = Change(name: Option<string>, class_: Option<Class>, repetitions: Option<nat>, start: Time, stop: Time,
                           state: Option<State>)

  class Database {
    var users: map<string, Account>
    var groups: map<string, Group>

    ghost predicate Valid()
      reads this
    {
      Books(users, groups)
    }

    // -------------------------------------------------------------- single rows

    /** The account if it can take one group more. */
    method ReserveUserGroupInstance(email: string) returns (stats: Stats)
      modifies `users
      ensures email !in old(users) <==> stats == Skipped
      ensures stats == Replaced <==> email in old(users) && old(users)[email].consumedNumber + 1 <= old(users)[email].allocatedNumber
      ensures stats != Replaced ==> users == old(users)
      ensures stats == Replaced ==>
        users == old(users)[email := old(users)[email].(consumedNumber := old(users)[email].consumedNumber + 1)]
    {
      if email !in users {
        return Skipped;
      }
      var a := users[email];
      if a.consumedNumber + 1 <= a.allocatedNumber {
        users := users[email := a.(consumedNumber := a.consumedNumber + 1)];
        return Replaced;
      }
      return Same;
    }

    method ReleaseUserGroupInstance(email: string)
      modifies `users
      ensures email in old(users) && old(users)[email].consumedNumber >= 1 ==>
        users == old(users)[email := old(users)[email].(consumedNumber := old(users)[email].consumedNumber - 1)]
      ensures !(email in old(users) && old(users)[email].consumedNumber >= 1) ==> users == old(users)
    {
      if email in users && users[email].consumedNumber >= 1 {
        users := users[email := users[email].(consumedNumber := users[email].consumedNumber - 1)];
      }
    }

    /** One duration is exchanged for another, if the allocation allows it. */
    method UpdateUserGroupDuration(email: string, before: int, after: int) returns (stats: Stats)
      modifies `users
      ensures email !in old(users) <==> stats == Skipped
      ensures stats == Replaced <==> Exchangeable(old(users), email, before, after) && before != after
      ensures users == if stats == Replaced then Exchanged(old(users), email, before, after) else old(users)
    {
      if email !in users {
        return Skipped;
      }
      var a := users[email];
      if a.consumedDuration - before + after <= a.allocatedDuration && before != after {
        users := users[email := a.(consumedDuration := a.consumedDuration - before + after)];
        return Replaced;
      }
      return Same;
    }

    /** An administrator sets quotas: never below what is consumed. */
    method UpdateUserGroupsQuotas(email: string, duration: Option<int>, number: Option<int>, repetitions: Option<int>)
      requires Valid()
      modifies `users
      ensures Valid()
      ensures email !in old(users) ==> users == old(users)
      ensures email in old(users) ==> email in users && users == old(users)[email := Reallocated(
        old(users)[email], if QuotasFit(old(users)[email], duration, number) then duration else None,
        if QuotasFit(old(users)[email], duration, number) then number else None, repetitions)]
    {
      if email !in users {
        return;
      }
      var a := users[email];
      var durationFits := duration.Some? && a.consumedDuration <= duration.value;
      var numberFits := number.Some? && a.consumedNumber <= number.value;
      var b := a.(allocatedDuration := if durationFits && (number.None? || numberFits) then duration.value else a.allocatedDuration,
                  allocatedNumber := if numberFits && (duration.None? || durationFits) then number.value else a.allocatedNumber,
                  repetitions := if repetitions.Some? then repetitions.value else a.repetitions);
      BalancedAgain(users, groups, email, b);
      users := users[email := b];
    }

    /** Every group that is not a home for devices, in some order. */
    method GetTransientGroups() returns (rows: seq<Group>)
      ensures forall k | 0 <= k < |rows| :: rows[k] in groups.Values && Transient(rows[k])
      ensures forall id | id in groups && Transient(groups[id]) :: groups[id] in rows
    {
      rows := [];
      var left := groups.Keys;
      while left != {}
        invariant left <= groups.Keys
        invariant forall k | 0 <= k < |rows| :: rows[k] in groups.Values && Transient(rows[k])
        invariant forall id | id in groups && id !in left && Transient(groups[id]) :: groups[id] in rows
        decreases |left|
      {
        var id :| id in left;
        left := left - {id};
        if Transient(groups[id]) {
          rows := rows + [groups[id]];
        }
      }
    }

    // -------------------------------------------------------------- rows that go together

    /** The row of a group and the account of its owner, in two steps. */
    method AddDevice(group: Group, serial: string) returns (added: Option<Group>)
      requires Valid() && group.id in groups && groups[group.id] == group && Transient(group)
      requires Free(groups, group.id, [serial], group.dates)
      modifies this
      ensures Valid()
      ensures added.None? <==> !(Exchangeable(old(users), group.owner, group.duration, ComputeDuration(group, 1))
                                 && group.duration != ComputeDuration(group, 1))
      ensures added.None? ==> groups == old(groups) && users == old(users)
      ensures added.Some? ==> added.value == WithDevice(group, serial) && groups == old(groups)[group.id := added.value]
      ensures added.Some? ==> users == Exchanged(old(users), group.owner, group.duration, ComputeDuration(group, 1))
    {
      assert RowOk(group.id, group, users);
      var duration := ComputeDuration(group, 1);
      var stats := UpdateUserGroupDuration(group.owner, group.duration, duration);
      if stats != Replaced {
        return None;
      }
      var g := WithDevice(group, serial);
      DeviceAdded(old(users), groups, group.id, serial);
      groups := groups[group.id := g];
      return Some(g);
    }

    method RemoveDevices(group: Group, serials: seq<string>) returns (removed: Group)
      requires Valid() && group.id in groups && groups[group.id] == group && Transient(group)
      requires Distinct(serials) && forall s | s in serials :: s in group.devices
      modifies this
      ensures Valid() && removed == WithoutDevices(group, serials) && groups == old(groups)[group.id := removed]
      ensures users == Exchanged(old(users), group.owner, group.duration, removed.duration)
      ensures removed.duration == ComputeDuration(removed, 0)
    {
      var duration := ComputeDuration(group, -|serials|);
      DevicesRemoved(users, groups, group.id, serials);
      var stats := UpdateUserGroupDuration(group.owner, group.duration, duration);
      ExchangedForSame(old(users), group.owner, duration);
      removed := WithoutDevices(group, serials);
      groups := groups[group.id := removed];
    }

    // -------------------------------------------------------------- create and delete

    method CreateUserGroup(g: Group) returns (created: Option<Group>)
      requires Valid() && g.id !in groups && ScheduleOk(g) && g.devices == [] && g.duration == 0 && !g.privilege.Root?
      modifies this
      ensures Valid()
      ensures created.Some? <==> g.owner in old(users) && old(users)[g.owner].consumedNumber < old(users)[g.owner].allocatedNumber
      ensures created.None? ==> groups == old(groups) && users == old(users)
      ensures created.Some? ==> created.value == g && groups == old(groups)[g.id := g]
      ensures created.Some? ==>
        users == old(users)[g.owner := old(users)[g.owner].(consumedNumber := old(users)[g.owner].consumedNumber + 1)]
    {
      var stats := ReserveUserGroupInstance(g.owner);
      if stats != Replaced {
        return None;
      }
      GroupAdded(old(users), groups, g);
      groups := groups[g.id := g];
      return Some(g);
    }

    /** A group goes, and everything it was charged comes back. */
    method DeleteUserGroup(id: string) returns (reply: Reply)
      requires Valid() && id in groups
      modifies this
      ensures Valid()
      ensures old(groups)[id].privilege.Root? ==> reply == Refused(FORBIDDEN) && groups == old(groups) && users == old(users)
      ensures !old(groups)[id].privilege.Root? ==> reply == Deleted && groups == old(groups) - {id}
      ensures old(groups)[id].owner in old(users)
      ensures !old(groups)[id].privilege.Root? ==>
        users == old(users)[old(groups)[id].owner := Returned(old(users)[old(groups)[id].owner], old(groups)[id].duration)]
    {
      hide RowsOk, AllBalanced, NoOverlap;
      OwnerIsKnown(users, groups, id);
      var g := groups[id];
      if g.privilege.Root? {
        return Refused(FORBIDDEN);
      }
      ReleaseIsPossible(users, groups, id);
      GroupDropped(users, groups, id);
      groups := groups - {id};
      ReleaseUserGroupInstance(g.owner);
      var _ := UpdateUserGroupDuration(g.owner, g.duration, 0);
      assert users == old(users)[g.owner := Returned(old(users)[g.owner], g.duration)];
      return Deleted;
    }

    /** A group's schedule changes, and its owner is charged the difference. */
    method UpdateUserGroup(group: Group, data: Group) returns (updated: Option<Group>)
      requires Valid() && group.id in groups && groups[group.id] == group && RowOk(group.id, data, users)
      requires data.owner == group.owner && data.privilege.Root? == group.privilege.Root?
      requires NoOverlap(groups[group.id := data])
      modifies this
      ensures Valid()
      ensures updated.Some? <==> Exchangeable(old(users), group.owner, group.duration, data.duration) || group.duration == data.duration
      ensures updated.None? ==> groups == old(groups) && users == old(users)
      ensures updated.Some? ==> updated.value == data && groups == old(groups)[group.id := data]
      ensures updated.Some? ==> users == Exchanged(old(users), group.owner, group.duration, data.duration)
    {
      hide RowsOk, AllBalanced, NoOverlap, ScheduleOk, ComputeDuration;
      var stats := UpdateUserGroupDuration(group.owner, group.duration, data.duration);
      if stats == Replaced || (stats == Same && group.duration == data.duration) {
        ExchangedForSame(old(users), group.owner, data.duration);
        GroupExchanged(old(users), groups, group.id, data);
        groups := groups[group.id := data];
        return Some(data);
      }
      return None;
    }

    method Rename(id: string, name: string) returns (g: Group)
      requires Valid() && id in groups
      modifies `groups
      ensures Valid() && g == old(groups)[id].(name := name) && groups == old(groups)[id := g]
    {
      hide AllBalanced, NoOverlap;
      g := groups[id].(name := name);
      GroupRenamed(users, groups, id, g);
      groups := groups[id := g];
    }
  }
}
