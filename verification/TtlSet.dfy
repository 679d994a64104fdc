/** A set whose members expire: a doubly linked list from the least to the most recently bumped, a map
    from values to its nodes, and one timer for the head. */
module TtlSets {
  import opened Wrappers

  datatype Entry = Entry(value: string, time: int)

  datatype Event = Insert(value: string) | Drop(value: string)

  // ---------------------------------------------------------------- the list as a sequence

  function Without(s: seq<Entry>, value: string): (r: seq<Entry>)
    ensures forall e :: e in r <==> e in s && e.value != value
  {
    if s == [] then [] else if s[0].value == value then Without(s[1..], value) else [s[0]] + Without(s[1..], value)
  }

  predicate Distinct(s: seq<Entry>) {
    forall i, j | 0 <= i < j < |s| :: s[i].value != s[j].value
  }

  lemma {:induction false} WithoutCuts(s: seq<Entry>, k: nat)
    requires Distinct(s) && k < |s|
    ensures Without(s, s[k].value) == s[..k] + s[k + 1..]
  {
    if k == 0 {
      WithoutOther(s[1..], s[0].value);
    } else {
      WithoutCuts(s[1..], k - 1);
      CutBehindFirst(s, k);
    }
  }

  lemma CutBehindFirst(s: seq<Entry>, k: nat)
    requires 0 < k < |s|
    ensures s[..k] + s[k + 1..] == [s[0]] + (s[1..][..k - 1] + s[1..][k..])
  {
    assert s[..k] == [s[0]] + s[1..][..k - 1];
    assert s[k + 1..] == s[1..][k..];
  }

  lemma {:induction false} WithoutOther(s: seq<Entry>, value: string)
    requires forall i | 0 <= i < |s| :: s[i].value != value
    ensures Without(s, value) == s
  {
    if s != [] {
      WithoutOther(s[1..], value);
    }
  }

  predicate Sorted(s: seq<Entry>) {
    forall i, j | 0 <= i <= j < |s| :: s[i].time <= s[j].time
  }

  predicate Expired(e: Entry, ttl: int, now: int) {
    now - e.time > ttl
  }

  /** What is left once the expired entries at the head are gone. */
  function Fresh(s: seq<Entry>, ttl: int, now: int): seq<Entry> {
    if s != [] && Expired(s[0], ttl, now) then Fresh(s[1..], ttl, now) else s
  }

  /** Bumped in order, exactly the entries that have expired are gone. */
  lemma {:induction false} FreshIsExact(s: seq<Entry>, ttl: int, now: int)
    requires Sorted(s)
    ensures forall e :: e in Fresh(s, ttl, now) <==> e in s && !Expired(e, ttl, now)
    ensures Sorted(Fresh(s, ttl, now))
  {
    if s != [] && Expired(s[0], ttl, now) {
      FreshIsExact(s[1..], ttl, now);
      assert s == [s[0]] + s[1..];
    } else {
      forall e | e in s
        ensures !Expired(e, ttl, now)
      {
        var i :| 0 <= i < |s| && s[i] == e;
        assert s[0].time <= s[i].time;
      }
    }
  }

  /** No expired entry stands behind one that has not expired. */
  predicate ExpiredComeFirst(s: seq<Entry>, ttl: int, now: int) {
    forall i, j | 0 <= i < j < |s| && Expired(s[j], ttl, now) :: Expired(s[i], ttl, now)
  }

  lemma {:induction false} FreshIsSuffix(s: seq<Entry>, ttl: int, now: int) returns (k: nat)
    ensures k <= |s| && Fresh(s, ttl, now) == s[k..] && (k < |s| ==> !Expired(s[k], ttl, now))
    ensures forall i | 0 <= i < k :: Expired(s[i], ttl, now)
  {
    k := 0;
    if s != [] && Expired(s[0], ttl, now) {
      k := FreshIsSuffix(s[1..], ttl, now);
      assert forall i | 0 < i < k + 1 :: s[i] == s[1..][i - 1];
      k := k + 1;
    }
  }

  /** In any order, exactly the expired entries are gone if and only if none of them stands behind one
      that has not expired. */
  lemma FreshIsExactIff(s: seq<Entry>, ttl: int, now: int)
    ensures (forall e :: e in Fresh(s, ttl, now) <==> e in s && !Expired(e, ttl, now)) <==> ExpiredComeFirst(s, ttl, now)
  {
    var k := FreshIsSuffix(s, ttl, now);
    var r := Fresh(s, ttl, now);
    if ExpiredComeFirst(s, ttl, now) {
      forall e | e in r
        ensures !Expired(e, ttl, now)
      {
        var i :| k <= i < |s| && s[i] == e;
      }
      forall e | e in s && !Expired(e, ttl, now)
        ensures e in r
      {
        var i :| 0 <= i < |s| && s[i] == e;
        assert r[i - k] == e;
      }
    }
    if forall e | e in r :: !Expired(e, ttl, now) {
      assert forall j | k <= j < |s| :: s[j] == r[j - k] && r[j - k] in r;
    }
  }

  /** Out of order, an entry may outlive its time: it waits behind a younger head. */
  lemma UnsortedMayLinger(ttl: int, now: int)
    requires ttl >= 0
    ensures var s := [Entry("a", now), Entry("b", now - ttl - 1)];
      Expired(s[1], ttl, now) && s[1] in Fresh(s, ttl, now)
  {
    var s := [Entry("a", now), Entry("b", now - ttl - 1)];
    assert Fresh(s, ttl, now) == s;
  }

  /** Moving a member to the end, or adding one, keeps the order if time does not run backwards. */
  lemma BumpKeepsOrder(s: seq<Entry>, value: string, time: int)
    requires Sorted(s) && Distinct(s) && forall e | e in s :: e.time <= time
    ensures Sorted(Without(s, value) + [Entry(value, time)])
  {
    WithoutKeepsOrder(s, value);
    var r := Without(s, value);
    assert forall i | 0 <= i < |r| :: r[i] in r;
  }

  lemma {:induction false} WithoutKeepsOrder(s: seq<Entry>, value: string)
    requires Sorted(s)
    ensures Sorted(Without(s, value))
  {
    if s != [] {
      assert s == [s[0]] + s[1..];
      SortedCons(s[0], s[1..]);
      WithoutKeepsOrder(s[1..], value);
      SortedCons(s[0], Without(s[1..], value));
    }
  }

  lemma SortedCons(e: Entry, s: seq<Entry>)
    requires Sorted(s)
    ensures (forall x | x in s :: e.time <= x.time) ==> Sorted([e] + s)
    ensures Sorted([e] + s) ==> forall x | x in s :: e.time <= x.time
  {
    var r := [e] + s;
    forall x | Sorted(r) && x in s
      ensures e.time <= x.time
    {
      var i :| 0 <= i < |s| && s[i] == x;
      assert r[0].time <= r[i + 1].time;
    }
  }

  // ---------------------------------------------------------------- the timer

  function Max(a: int, b: int): int {
    if a < b then b else a
  }

  /** The timer goes off when the head has expired, or at once if it already had. */
  predicate Timely(s: seq<Entry>, timer: Option<int>, ttl: int, now: int) {
    s != [] ==> timer.Some? && timer.value <= Max(s[0].time + ttl, now)
  }

  /** A timer set for one head is early enough for the next. */
  lemma TimelyWithout(s: seq<Entry>, timer: Option<int>, ttl: int, now: int, value: string)
    requires Timely(s, timer, ttl, now) && Sorted(s)
    ensures Timely(Without(s, value), timer, ttl, now)
  {
    var r := Without(s, value);
    if r != [] {
      assert r[0] in r;
      var i :| 0 <= i < |s| && s[i] == r[0];
      assert s[0].time <= s[i].time;
    }
  }

  /** The order of the members and the timer that goes with it, unless the timer was stopped. */
  predicate InOrder(s: seq<Entry>, timer: Option<int>, stopped: bool, ttl: int, now: int) {
    Sorted(s) && (stopped || Timely(s, timer, ttl, now))
  }

  /** A bump at the latest time so far: the timer need only be set when it becomes the head. */
  lemma BumpKeepsInOrder(s: seq<Entry>, timer: Option<int>, stopped: bool, ttl: int, now: int,
                         value: string, time: int, timer': Option<int>, stopped': bool)
    requires InOrder(s, timer, stopped, ttl, now) && Distinct(s) && forall e | e in s :: e.time <= time
    requires Without(s, value) == [] ==> timer' == Some(Max(now, time + ttl))
    requires Without(s, value) != [] ==> timer' == timer && stopped' == stopped
    ensures InOrder(Without(s, value) + [Entry(value, time)], timer', stopped', ttl, now)
  {
    BumpKeepsOrder(s, value, time);
    if !stopped {
      TimelyWithout(s, timer, ttl, now, value);
    }
  }

  lemma DropKeepsInOrder(s: seq<Entry>, timer: Option<int>, stopped: bool, ttl: int, now: int, value: string)
    requires InOrder(s, timer, stopped, ttl, now)
    ensures InOrder(Without(s, value), timer, stopped, ttl, now)
  {
    WithoutKeepsOrder(s, value);
    if !stopped {
      TimelyWithout(s, timer, ttl, now, value);
    }
  }

  // ---------------------------------------------------------------- events

  datatype Seen = Out | In | Broken

  /** What the events told about one value; `Broken` if two of a kind came in a row. */
  function Told(events: seq<Event>, value: string): Seen {
    if events == [] then Out
    else
      var before := Told(events[..|events| - 1], value);
      match events[|events| - 1]
      case Insert(v) => if v != value then before else if before == Out then In else Broken
      case Drop(v) => if v != value then before else if before == In then Out else Broken
  }

  lemma ToldNext(events: seq<Event>, e: Event, value: string)
    ensures Told(events + [e], value) ==
      if e.value != value then Told(events, value)
      else if e.Insert? then (if Told(events, value) == Out then In else Broken)
      else (if Told(events, value) == In then Out else Broken)
  {
    assert (events + [e])[..|events|] == events;
  }

  /** What is announced when the expired entries at the head go. */
  function Drops(s: seq<Entry>, ttl: int, now: int): seq<Event> {
    if s != [] && Expired(s[0], ttl, now) then [Drop(s[0].value)] + Drops(s[1..], ttl, now) else []
  }

  lemma FreshStep(s: seq<Entry>, ttl: int, now: int)
    ensures s == [] || !Expired(s[0], ttl, now) ==> Fresh(s, ttl, now) == s && Drops(s, ttl, now) == []
    ensures s != [] && Expired(s[0], ttl, now) ==>
      Fresh(s, ttl, now) == Fresh(s[1..], ttl, now) && Drops(s, ttl, now) == [Drop(s[0].value)] + Drops(s[1..], ttl, now)
  {
  }

  // ---------------------------------------------------------------- the list itself

  /** No time, or time 0, means now. */
  function BumpTime(time: Option<int>, now: int): int {
    if time.None? || time.value == 0 then now else time.value
  }

  lemma NoTimeMeansNow(time: Option<int>, now: int)
    ensures BumpTime(time, now) == match time
      case None => now
      case Some(0) => now
      case Some(t) => t
  {
  }

  class Item {
    const value: string
    var next: Item?
    var prev: Item?
    var time: int

    constructor (value: string)
      ensures this.value == value && next == null && prev == null
    {
      this.value, next, prev, time := value, null, null, 0;
    }
  }

  /** A node is as good as the value it carries. */
  ghost predicate Mapped(nodes: seq<Item>, mapping: map<string, Item>) {
    && (forall i | 0 <= i < |nodes| :: nodes[i].value in mapping && mapping[nodes[i].value] == nodes[i])
    && (forall v | v in mapping :: mapping[v] in nodes && mapping[v].value == v)
  }

  ghost predicate AllDifferent(nodes: seq<Item>) {
    forall i, j | 0 <= i < j < |nodes| :: nodes[i] != nodes[j]
  }

  lemma MappedWithout(nodes: seq<Item>, mapping: map<string, Item>, k: nat)
    requires Mapped(nodes, mapping) && k < |nodes| && AllDifferent(nodes)
    ensures Mapped(nodes[..k] + nodes[k + 1..], mapping - {nodes[k].value})
  {
    var left := nodes[..k] + nodes[k + 1..];
    forall v | v in mapping && v != nodes[k].value
      ensures mapping[v] in left
    {
      var i :| 0 <= i < |nodes| && nodes[i] == mapping[v];
      assert left[if i < k then i else i - 1] == nodes[i];
    }
  }

  lemma MappedMoved(nodes: seq<Item>, mapping: map<string, Item>, k: nat)
    requires Mapped(nodes, mapping) && k < |nodes|
    ensures Mapped(nodes[..k] + nodes[k + 1..] + [nodes[k]], mapping)
  {
    var moved := nodes[..k] + nodes[k + 1..] + [nodes[k]];
    forall v | v in mapping
      ensures mapping[v] in moved
    {
      var i :| 0 <= i < |nodes| && nodes[i] == mapping[v];
      assert moved[if i < k then i else if i == k then |moved| - 1 else i - 1] == nodes[i];
    }
  }

  lemma MappedMore(nodes: seq<Item>, mapping: map<string, Item>, item: Item)
    requires Mapped(nodes, mapping) && item.value !in mapping
    ensures Mapped(nodes + [item], mapping[item.value := item])
  {
    var more := nodes + [item];
    assert more[|nodes|] == item;
    forall v | v in mapping
      ensures mapping[v] in more
    {
      var i :| 0 <= i < |nodes| && nodes[i] == mapping[v];
      assert more[i] == nodes[i];
    }
  }

  /** A value that was never touched silently was last announced as what it is. */
  ghost predicate Announced(events: seq<Event>, members: set<string>, hushed: set<string>) {
    forall v | v !in hushed :: Told(events, v) == if v in members then In else Out
  }

  lemma AnnouncedDrop(events: seq<Event>, members: set<string>, hushed: set<string>, value: string)
    requires Announced(events, members, hushed) && value in members
    ensures Announced(events + [Drop(value)], members - {value}, hushed)
    ensures Announced(events, members - {value}, hushed + {value})
  {
    forall v
      ensures Told(events + [Drop(value)], v) == if v != value then Told(events, v) else if Told(events, v) == In then Out else Broken
    {
      ToldNext(events, Drop(value), v);
    }
  }

  lemma AnnouncedInsert(events: seq<Event>, members: set<string>, hushed: set<string>, value: string)
    requires Announced(events, members, hushed) && value !in members
    ensures Announced(events + [Insert(value)], members + {value}, hushed)
    ensures Announced(events, members + {value}, hushed + {value})
  {
    forall v
      ensures Told(events + [Insert(value)], v) == if v != value then Told(events, v) else if Told(events, v) == Out then In else Broken
    {
      ToldNext(events, Insert(value), v);
    }
  }

  class TtlSet {
    const ttl: int
    var head: Item?
    var tail: Item?
    var mapping: map<string, Item>
    /** When the timer goes off, if it is armed. */
    var timer: Option<int>
    ghost var nodes: seq<Item>
    /** What the nodes carry. */
    ghost var entries: seq<Entry>
    ghost var events: seq<Event>
    /** The values that were ever inserted or dropped silently. */
    ghost var hushed: set<string>
    ghost var stopped: bool

    ghost predicate Linked()
      reads `head, `tail, `nodes, nodes
    {
      && (forall i {:trigger nodes[i].prev} | 0 <= i < |nodes| :: nodes[i].prev == if i == 0 then null else nodes[i - 1])
      && (forall i {:trigger nodes[i].next} | 0 <= i < |nodes| :: nodes[i].next == if i == |nodes| - 1 then null else nodes[i + 1])
      && AllDifferent(nodes)
      && head == (if nodes == [] then null else nodes[0])
      && tail == (if nodes == [] then null else nodes[|nodes| - 1])
    }

    ghost predicate Timed()
      reads `nodes, `entries, nodes
    {
      && |entries| == |nodes|
      && (forall i | 0 <= i < |nodes| :: entries[i].value == nodes[i].value && entries[i].time == nodes[i].time)
    }

    ghost predicate Valid()
      reads this, nodes
    {
      Linked() && Timed() && Mapped(nodes, mapping) && Announced(events, mapping.Keys, hushed)
    }

    constructor (ttl: int)
      ensures Valid() && entries == [] && this.ttl == ttl && timer.None? && events == [] && hushed == {} && !stopped
    {
      this.ttl, head, tail, mapping, timer := ttl, null, null, map[], None;
      nodes, entries, events, hushed, stopped := [], [], [], {}, false;
    }

    lemma ValuesAreDistinct()
      requires Mapped(nodes, mapping) && Linked() && Timed()
      ensures Distinct(entries)
    {
    }

    // -------------------------------------------------------------- private steps

    /** Takes a node out of the list. */
    method Splice(item: Item, ghost k: nat)
      requires Linked() && k < |nodes| && nodes[k] == item
      modifies `head, `tail, `nodes, nodes
      ensures Linked() && nodes == old(nodes)[..k] + old(nodes)[k + 1..]
      ensures item.prev == null && item.next == null && item !in nodes
      ensures forall i | 0 <= i < |old(nodes)| :: old(nodes)[i].time == old(nodes[i].time)
    {
      assert nodes[k].prev == if k == 0 then null else nodes[k - 1];
      assert nodes[k].next == if k == |nodes| - 1 then null else nodes[k + 1];
      if item.prev != null {
        item.prev.next := item.next;
      }
      if item.next != null {
        item.next.prev := item.prev;
      }
      if item == head {
        head := item.next;
      }
      if item == tail {
        tail := item.prev;
      }
      item.next, item.prev := null, null;
      nodes := nodes[..k] + nodes[k + 1..];
    }

    method Unlink(item: Item, ghost k: nat)
      requires Linked() && Timed() && k < |nodes| && nodes[k] == item
      modifies `head, `tail, `nodes, `entries, nodes
      ensures Linked() && Timed() && nodes == old(nodes)[..k] + old(nodes)[k + 1..]
      ensures item.prev == null && item.next == null && item !in nodes
      ensures entries == old(entries)[..k] + old(entries)[k + 1..]
    {
      hide Linked;
      Splice(item, k);
      entries := entries[..k] + entries[k + 1..];
    }

    /** Puts a node at the end of the list. */
    method Append(item: Item, time: int) returns (first: bool)
      requires Linked() && Timed() && item !in nodes && item.next == null
      modifies `head, `tail, `nodes, `entries, nodes, item
      ensures Linked() && Timed() && nodes == old(nodes) + [item]
      ensures entries == old(entries) + [Entry(item.value, time)]
      ensures first <==> old(nodes) == []
    {
      item.time := time;
      item.prev := tail;
      tail := item;
      if item.prev != null {
        item.prev.next := item;
        first := false;
      } else {
        head := item;
        first := true;
      }
      nodes, entries := nodes + [item], entries + [Entry(item.value, time)];
    }

    method ScheduleCheck(now: int)
      requires Linked() && Timed()
      modifies `timer, `stopped
      ensures Timely(entries, timer, ttl, now) && (nodes != [] ==> !stopped) && (nodes == [] ==> timer.None?)
      ensures nodes != [] ==> timer == Some(Max(now, entries[0].time + ttl))
      ensures nodes != [] ==>
        timer.value >= now && timer.value >= entries[0].time + ttl && timer.value in {now, entries[0].time + ttl}
    {
      timer := None;
      if head != null {
        var delay := Max(0, ttl - (now - head.time));
        timer := Some(now + delay);
        stopped := false;
      }
    }

    /** Takes a member out of the set. */
    method DropItem(item: Item, silent: bool, ghost k: nat)
      requires Valid() && k < |nodes| && nodes[k] == item
      modifies `head, `tail, `nodes, `entries, `mapping, `events, `hushed, nodes
      ensures Valid() && nodes == old(nodes)[..k] + old(nodes)[k + 1..]
      ensures entries == old(entries)[..k] + old(entries)[k + 1..]
      ensures mapping == old(mapping) - {item.value}
      ensures events == old(events) + if silent then [] else [Event.Drop(item.value)]
      ensures hushed == old(hushed) + if silent then {item.value} else {}
    {
      hide Mapped, Announced, Linked, Timed;
      NodesDiffer();
      MappedWithout(nodes, mapping, k);
      AnnouncedDrop(events, mapping.Keys, hushed, item.value) by {
        InMapping(k);
      }
      Unlink(item, k);
      assert (mapping - {item.value}).Keys == mapping.Keys - {item.value};
      mapping := mapping - {item.value};
      if silent {
        hushed := hushed + {item.value};
      } else {
        events := events + [Event.Drop(item.value)];
      }
    }

    lemma NodesDiffer()
      requires Linked()
      ensures AllDifferent(nodes)
    {
    }

    lemma InMapping(k: nat)
      requires Mapped(nodes, mapping) && k < |nodes|
      ensures nodes[k].value in mapping && mapping[nodes[k].value] == nodes[k]
    {
    }

    lemma InNodes(value: string) returns (k: nat)
      requires Mapped(nodes, mapping) && value in mapping
      ensures k < |nodes| && nodes[k] == mapping[value] && mapping[value].value == value
    {
      k :| 0 <= k < |nodes| && nodes[k] == mapping[value];
    }

    lemma HeadIs()
      requires Linked() && Timed()
      ensures |entries| == |nodes| && (head == null <==> nodes == [])
      ensures head != null ==> head == nodes[0] && entries[0] == Entry(head.value, head.time)
    {
    }

    lemma EntryOf(k: nat)
      requires Timed() && k < |nodes|
      ensures |entries| == |nodes| && entries[k].value == nodes[k].value
    {
    }

    lemma NotThere(value: string)
      requires Mapped(nodes, mapping) && Timed() && value !in mapping
      ensures Without(entries, value) == entries && forall n | n in nodes :: n.value != value
    {
      WithoutOther(entries, value);
    }

    // -------------------------------------------------------------- what callers use

    /** A value that is new, or moved to the end: the last one to expire. */
    method Bump(value: string, time: Option<int>, now: int, silent: bool)
      requires Valid()
      modifies this, nodes
      ensures Valid() && forall n | n in nodes :: n in old(nodes) || fresh(n)
      ensures entries == Without(old(entries), value) + [Entry(value, BumpTime(time, now))]
      ensures value in old(mapping) ==> events == old(events) && hushed == old(hushed)
      ensures value !in old(mapping) ==>
        events == (if silent then old(events) else old(events) + [Insert(value)]) && hushed == old(hushed) + if silent then {value} else {}
      ensures Without(old(entries), value) != [] ==> timer == old(timer) && stopped == old(stopped)
      ensures Without(old(entries), value) == [] ==> timer == Some(Max(now, BumpTime(time, now) + ttl)) && !stopped
      ensures InOrder(old(entries), old(timer), old(stopped), ttl, now) && (forall e | e in old(entries) :: e.time <= BumpTime(time, now))
        ==> InOrder(entries, timer, stopped, ttl, now)
    {
      hide Mapped, Announced, Linked, Timed, Without, Distinct, InOrder;
      ValuesAreDistinct();
      var item;
      if value in mapping {
        ghost var k;
        item, k := Detach(value);
      } else {
        NotThere(value);
        item := Create(value, silent);
      }
      var first := Append(item, BumpTime(time, now));
      if first {
        ScheduleCheck(now);
      }
      if InOrder(old(entries), old(timer), old(stopped), ttl, now) && forall e | e in old(entries) :: e.time <= BumpTime(time, now) {
        BumpKeepsInOrder(old(entries), old(timer), old(stopped), ttl, now, value, BumpTime(time, now), timer, stopped);
      }
    }

    /** A member leaves the list, to come back at its end. */
    method Detach(value: string) returns (item: Item, ghost k: nat)
      requires Valid() && value in mapping
      modifies `head, `tail, `nodes, `entries, nodes
      ensures item == mapping[value] && item.value == value && item.next == null && item in old(nodes)
      ensures Linked() && Timed() && item !in nodes
      ensures k < |old(nodes)| && nodes == old(nodes)[..k] + old(nodes)[k + 1..]
      ensures Mapped(nodes + [item], mapping)
      ensures entries == Without(old(entries), value)
    {
      hide Mapped, Linked, Timed, Announced, Without, Distinct;
      k := InNodes(value);
      EntryOf(k);
      ValuesAreDistinct();
      WithoutCuts(entries, k);
      MappedMoved(nodes, mapping, k);
      item := mapping[value];
      Unlink(item, k);
    }

    method Create(value: string, silent: bool) returns (item: Item)
      requires value !in mapping && Announced(events, mapping.Keys, hushed) && Mapped(nodes, mapping)
      modifies `mapping, `events, `hushed
      ensures fresh(item) && item.value == value && item.next == null && mapping == old(mapping)[value := item]
      ensures Announced(events, mapping.Keys, hushed) && Mapped(nodes + [item], mapping)
      ensures events == if silent then old(events) else old(events) + [Insert(value)]
      ensures hushed == old(hushed) + if silent then {value} else {}
    {
      hide Mapped, Announced;
      item := new Item(value);
      AnnouncedInsert(events, mapping.Keys, hushed, value);
      MappedMore(nodes, mapping, item);
      assert mapping[value := item].Keys == mapping.Keys + {value};
      mapping := mapping[value := item];
      if silent {
        hushed := hushed + {value};
      } else {
        events := events + [Insert(value)];
      }
    }

    method Drop(value: string, silent: bool)
      requires Valid()
      modifies this, nodes
      ensures Valid() && forall n | n in nodes :: n in old(nodes)
      ensures entries == Without(old(entries), value) && timer == old(timer) && stopped == old(stopped)
      ensures events == if value !in old(mapping) || silent then old(events) else old(events) + [Event.Drop(value)]
      ensures forall now :: InOrder(old(entries), timer, stopped, ttl, now) ==> InOrder(entries, timer, stopped, ttl, now)
    {
      hide Mapped, Announced, Linked;
      ValuesAreDistinct();
      if value in mapping {
        ghost var k := InNodes(value);
        WithoutCuts(entries, k);
        DropItem(mapping[value], silent, k);
      } else {
        NotThere(value);
      }
      forall now | InOrder(old(entries), timer, stopped, ttl, now)
        ensures InOrder(entries, timer, stopped, ttl, now)
      {
        DropKeepsInOrder(old(entries), timer, stopped, ttl, now, value);
      }
    }

    method Stop()
      requires Valid()
      modifies `timer, `stopped
      ensures Valid() && timer.None? && stopped
    {
      hide Mapped, Announced, Linked, Timed;
      timer, stopped := None, true;
    }

    /** The timer has gone off: what has expired goes, and the timer is set for what is left. */
    method Check(now: int)
      requires Valid()
      modifies this, nodes
      ensures Valid() && forall n | n in nodes :: n in old(nodes)
      ensures entries == Fresh(old(entries), ttl, now)
      ensures events == old(events) + Drops(old(entries), ttl, now) && hushed == old(hushed)
      ensures Timely(entries, timer, ttl, now) && (entries != [] ==> !stopped)
      ensures Sorted(old(entries)) ==> (
        InOrder(entries, timer, stopped, ttl, now) && forall e :: e in entries <==> e in old(entries) && !Expired(e, ttl, now))
    {
      hide Mapped, Announced, Linked, Timed, Fresh, Drops;
      while head != null
        invariant Valid() && |nodes| <= |old(nodes)| && nodes == old(nodes)[|old(nodes)| - |nodes|..]
        invariant Fresh(entries, ttl, now) == Fresh(old(entries), ttl, now)
        invariant events + Drops(entries, ttl, now) == old(events) + Drops(old(entries), ttl, now)
        invariant hushed == old(hushed) && stopped == old(stopped)
        decreases |nodes|
      {
        HeadIs();
        if now - head.time > ttl {
          FreshStep(entries, ttl, now);
          DropHead();
        } else {
          break;
        }
      }
      HeadIs();
      FreshStep(entries, ttl, now);
      ScheduleCheck(now);
      if Sorted(old(entries)) {
        FreshIsExact(old(entries), ttl, now);
      }
    }

    method DropHead()
      requires Valid() && head != null && entries != []
      modifies `head, `tail, `nodes, `entries, `mapping, `events, `hushed, nodes
      ensures Valid() && nodes == old(nodes)[1..] && entries == old(entries)[1..]
      ensures events == old(events) + [Event.Drop(old(entries[0].value))] && hushed == old(hushed)
    {
      hide Mapped, Announced, Linked, Timed;
      HeadIs();
      assert entries[..0] + entries[1..] == entries[1..];
      DropItem(head, false, 0);
    }
  }
}
