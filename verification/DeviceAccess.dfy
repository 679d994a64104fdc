/** The fence between permission reads and permission changes.

    Every notification about a device bumps a revision; whoever read a database row under a
    checkpoint asks later whether anything was invalidated since. The maps that answer this are
    bounded. `log` is the unbounded record they have to agree with. */
module DeviceAccess {
  import opened Wrappers
  import opened MapSize

  const MAX_ENTRIES := 128

  datatype Owner = Owner(email: Option<string>, reservation: Option<string>)

  datatype Device = Device(
    serial: string,
    platform: Option<string>,
    channel: Option<string>,
    present: bool,
    ready: bool,
    usage: Option<string>,
    group: Option<string>,
    owner: Option<Owner>)

  /** What a notification says about a device: only the fields it mentions. */
  datatype Change = Change(
    channel: Option<Option<string>>,
    present: Option<bool>,
    ready: Option<bool>,
    usage: Option<Option<string>>,
    group: Option<Option<string>>,
    owner: Option<Option<Owner>>)

  const NO_CHANGE := Change(None, None, None, None, None, None)

  function Newer<T>(old_: Option<T>, new_: Option<T>): Option<T> {
    if new_.Some? then new_ else old_
  }

  function Merge(previous: Change, change: Change): Change {
    Change(Newer(previous.channel, change.channel), Newer(previous.present, change.present),
           Newer(previous.ready, change.ready), Newer(previous.usage, change.usage),
           Newer(previous.group, change.group), Newer(previous.owner, change.owner))
  }

  /** Field by field: what the change mentions is as it says, and the rest as it was. */
  ghost predicate Says(now: Change, before: Change, change: Change) {
    && (if change.channel.Some? then now.channel == change.channel else now.channel == before.channel)
    && (if change.present.Some? then now.present == change.present else now.present == before.present)
    && (if change.ready.Some? then now.ready == change.ready else now.ready == before.ready)
    && (if change.usage.Some? then now.usage == change.usage else now.usage == before.usage)
    && (if change.group.Some? then now.group == change.group else now.group == before.group)
    && (if change.owner.Some? then now.owner == change.owner else now.owner == before.owner)
  }

  // ---------------------------------------------------------------- the last word on every field

  /** What is left of a field when it was mentioned, or not, in this order: its last mention. */
  ghost predicate LastWord<T>(v: Option<T>, said: seq<Option<T>>) {
    if v.None? then forall i | 0 <= i < |said| :: said[i].None?
    else exists i :: 0 <= i < |said| && said[i] == v && forall j | i < j < |said| :: said[j].None?
  }

  lemma LastWordNext<T>(v: Option<T>, said: seq<Option<T>>, next: Option<T>)
    requires LastWord(v, said)
    ensures LastWord(if next.Some? then next else v, said + [next])
  {
    var more := said + [next];
    assert more[|said|] == next;
    if next.None? && v.Some? {
      var i :| 0 <= i < |said| && said[i] == v && forall j | i < j < |said| :: said[j].None?;
      assert more[i] == v && forall j | i < j < |more| :: more[j].None?;
    }
  }

  lemma OneLastWord<T>(v: Option<T>, w: Option<T>, said: seq<Option<T>>)
    requires LastWord(v, said) && LastWord(w, said)
    ensures v == w
  {
    if v.Some? && w.Some? {
      var i :| 0 <= i < |said| && said[i] == v && forall j | i < j < |said| :: said[j].None?;
      var k :| 0 <= k < |said| && said[k] == w && forall j | k < j < |said| :: said[j].None?;
      assert i == k;
    }
  }

  ghost function Channels(said: seq<Change>): seq<Option<Option<string>>> {
    seq(|said|, i requires 0 <= i < |said| => said[i].channel)
  }

  ghost function Presences(said: seq<Change>): seq<Option<bool>> {
    seq(|said|, i requires 0 <= i < |said| => said[i].present)
  }

  ghost function Readinesses(said: seq<Change>): seq<Option<bool>> {
    seq(|said|, i requires 0 <= i < |said| => said[i].ready)
  }

  ghost function Usages(said: seq<Change>): seq<Option<Option<string>>> {
    seq(|said|, i requires 0 <= i < |said| => said[i].usage)
  }

  ghost function GroupsSaid(said: seq<Change>): seq<Option<Option<string>>> {
    seq(|said|, i requires 0 <= i < |said| => said[i].group)
  }

  ghost function Owners(said: seq<Change>): seq<Option<Option<Owner>>> {
    seq(|said|, i requires 0 <= i < |said| => said[i].owner)
  }

  /** The observation holds the last word on every field, and nothing else. */
  ghost predicate Recalls(c: Change, said: seq<Change>) {
    && LastWord(c.channel, Channels(said)) && LastWord(c.present, Presences(said)) && LastWord(c.ready, Readinesses(said))
    && LastWord(c.usage, Usages(said)) && LastWord(c.group, GroupsSaid(said)) && LastWord(c.owner, Owners(said))
  }

  lemma RecallsMore(now: Change, before: Change, said: seq<Change>, c: Change)
    requires Recalls(before, said) && Says(now, before, c)
    ensures Recalls(now, said + [c])
  {
    hide LastWord;
    var more := said + [c];
    LastWordNext(before.channel, Channels(said), c.channel);
    LastWordNext(before.present, Presences(said), c.present);
    LastWordNext(before.ready, Readinesses(said), c.ready);
    LastWordNext(before.usage, Usages(said), c.usage);
    LastWordNext(before.group, GroupsSaid(said), c.group);
    LastWordNext(before.owner, Owners(said), c.owner);
    assert Channels(more) == Channels(said) + [c.channel] && Presences(more) == Presences(said) + [c.present];
    assert Readinesses(more) == Readinesses(said) + [c.ready] && Usages(more) == Usages(said) + [c.usage];
    assert GroupsSaid(more) == GroupsSaid(said) + [c.group] && Owners(more) == Owners(said) + [c.owner];
  }

  /** The observations are the last words on the devices that are observed. */
  ghost predicate MentionsOk(observations: map<string, Change>, mentions: map<string, seq<Change>>) {
    observations.Keys == mentions.Keys && forall s | s in observations :: Recalls(observations[s], mentions[s])
  }

  ghost function SaidOf(mentions: map<string, seq<Change>>, serial: string): seq<Change> {
    if serial in mentions then mentions[serial] else []
  }

  lemma MentionsMore(observations: map<string, Change>, mentions: map<string, seq<Change>>, serial: string, now: Change,
                     c: Change)
    requires MentionsOk(observations, mentions)
    requires Says(now, if serial in observations then observations[serial] else NO_CHANGE, c)
    ensures MentionsOk(observations[serial := now], mentions[serial := SaidOf(mentions, serial) + [c]])
  {
    hide Says, Recalls;
    RecallsNothing();
    RecallsMore(now, if serial in observations then observations[serial] else NO_CHANGE, SaidOf(mentions, serial), c);
  }

  lemma MentionsLess(observations: map<string, Change>, mentions: map<string, seq<Change>>, serial: string)
    requires MentionsOk(observations, mentions)
    ensures MentionsOk(observations - {serial}, mentions - {serial})
  {
    hide Recalls;
  }

  lemma MergeSays(before: Change, change: Change)
    ensures Says(Merge(before, change), before, change)
  {
  }

  lemma RecallsNothing()
    ensures Recalls(NO_CHANGE, [])
  {
  }

  /** No text and an empty one are the same. */
  predicate SameText(a: Option<string>, b: Option<string>) {
    a == b || (a in {None, Some("")} && b in {None, Some("")})
  }

  /** Two owners are the same by address and by reservation; nobody has neither. */
  predicate SameOwner(a: Option<Owner>, b: Option<Owner>) {
    match (a, b)
    case (None, None) => true
    case (Some(x), None) => SameText(x.email, None) && SameText(x.reservation, None)
    case (None, Some(y)) => SameText(y.email, None) && SameText(y.reservation, None)
    case (Some(x), Some(y)) => SameText(x.email, y.email) && SameText(x.reservation, y.reservation)
  }

  /** The row agrees with the last word on every field. */
  ghost predicate Agrees(row: Device, said: seq<Change>) {
    && (forall v | LastWord(v, Channels(said)) && v.Some? :: row.channel == v.value)
    && (forall v | LastWord(v, Presences(said)) && v.Some? :: row.present == v.value)
    && (forall v | LastWord(v, Readinesses(said)) && v.Some? :: row.ready == v.value)
    && (forall v | LastWord(v, Usages(said)) && v.Some? :: SameText(row.usage, v.value))
    && (forall v | LastWord(v, GroupsSaid(said)) && v.Some? :: row.group == v.value)
    && (forall v | LastWord(v, Owners(said)) && v.Some? :: SameOwner(row.owner, v.value))
  }

  lemma SameIsKnown(a: Option<Owner>, b: Option<Owner>)
    ensures SameOwner(a, b) <==> EmailOf(a) == EmailOf(b) && ReservationOf(a) == ReservationOf(b)
  {
  }

  /** A row shows an observation if and only if it agrees with all that was said. */
  lemma CaughtUpMeansAgrees(row: Device, c: Change, said: seq<Change>)
    requires Recalls(c, said)
    ensures CaughtUp(row, c) <==> Agrees(row, said)
  {
    hide LastWord, SameOwner, EmailOf, ReservationOf;
    forall v | LastWord(v, Channels(said)) ensures v == c.channel { OneLastWord(v, c.channel, Channels(said)); }
    forall v | LastWord(v, Presences(said)) ensures v == c.present { OneLastWord(v, c.present, Presences(said)); }
    forall v | LastWord(v, Readinesses(said)) ensures v == c.ready { OneLastWord(v, c.ready, Readinesses(said)); }
    forall v | LastWord(v, Usages(said)) ensures v == c.usage { OneLastWord(v, c.usage, Usages(said)); }
    forall v | LastWord(v, GroupsSaid(said)) ensures v == c.group { OneLastWord(v, c.group, GroupsSaid(said)); }
    forall v | LastWord(v, Owners(said)) ensures v == c.owner { OneLastWord(v, c.owner, Owners(said)); }
    if c.owner.Some? {
      SameIsKnown(row.owner, c.owner.value);
    }
  }

  /** An empty string counts as none. */
  function Known(s: Option<string>): Option<string> {
    if s == Some("") then None else s
  }

  function EmailOf(owner: Option<Owner>): Option<string> {
    if owner.Some? then Known(owner.value.email) else None
  }

  function ReservationOf(owner: Option<Owner>): Option<string> {
    if owner.Some? then Known(owner.value.reservation) else None
  }

  /** The row shows everything that was observed. */
  predicate CaughtUp(device: Device, observed: Change) {
    && (observed.owner.Some? ==>
          EmailOf(device.owner) == EmailOf(observed.owner.value)
          && ReservationOf(device.owner) == ReservationOf(observed.owner.value))
    && (observed.group.Some? ==> device.group == observed.group.value)
    && (observed.usage.Some? ==> Known(device.usage) == Known(observed.usage.value))
    && (observed.channel.Some? ==> device.channel == observed.channel.value)
    && (observed.present.Some? ==> device.present == observed.present.value)
    && (observed.ready.Some? ==> device.ready == observed.ready.value)
  }

  datatype Miss = Miss(until: int, groups: set<string>)

  /** One invalidation: of one device, or of everything, on request or because a bounded map had
      to forget something. */
  datatype Entry = Entry(stamp: nat, serial: Option<string>, requested: bool)

  predicate Concerns(e: Entry, serial: string) {
    e.serial.None? || e.serial.value == serial
  }

  /** Something after the checkpoint invalidated this device, or everything. */
  ghost predicate InvalidatedSince(log: seq<Entry>, serial: string, checkpoint: nat) {
    exists j :: 0 <= j < |log| && log[j].stamp > checkpoint && Concerns(log[j], serial)
  }

  ghost predicate EverythingSince(log: seq<Entry>, checkpoint: nat) {
    exists j :: 0 <= j < |log| && log[j].stamp > checkpoint && log[j].serial.None?
  }

  ghost predicate LogOk(log: seq<Entry>, revision: nat, changed: map<string, nat>, everything: nat) {
    && (forall j | 0 <= j < |log| :: 0 < log[j].stamp <= revision)
    && everything <= revision
    && (forall j | 0 <= j < |log| && log[j].serial.None? :: log[j].stamp <= everything)
    && (everything > 0 ==> exists j :: 0 <= j < |log| && log[j].serial.None? && log[j].stamp == everything)
    && (forall j | 0 <= j < |log| && log[j].serial.Some? && log[j].stamp > everything ::
          log[j].serial.value in changed && log[j].stamp <= changed[log[j].serial.value])
    && (forall s | s in changed :: changed[s] <= revision)
    && (forall s | s in changed :: exists j :: 0 <= j < |log| && log[j].serial == Some(s) && log[j].stamp == changed[s])
  }

  /** The log has grown, by entries that are younger than `revision`. */
  ghost predicate Grown(before: seq<Entry>, after: seq<Entry>, revision: nat) {
    before <= after && forall j | |before| <= j < |after| :: after[j].stamp > revision
  }

  lemma GrownByOne(log: seq<Entry>, e: Entry, revision: nat)
    requires e.stamp > revision
    ensures Grown(log, log + [e], revision) && Grown(log, log, revision)
  {
  }

  lemma GrownTwice(first: seq<Entry>, second: seq<Entry>, third: seq<Entry>, revision: nat, later: nat)
    requires Grown(first, second, revision) && Grown(second, third, later) && revision <= later
    ensures Grown(first, third, revision)
  {
  }

  lemma LoggedNow(log: seq<Entry>, e: Entry, checkpoint: nat)
    ensures e.stamp > checkpoint && e.serial.Some? ==> InvalidatedSince(log + [e], e.serial.value, checkpoint)
    ensures e.stamp > checkpoint && e.serial.None? ==> EverythingSince(log + [e], checkpoint)
  {
    assert (log + [e])[|log|] == e;
    if e.serial.Some? {
      assert Concerns(e, e.serial.value);
    }
  }

  /** An invalidation is never lost: not when more is logged, nor for an older checkpoint. */
  lemma StillInvalidated(before: seq<Entry>, after: seq<Entry>, now: nat, serial: string, checkpoint: nat, earlier: nat)
    requires Grown(before, after, now) && earlier <= checkpoint
    ensures InvalidatedSince(before, serial, checkpoint) ==> InvalidatedSince(after, serial, earlier)
    ensures EverythingSince(before, checkpoint) ==> EverythingSince(after, earlier)
    ensures EverythingSince(before, checkpoint) ==> InvalidatedSince(after, serial, earlier)
  {
    if InvalidatedSince(before, serial, checkpoint) {
      var j :| 0 <= j < |before| && before[j].stamp > checkpoint && Concerns(before[j], serial);
      assert after[j] == before[j];
    }
    if EverythingSince(before, checkpoint) {
      var j :| 0 <= j < |before| && before[j].stamp > checkpoint && before[j].serial.None?;
      assert after[j] == before[j] && Concerns(after[j], serial);
    }
  }

  lemma EverythingLogged(log: seq<Entry>, revision: nat, changed: map<string, nat>, everything: nat,
                         after: map<string, nat>, stamp: nat, requested: bool)
    requires LogOk(log, revision, changed, everything) && revision <= stamp && 0 < stamp
    requires after == changed || after == map[]
    ensures LogOk(log + [Entry(stamp, None, requested)], stamp, after, stamp)
  {
    var more := log + [Entry(stamp, None, requested)];
    assert more[|log|].stamp == stamp;
    forall s | s in after
      ensures exists j :: 0 <= j < |more| && more[j].serial == Some(s) && more[j].stamp == after[s]
    {
      var j :| 0 <= j < |log| && log[j].serial == Some(s) && log[j].stamp == changed[s];
      assert more[j] == log[j];
    }
  }

  lemma SerialLogged(log: seq<Entry>, revision: nat, changed: map<string, nat>, everything: nat, serial: string)
    requires LogOk(log, revision, changed, everything)
    ensures LogOk(log + [Entry(revision + 1, Some(serial), true)], revision + 1, changed[serial := revision + 1], everything)
  {
    var more := log + [Entry(revision + 1, Some(serial), true)];
    assert more[|log|].stamp == revision + 1;
    if everything > 0 {
      var j :| 0 <= j < |log| && log[j].serial.None? && log[j].stamp == everything;
      assert more[j] == log[j];
    }
    forall s | s in changed && s != serial
      ensures exists j :: 0 <= j < |more| && more[j].serial == Some(s) && more[j].stamp == changed[s]
    {
      var j :| 0 <= j < |log| && log[j].serial == Some(s) && log[j].stamp == changed[s];
      assert more[j] == log[j];
    }
  }

  /** The bounded answer and the log agree, in both directions. */
  lemma FenceIsExact(log: seq<Entry>, revision: nat, changed: map<string, nat>, everything: nat, serial: string,
                     checkpoint: nat)
    requires LogOk(log, revision, changed, everything)
    ensures (everything <= checkpoint && (serial in changed ==> changed[serial] <= checkpoint))
      <==> !InvalidatedSince(log, serial, checkpoint)
  {
    if everything > checkpoint {
      var j :| 0 <= j < |log| && log[j].serial.None? && log[j].stamp == everything;
      assert Concerns(log[j], serial);
    } else if serial in changed && changed[serial] > checkpoint {
      var j :| 0 <= j < |log| && log[j].serial == Some(serial) && log[j].stamp == changed[serial];
      assert Concerns(log[j], serial);
    }
  }

  /** Nothing was added or changed. */
  ghost predicate Submap(after: map<string, nat>, before: map<string, nat>) {
    forall s | s in after :: s in before && after[s] == before[s]
  }

  lemma NothingLess(m: map<string, nat>)
    ensures Submap(m, m)
  {
  }

  lemma OneForgotten(m: map<string, nat>, k: string)
    requires k in m
    ensures |m - {k}| == |m| - 1 && Submap(m - {k}, m) && Submap(m, m)
  {
    OneFewer(m, k);
  }

  /** A stored miss dates from the present revision. */
  ghost predicate MissesOk(misses: map<string, Miss>, missSince: map<string, nat>, revision: nat) {
    forall c | c in misses :: c in missSince && missSince[c] == revision
  }

  lemma NoMisses(revision: nat)
    ensures MissesOk(map[], map[], revision)
  {
  }

  /** Where the fence stands. */
  datatype World = World(log: seq<Entry>, revision: nat, observations: map<string, Change>, overflowed: bool, channels: set<string>)

  /** Whatever may happen to the fence. */
  ghost predicate Moved(before: World, after: World) {
    && before.revision <= after.revision && Grown(before.log, after.log, before.revision)
    && (before.channels <= after.channels || EverythingSince(after.log, before.revision))
    && (forall s :: Fences(before, after, s))
  }

  /** A device gets unsettled only by an invalidation. */
  ghost predicate Fences(before: World, after: World, serial: string) {
    Settled(before, serial) && !Settled(after, serial) ==> InvalidatedSince(after.log, serial, before.revision)
  }

  /** No observation about the device is waiting for the database. */
  ghost predicate Settled(w: World, serial: string) {
    serial !in w.observations && !w.overflowed
  }

  lemma MovedBy(before: World, after: World, serial: string)
    requires before.revision <= after.revision && Grown(before.log, after.log, before.revision)
    requires before.channels <= after.channels || EverythingSince(after.log, before.revision)
    requires forall s | s in after.observations && s != serial :: s in before.observations
    requires serial in after.observations && serial !in before.observations ==> InvalidatedSince(after.log, serial, before.revision)
    requires after.overflowed ==> before.overflowed || EverythingSince(after.log, before.revision)
    ensures Moved(before, after)
  {
    hide EverythingSince, InvalidatedSince, Grown;
    forall s
      ensures Fences(before, after, s)
    {
      if after.overflowed && !before.overflowed {
        StillInvalidated(after.log, after.log, after.revision, s, before.revision, before.revision) by {
          NothingNew(after.log, after.revision);
        }
      }
    }
  }

  /** An invalidation alone. */
  lemma MovedInLog(before: World, after: World)
    requires before.revision <= after.revision && Grown(before.log, after.log, before.revision)
    requires after == before.(log := after.log, revision := after.revision)
    ensures Moved(before, after)
  {
  }

  lemma NothingNew(log: seq<Entry>, revision: nat)
    ensures Grown(log, log, revision)
  {
  }

  /** Nothing new is known of a channel, except perhaps that it is this device's. */
  ghost predicate OnlyAdds(before: map<string, string>, after: map<string, string>, channel: Option<string>,
                           serial: string) {
    forall c | c in after :: (c in before && after[c] == before[c]) || (Some(c) == channel && after[c] == serial)
  }

  lemma AddsNothing(channels: map<string, string>, channel: Option<string>, serial: string)
    ensures OnlyAdds(channels, channels, channel, serial)
  {
  }

  lemma NothingSaid(row: Device)
    ensures Agrees(row, [])
  {
  }

  lemma AddsOne(channels: map<string, string>, channel: string, serial: string)
    ensures OnlyAdds(channels, channels[channel := serial], Some(channel), serial)
    ensures forall c | c != channel ::
              channel in channels[channel := serial] - {c} && (channels[channel := serial] - {c})[channel] == serial
    ensures forall c | c != channel :: OnlyAdds(channels, channels[channel := serial] - {c}, Some(channel), serial)
  {
  }

  lemma FewerChannels(channels: map<string, string>, channel: string, serial: string, oldest: string)
    requires oldest in channels && oldest != channel
    ensures (channels[channel := serial] - {oldest}).Keys < channels.Keys + {channel}
  {
    var less := channels[channel := serial] - {oldest};
    assert oldest in channels.Keys + {channel} && oldest !in less;
  }

  class DevicePacketAccess {
    const maxObservations: nat
    var channels: map<string, string>
    var changed: map<string, nat>
    var sessions: map<string, nat>
    var observations: map<string, Change>
    var misses: map<string, Miss>
    /** The revision at which the read behind a stored miss began. */
    ghost var missSince: map<string, nat>
    var revision: nat
    var subscriptionsChanged: nat
    var overflowed: bool
    ghost var log: seq<Entry>
    /** What was said of each observed device since its observations were last settled. */
    ghost var mentions: map<string, seq<Change>>

    ghost predicate Valid()
      reads this
    {
      && MentionsOk(observations, mentions)
      && LogOk(log, revision, changed, subscriptionsChanged)
      && |channels| <= MAX_ENTRIES && |changed| <= MAX_ENTRIES && |sessions| <= MAX_ENTRIES + 1
      && |misses| <= MAX_ENTRIES && MissesOk(misses, missSince, revision)
      && |observations| <= maxObservations
    }

    constructor (maxObservations: nat)
      ensures Valid() && log == [] && revision == 0 && !overflowed && observations == map[]
    {
      this.maxObservations := maxObservations;
      channels, changed, sessions, observations, misses := map[], map[], map[], map[], map[];
      missSince, mentions := map[], map[];
      revision, subscriptionsChanged, overflowed, log := 0, 0, false, [];
    }

    ghost function Standing(): World
      reads this
    {
      World(log, revision, observations, overflowed, channels.Keys)
    }

    function Checkpoint(): nat
      reads this
    {
      revision
    }

    function Source(channel: string): string
      reads this`channels
    {
      if |channel| >= 4 && channel[..4] == "ios:" then channel[4..]
      else if channel in channels then channels[channel] else channel
    }

    predicate Current(channel: string, checkpoint: nat)
      reads this
    {
      Unchanged(Source(channel), checkpoint)
    }

    predicate Unchanged(serial: string, checkpoint: nat)
      reads this
    {
      && subscriptionsChanged <= checkpoint
      && (if serial in changed then changed[serial] else 0) <= checkpoint
    }

    /** The fence is sound and gives nothing up without a reason: a checkpoint holds if and only
        if neither the device nor everything was invalidated after it. */
    lemma CurrentIsExact(channel: string, checkpoint: nat)
      requires Valid()
      ensures Current(channel, checkpoint) <==> !InvalidatedSince(log, Source(channel), checkpoint)
    {
      UnchangedIsExact(Source(channel), checkpoint);
    }

    lemma UnchangedIsExact(serial: string, checkpoint: nat)
      requires Valid()
      ensures Unchanged(serial, checkpoint) <==> !InvalidatedSince(log, serial, checkpoint)
    {
      FenceIsExact(log, revision, changed, subscriptionsChanged, serial, checkpoint);
    }

    method ForgetMisses()
      requires Valid()
      modifies `misses, `missSince
      ensures misses == map[] && missSince == map[] && Valid()
    {
      hide LogOk, MentionsOk;
      misses, missSince := map[], map[];
    }

    /** Too many sessions: one is forgotten, and with it everything becomes doubtful. */
    method TrimSessions()
      requires Valid() && misses == map[] && missSince == map[]
      modifies `sessions, `revision, `subscriptionsChanged, `log
      ensures Submap(sessions, old(sessions))
      ensures Valid() && |sessions| <= MAX_ENTRIES
      ensures old(revision) <= revision && Grown(old(log), log, old(revision))
    {
      hide LogOk, MentionsOk, MissesOk, Grown, Submap;
      SameSessions();
      NothingGrown();
      if |sessions| > MAX_ENTRIES {
        var oldest :| oldest in sessions;
        OneForgotten(sessions, oldest);
        sessions := sessions - {oldest};
        LogEverything(old(revision), old(log), false);
        NoMisses(revision);
      }
    }

    lemma SameSessions()
      ensures Submap(sessions, sessions)
    {
    }

    method InvalidateAll()
      requires Valid()
      modifies `misses, `missSince, `sessions, `revision, `subscriptionsChanged, `log
      ensures Submap(sessions, old(sessions))
      ensures Valid() && old(revision) < revision && Grown(old(log), log, old(revision))
      ensures |sessions| <= MAX_ENTRIES && EverythingSince(log, old(revision))
      ensures Moved(old(Standing()), Standing())
    {
      hide LogOk, MentionsOk, MissesOk, InvalidatedSince, EverythingSince, Grown, Moved;
      ForgetMisses();
      TrimSessions();
      LogEverything(old(revision), old(log), true);
      MovedInLog(old(Standing()), Standing());
      NoMisses(revision);
    }

    method LogEverything(ghost since: nat, ghost before: seq<Entry>, ghost requested: bool)
      requires LogOk(log, revision, changed, subscriptionsChanged) && since <= revision && Grown(before, log, since)
      modifies `revision, `subscriptionsChanged, `log
      ensures LogOk(log, revision, changed, subscriptionsChanged) && revision == old(revision) + 1
      ensures Grown(before, log, since) && EverythingSince(log, since)
    {
      hide LogOk, MentionsOk, InvalidatedSince, EverythingSince, Grown;
      ghost var e := Entry(revision + 1, None, requested);
      EverythingLogged(log, revision, changed, subscriptionsChanged, changed, revision + 1, requested);
      GrownByOne(log, e, revision);
      GrownTwice(before, log, log + [e], since, revision);
      LoggedNow(log, e, since);
      revision := revision + 1;
      subscriptionsChanged := revision;
      log := log + [e];
    }

    lemma NothingGrown()
      ensures Grown(log, log, revision)
    {
    }

    method LogSerial(serial: string, ghost since: nat, ghost before: seq<Entry>)
      requires LogOk(log, revision, changed, subscriptionsChanged) && since <= revision && Grown(before, log, since)
      requires |changed| <= MAX_ENTRIES
      modifies `changed, `revision, `log
      ensures LogOk(log, revision, changed, subscriptionsChanged) && revision == old(revision) + 1
      ensures Grown(before, log, since) && InvalidatedSince(log, serial, since)
      ensures |changed| <= MAX_ENTRIES + 1
    {
      hide LogOk, MentionsOk, InvalidatedSince, EverythingSince, Grown;
      ghost var e := Entry(revision + 1, Some(serial), true);
      SerialLogged(log, revision, changed, subscriptionsChanged, serial);
      GrownByOne(log, e, revision);
      GrownTwice(before, log, log + [e], since, revision);
      LoggedNow(log, e, since);
      revision := revision + 1;
      changed := changed[serial := revision];
      log := log + [e];
    }

    /** More changed devices than fit: all are forgotten, and with them everything becomes doubtful. */
    method TrimChanged(ghost serial: string, ghost since: nat, ghost before: seq<Entry>)
      requires LogOk(log, revision, changed, subscriptionsChanged) && since < revision
      requires Grown(before, log, since) && InvalidatedSince(log, serial, since)
      modifies `changed, `subscriptionsChanged, `log
      ensures LogOk(log, revision, changed, subscriptionsChanged) && |changed| <= MAX_ENTRIES
      ensures Grown(before, log, since) && InvalidatedSince(log, serial, since)
    {
      hide LogOk, MentionsOk, InvalidatedSince, EverythingSince, Grown;
      if |changed| > MAX_ENTRIES {
        ghost var e := Entry(revision, None, false);
        EverythingLogged(log, revision, changed, subscriptionsChanged, map[], revision, false);
        GrownByOne(log, e, since);
        GrownTwice(before, log, log + [e], since, since);
        StillInvalidated(log, log + [e], since, serial, since, since);
        changed := map[];
        subscriptionsChanged := revision;
        log := log + [e];
      }
    }

    method LogChange(serial: string, ghost since: nat, ghost before: seq<Entry>)
      requires LogOk(log, revision, changed, subscriptionsChanged) && since <= revision && Grown(before, log, since)
      requires |changed| <= MAX_ENTRIES
      modifies `changed, `revision, `subscriptionsChanged, `log
      ensures LogOk(log, revision, changed, subscriptionsChanged) && old(revision) < revision
      ensures |changed| <= MAX_ENTRIES
      ensures Grown(before, log, since) && InvalidatedSince(log, serial, since)
    {
      hide LogOk, MentionsOk, InvalidatedSince, EverythingSince, Grown;
      LogSerial(serial, since, before);
      TrimChanged(serial, since, before);
    }

    method Invalidate(serial: string)
      requires Valid()
      modifies `misses, `missSince, `sessions, `changed, `revision, `subscriptionsChanged, `log
      ensures Submap(sessions, old(sessions))
      ensures Valid() && old(revision) < revision && Grown(old(log), log, old(revision))
      ensures InvalidatedSince(log, serial, old(revision))
      ensures |sessions| <= MAX_ENTRIES
      ensures Moved(old(Standing()), Standing())
    {
      hide LogOk, MentionsOk, MissesOk, InvalidatedSince, EverythingSince, Grown, Moved, Submap;
      ForgetMisses();
      TrimSessions();
      LogChange(serial, old(revision), old(log));
      MovedInLog(old(Standing()), Standing());
      NoMisses(revision);
    }

    // ---------------------------------------------------------------- channels

    /** The serial of a channel; forgetting another channel makes everything doubtful. */
    method Remember(channel: string, serial: string)
      requires Valid()
      modifies `channels, `misses, `missSince, `sessions, `revision, `subscriptionsChanged, `log
      ensures Submap(sessions, old(sessions))
      ensures |old(sessions)| <= MAX_ENTRIES ==> |sessions| <= MAX_ENTRIES
      ensures Valid() && old(revision) <= revision && Grown(old(log), log, old(revision))
      ensures
        || (channels == old(channels)[channel := serial] && revision == old(revision) && log == old(log))
        || (channels.Keys < old(channels).Keys + {channel} && EverythingSince(log, old(revision)))
      ensures OnlyAdds(old(channels), channels, Some(channel), serial) && channel in channels
      ensures channels[channel] == serial
    {
      hide LogOk, MentionsOk, MissesOk, InvalidatedSince, EverythingSince, Grown, OnlyAdds, Moved;
      NothingGrown();
      AddsOne(channels, channel, serial);
      channels := channels[channel := serial];
      if |channels| > MAX_ENTRIES {
        AnotherKey(channels, channel);
        var oldest :| oldest in channels && oldest != channel;
        OneFewer(channels, oldest);
        FewerChannels(old(channels), channel, serial, oldest);
        channels := channels - {oldest};
        InvalidateAll();
      }
    }

    /** A stored miss still counts only while nothing at all was invalidated since its read began. */
    predicate Missed(channel: string, groups: set<string>, now: int)
      reads this`misses
    {
      channel in misses && misses[channel].until > now && misses[channel].groups == groups
    }

    lemma MissIsCurrent(channel: string, groups: set<string>, now: int)
      requires Valid() && Missed(channel, groups, now)
      ensures channel in missSince && missSince[channel] == revision
      ensures now < misses[channel].until && misses[channel].groups == groups
    {
    }

    method StoreMiss(channel: string, miss: Miss)
      requires Valid()
      modifies `misses, `missSince
      ensures Valid() && channel in misses && misses[channel] == miss
    {
      hide LogOk, MentionsOk;
      misses, missSince := misses[channel := miss], missSince[channel := revision];
      if |misses| > MAX_ENTRIES {
        AnotherKey(misses, channel);
        var oldest :| oldest in misses && oldest != channel;
        OneFewer(misses, oldest);
        misses := misses - {oldest};
      }
    }

    /** The read that resolves an unknown channel has come back. */
    method ResolveCompletes(channel: string, groups: set<string>, started: nat, device: Option<Device>, now: int)
      returns (serial: Option<string>)
      requires Valid() && started <= revision
      modifies `channels, `misses, `missSince, `sessions, `revision, `subscriptionsChanged, `log
      ensures Valid() && old(revision) <= revision && Grown(old(log), log, old(revision))
      ensures serial.Some? <==> device.Some? && device.value.channel == Some(channel)
      ensures serial.Some? ==> serial.value == device.value.serial
      ensures serial.None? && started < old(revision) ==> misses == old(misses)
      ensures serial.None? && started == old(revision) ==> channel in misses && misses[channel] == Miss(now + 250, groups)
      ensures serial.None? ==> channels == old(channels)
      ensures serial.Some? ==> OnlyAdds(old(channels), channels, Some(channel), serial.value)
      ensures |old(sessions)| <= MAX_ENTRIES ==> |sessions| <= MAX_ENTRIES
      ensures Moved(old(Standing()), Standing())
      ensures serial.Some? ==> channel in channels && channels[channel] == serial.value
    {
      hide LogOk, MentionsOk, MissesOk, InvalidatedSince, EverythingSince, Grown, OnlyAdds, Moved;
      NothingGrown();
      if device.Some? && device.value.channel == Some(channel) {
        Remember(channel, device.value.serial);
        MovedBy(old(Standing()), Standing(), device.value.serial);
        return Some(device.value.serial);
      }
      if started == revision {
        StoreMiss(channel, Miss(now + 250, groups));
      }
      MovedInLog(old(Standing()), Standing());
      return None;
    }

    // ---------------------------------------------------------------- observations

    /** The channel a notification gives a device, if it gives one. */
    static function NewChannel(change: Change): Option<string> {
      if change.channel.Some? then Known(change.channel.value) else None
    }

    method Update(serial: string, change: Change)
      requires Valid()
      modifies this
      ensures Valid() && Grown(old(log), log, old(revision)) && old(revision) < revision && |sessions| <= MAX_ENTRIES
      ensures Submap(sessions, old(sessions))
      ensures InvalidatedSince(log, serial, old(revision))
      ensures Noted(serial, change, old(observations), old(mentions), old(overflowed), old(revision))
      ensures OnlyAdds(old(channels), channels, NewChannel(change), serial)
      ensures NewChannel(change).Some? && !overflowed ==>
        NewChannel(change).value in channels && channels[NewChannel(change).value] == serial
      ensures Moved(old(Standing()), Standing())
    {
      hide LogOk, MissesOk, InvalidatedSince, EverythingSince, Grown, Merge, OnlyAdds, Moved, Says, MentionsOk;
      Invalidate(serial);
      ghost var since, logged := revision, log;
      Observe(serial, change);
      GrownTwice(old(log), logged, log, old(revision), since);
      StillInvalidated(logged, log, since, serial, old(revision), old(revision));
      NothingGrown();
      StillInvalidated(log, log, revision, serial, since, old(revision));
      MovedBy(old(Standing()), Standing(), serial);
    }

    /** The change is in the observations; or the device was not observed and there was no room, and nothing counts
        any more. */
    ghost predicate Noted(serial: string, change: Change, observed: map<string, Change>, said: map<string, seq<Change>>,
                          wasOverflowed: bool, since: nat)
      reads this
    {
      if serial in observed || |observed| < maxObservations then
        && observations.Keys == observed.Keys + {serial} && overflowed == wasOverflowed
        && Says(observations[serial], if serial in observed then observed[serial] else NO_CHANGE, change)
        && (forall s | s in observed && s != serial :: observations[s] == observed[s])
        && mentions == said[serial := SaidOf(said, serial) + [change]]
      else
        overflowed && observations == observed && mentions == said && EverythingSince(log, since)
    }

    /** One more change is said of a device. */
    method Mention(serial: string, change: Change)
      requires Valid() && (serial in observations || |observations| < maxObservations)
      modifies `observations, `mentions
      ensures Valid() && observations.Keys == old(observations).Keys + {serial}
      ensures Says(observations[serial], if serial in old(observations) then old(observations)[serial] else NO_CHANGE, change)
      ensures forall s | s in old(observations) && s != serial :: observations[s] == old(observations)[s]
      ensures mentions == old(mentions)[serial := SaidOf(old(mentions), serial) + [change]]
    {
      hide LogOk, MissesOk, Merge, Says, MentionsOk, Recalls;
      ghost var before := if serial in observations then observations[serial] else NO_CHANGE;
      MergeSays(before, change);
      MentionsMore(observations, mentions, serial, Merge(before, change), change);
      observations := observations[serial := Merge(if serial in observations then observations[serial] else NO_CHANGE, change)];
      mentions := mentions[serial := SaidOf(mentions, serial) + [change]];
    }

    /** The channel a notification gives its device is remembered. */
    method Announce(serial: string, channel: Option<string>)
      requires Valid() && |sessions| <= MAX_ENTRIES
      modifies `channels, `misses, `missSince, `sessions, `revision, `subscriptionsChanged, `log
      ensures Valid() && Grown(old(log), log, old(revision)) && old(revision) <= revision && |sessions| <= MAX_ENTRIES
      ensures Submap(sessions, old(sessions)) && OnlyAdds(old(channels), channels, channel, serial)
      ensures channel.Some? ==> channel.value in channels && channels[channel.value] == serial
      ensures old(channels).Keys <= channels.Keys || EverythingSince(log, old(revision))
    {
      hide LogOk, MissesOk, InvalidatedSince, EverythingSince, Grown, OnlyAdds, MentionsOk, Submap;
      AddsNothing(channels, channel, serial);
      NothingLess(sessions);
      NothingGrown();
      if channel.Some? {
        Remember(channel.value, serial);
      }
    }

    method Observe(serial: string, change: Change)
      requires Valid() && |sessions| <= MAX_ENTRIES
      modifies this
      ensures Valid() && Grown(old(log), log, old(revision)) && old(revision) <= revision && |sessions| <= MAX_ENTRIES
      ensures Submap(sessions, old(sessions))
      ensures Noted(serial, change, old(observations), old(mentions), old(overflowed), old(revision))
      ensures OnlyAdds(old(channels), channels, NewChannel(change), serial)
      ensures NewChannel(change).Some? && !overflowed ==>
        NewChannel(change).value in channels && channels[NewChannel(change).value] == serial
      ensures old(channels).Keys <= channels.Keys || EverythingSince(log, old(revision))
    {
      hide LogOk, MissesOk, InvalidatedSince, EverythingSince, Grown, OnlyAdds, Says, MentionsOk, Recalls, Submap,
        Moved;
      AddsNothing(channels, NewChannel(change), serial);
      NothingLess(sessions);
      if serial !in observations && |observations| >= maxObservations {
        overflowed := true;
        InvalidateAll();
      } else {
        Mention(serial, change);
        Announce(serial, NewChannel(change));
      }
    }

    // ---------------------------------------------------------------- sessions

    /** Whichever channel leads to the device, it is in the session of this number. */
    ghost predicate InSession(serial: string, number: nat)
      reads this
    {
      forall c | Source(c) == serial :: Session(c) == number
    }

    method Joined(serial: string, usage: Option<string>, owner: Option<Owner>)
      requires Valid() && |sessions| <= MAX_ENTRIES
      modifies this
      ensures Valid() && |sessions| <= MAX_ENTRIES
      ensures Grown(old(log), log, old(revision)) && InvalidatedSince(log, serial, old(revision))
      ensures serial in sessions ==> sessions[serial] == old(revision) + 1 && InSession(serial, old(revision) + 1)
      ensures Noted(serial, NO_CHANGE.(usage := Some(Known(usage)), owner := if owner.Some? then Some(owner) else None),
                    old(observations), old(mentions), old(overflowed), old(revision))
      ensures Moved(old(Standing()), Standing()) && OnlyAdds(old(channels), channels, None, serial)
    {
      hide LogOk, MentionsOk, MissesOk, InvalidatedSince, EverythingSince, Grown, Moved, OnlyAdds, Noted;
      sessions := sessions[serial := revision + 1];
      Update(serial, NO_CHANGE.(usage := Some(Known(usage)), owner := if owner.Some? then Some(owner) else None));
    }

    method Released(serial: string)
      requires Valid() && |sessions| <= MAX_ENTRIES
      modifies this
      ensures Valid() && |sessions| <= MAX_ENTRIES
      ensures Grown(old(log), log, old(revision)) && InvalidatedSince(log, serial, old(revision))
      ensures serial in sessions ==> sessions[serial] == old(revision) + 1 && InSession(serial, old(revision) + 1)
      ensures Noted(serial, NO_CHANGE.(usage := Some(None), owner := Some(None)), old(observations), old(mentions),
                    old(overflowed), old(revision))
      ensures Moved(old(Standing()), Standing()) && OnlyAdds(old(channels), channels, None, serial)
    {
      hide LogOk, MentionsOk, MissesOk, InvalidatedSince, EverythingSince, Grown, Moved, OnlyAdds, Noted;
      sessions := sessions[serial := revision + 1];
      Update(serial, NO_CHANGE.(usage := Some(None), owner := Some(None)));
    }

    function Session(channel: string): nat
      reads this
    {
      if Source(channel) in sessions then sessions[Source(channel)] else 0
    }

    // ---------------------------------------------------------------- rows

    /** Nothing was said of a device without observation; otherwise the observation tells. */
    lemma RowAgreesIff(device: Device)
      requires Valid()
      ensures device.serial in observations <==> device.serial in mentions
      ensures device.serial !in observations ==> Agrees(device, SaidOf(mentions, device.serial))
      ensures device.serial in observations ==>
        (CaughtUp(device, observations[device.serial]) <==> Agrees(device, SaidOf(mentions, device.serial)))
    {
      hide LogOk, MissesOk, CaughtUp, Agrees, Recalls;
      if device.serial in observations {
        CaughtUpMeansAgrees(device, observations[device.serial], mentions[device.serial]);
      } else {
        NothingSaid(device);
      }
    }

    /** What a database row is worth. A row that does not show what was observed is not ready; one
        that does settles the observation, but no read made before counts any more. */
    method Snapshot(device: Device) returns (seen: Device)
      requires Valid()
      modifies `observations, `mentions, `misses, `missSince, `sessions, `changed, `revision, `subscriptionsChanged,
        `log
      ensures Valid() && old(revision) <= revision && Grown(old(log), log, old(revision))
      ensures |old(sessions)| <= MAX_ENTRIES ==> |sessions| <= MAX_ENTRIES
      ensures seen == device || seen == device.(ready := false)
      // A row is ready only if it agrees with everything that was said of its device since it was last settled ...
      ensures seen == if !overflowed && Agrees(device, SaidOf(old(mentions), device.serial)) then device
                      else device.(ready := false)
      ensures seen.ready ==> !overflowed && device.serial !in observations
      // ... and then nothing more is to be remembered, but what was read before has to be read again.
      ensures !overflowed && device.serial in old(mentions) && Agrees(device, old(mentions)[device.serial]) ==>
        && observations == old(observations) - {device.serial} && mentions == old(mentions) - {device.serial}
        && InvalidatedSince(log, device.serial, old(revision))
      ensures overflowed || device.serial !in old(mentions) || !Agrees(device, old(mentions)[device.serial]) ==>
        observations == old(observations) && mentions == old(mentions) && log == old(log) && revision == old(revision)
      ensures Moved(old(Standing()), Standing())
    {
      hide LogOk, MissesOk, InvalidatedSince, EverythingSince, Grown, CaughtUp, Moved, MentionsOk, Agrees, Submap,
        Recalls;
      NothingGrown();
      MovedBy(Standing(), Standing(), device.serial);
      RowAgreesIff(device);
      if overflowed {
        return device.(ready := false);
      }
      if device.serial !in observations {
        return device;
      }
      if !CaughtUp(device, observations[device.serial]) {
        return device.(ready := false);
      }
      OneFewer(observations, device.serial);
      MentionsLess(observations, mentions, device.serial);
      observations, mentions := observations - {device.serial}, mentions - {device.serial};
      Invalidate(device.serial);
      MovedBy(old(Standing()), Standing(), device.serial);
      return device;
    }
  }

  /** Whether a row lets a user of these groups use the device through this channel. */
  predicate Usable(device: Device, channel: string, groups: set<string>) {
    && device.channel == Some(channel) && device.present && device.ready
    && Known(device.group).Some? && device.group.value in groups
    && device.usage != Some("automation")
  }
}
