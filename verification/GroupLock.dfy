/** The lock in a group's row: two flags, set and cleared by atomic row updates, that any number of
    user and administrator requests compete for. */
module GroupLocks {

  datatype Holder = ByUser(request: nat) | ByAdmin(request: nat)

  /** The flags, and who was told that the lock is theirs. */
  datatype Lock = Lock(user: bool, admin: bool, holders: set<Holder>)

  const FREE := Lock(false, false, {})

  datatype Event = UserTries(request: nat) | UserReleases(request: nat) | AdminTries(request: nat) | AdminReleases(request: nat)

  /** Only who holds the lock releases it, and nobody asks again who holds it. */
  predicate May(l: Lock, e: Event) {
    match e
    case UserTries(r) => ByUser(r) !in l.holders
    case AdminTries(r) => ByAdmin(r) !in l.holders
    case UserReleases(r) => ByUser(r) in l.holders
    case AdminReleases(r) => ByAdmin(r) in l.holders
  }

  /** Whether the update reports to the request that it has the lock now. */
  predicate Acquires(l: Lock, e: Event) {
    match e
    case UserTries(_) => !l.admin && !l.user
    case AdminTries(_) => !l.user
    case UserReleases(_) => false
    case AdminReleases(_) => false
  }

  function Next(l: Lock, e: Event): Lock {
    match e
    case UserTries(r) => if Acquires(l, e) then l.(user := true, holders := l.holders + {ByUser(r)}) else l
    case UserReleases(r) => l.(user := false, holders := l.holders - {ByUser(r)})
    case AdminTries(r) => Lock(true, true, if Acquires(l, e) then l.holders + {ByAdmin(r)} else l.holders)
    case AdminReleases(r) => Lock(false, false, l.holders - {ByAdmin(r)})
  }

  /** `user` says exactly whether somebody holds the lock, and nobody holds it with somebody else. */
  ghost predicate Ok(l: Lock) {
    && |l.holders| <= 1
    && (l.user <==> l.holders != {})
    && (forall r | ByAdmin(r) in l.holders :: l.admin)
  }

  lemma NextIsOk(l: Lock, e: Event)
    requires Ok(l) && May(l, e)
    ensures Ok(Next(l, e))
  {
    if e.UserReleases? || e.AdminReleases? {
      var h := if e.UserReleases? then ByUser(e.request) else ByAdmin(e.request);
      OnlyOne(l.holders, h);
      assert l.holders - {h} == {};
    }
  }

  lemma OnlyOne(holders: set<Holder>, h: Holder)
    requires h in holders && |holders| <= 1
    ensures holders == {h}
  {
    var others := holders - {h};
    assert holders == others + {h} && |holders| == |others| + 1;
  }

  /** The state of the lock after the first events of a run. */
  function After(l: Lock, events: seq<Event>): Lock {
    if events == [] then l else Next(After(l, events[..|events| - 1]), events[|events| - 1])
  }

  predicate Legal(l: Lock, events: seq<Event>) {
    events == [] || (Legal(l, events[..|events| - 1]) && May(After(l, events[..|events| - 1]), events[|events| - 1]))
  }

  /** In every run at most one request holds the lock, and the flag says whether one does. */
  lemma {:induction false} NeverHeldTwice(events: seq<Event>)
    requires Legal(FREE, events)
    ensures Ok(After(FREE, events))
    ensures forall h, k | h in After(FREE, events).holders && k in After(FREE, events).holders :: h == k
  {
    if events != [] {
      NeverHeldTwice(events[..|events| - 1]);
      NextIsOk(After(FREE, events[..|events| - 1]), events[|events| - 1]);
    }
    forall h, k | h in After(FREE, events).holders && k in After(FREE, events).holders
      ensures h == k
    {
      OnlyOne(After(FREE, events).holders, h);
    }
  }

  /** The `k`-th event of a run gives the lock to a request. */
  predicate AcquiredAt(l: Lock, events: seq<Event>, k: nat)
    requires k < |events|
  {
    Acquires(After(l, events[..k]), events[k])
  }

  /** Once an administrator has asked, the mark stays until an administrator gives the lock back. */
  lemma {:induction false} MarkStays(l: Lock, events: seq<Event>)
    requires l.admin
    requires forall k | 0 <= k < |events| :: !events[k].AdminReleases?
    ensures After(l, events).admin
  {
    if events != [] {
      MarkStays(l, events[..|events| - 1]);
    }
  }

  /** So no user gets past an administrator: between the mark and a user's success, an administrator
      has had the lock and has given it back. */
  lemma NoUserOvertakes(l: Lock, events: seq<Event>, k: nat)
    requires l.admin && Ok(l) && Legal(l, events) && k < |events|
    requires events[k].UserTries? && AcquiredAt(l, events, k)
    ensures exists j :: 0 <= j < k && events[j].AdminReleases? && ByAdmin(events[j].request) in After(l, events[..j]).holders
  {
    if forall j | 0 <= j < k :: !events[j].AdminReleases? {
      MarkStays(l, events[..k]);
      assert false;
    }
    var j :| 0 <= j < k && events[j].AdminReleases?;
    LegalPrefix(l, events, j + 1);
    assert events[..j + 1][..j] == events[..j];
  }

  lemma {:induction false} LegalPrefix(l: Lock, events: seq<Event>, n: nat)
    requires Legal(l, events) && n <= |events|
    ensures Legal(l, events[..n])
  {
    if n < |events| {
      LegalPrefix(l, events[..|events| - 1], n);
      assert events[..|events| - 1][..n] == events[..n];
    } else {
      assert events[..n] == events;
    }
  }

  /** An administrator who found the lock taken gets it as soon as its holder lets go, whatever users do meanwhile. */
  lemma AdminIsNext(l: Lock, user: nat, admin: nat, tries: seq<Event>)
    requires Ok(l) && ByUser(user) in l.holders
    requires forall k | 0 <= k < |tries| :: tries[k].UserTries?
    ensures !Acquires(l, AdminTries(admin))
    ensures Acquires(After(Next(Next(l, AdminTries(admin)), UserReleases(user)), tries), AdminTries(admin))
  {
    OnlyOne(l.holders, ByUser(user));
    MarkedIgnoresUsers(Next(Next(l, AdminTries(admin)), UserReleases(user)), tries);
  }

  lemma {:induction false} MarkedIgnoresUsers(l: Lock, tries: seq<Event>)
    requires l.admin && forall k | 0 <= k < |tries| :: tries[k].UserTries?
    ensures After(l, tries) == l
  {
    if tries != [] {
      MarkedIgnoresUsers(l, tries[..|tries| - 1]);
    }
  }

  /** What a row update reports. */
  datatype Stats = Stats(replaced: bool, wasUser: bool, isAdmin: bool)

  class GroupRow {
    var user: bool
    var admin: bool
    ghost var holders: set<Holder>

    ghost function View(): Lock
      reads this
    {
      Lock(user, admin, holders)
    }

    constructor ()
      ensures View() == FREE
    {
      user, admin, holders := false, false, {};
    }

    /** One atomic update of the two flags; it counts as replaced only if it changed something. */
    method Update(user': bool, admin': bool) returns (stats: Stats)
      modifies `user, `admin
      ensures user == user' && admin == admin'
      ensures stats == Stats(user' != old(user) || admin' != old(admin), old(user), admin')
    {
      stats := Stats(user' != user || admin' != admin, user, admin');
      user, admin := user', admin';
    }

    method LockGroup(request: nat) returns (acquired: bool)
      requires Ok(View()) && May(View(), UserTries(request))
      modifies this
      ensures acquired <==> Acquires(old(View()), UserTries(request))
      ensures View() == Next(old(View()), UserTries(request)) && Ok(View())
    {
      NextIsOk(View(), UserTries(request));
      var stats := Update(if !admin && !user then true else user, admin);
      acquired := stats.replaced;
      if acquired {
        holders := holders + {ByUser(request)};
      }
    }

    method UnlockGroup(ghost request: nat)
      requires Ok(View()) && May(View(), UserReleases(request))
      modifies this
      ensures View() == Next(old(View()), UserReleases(request)) && Ok(View())
    {
      NextIsOk(View(), UserReleases(request));
      var _ := Update(false, admin);
      holders := holders - {ByUser(request)};
    }

    /** An administrator marks the row in any case, and has the lock if nobody had it before. */
    method AdminLockGroup(request: nat) returns (acquired: bool)
      requires Ok(View()) && May(View(), AdminTries(request))
      modifies this
      ensures acquired <==> Acquires(old(View()), AdminTries(request))
      ensures View() == Next(old(View()), AdminTries(request)) && Ok(View())
    {
      NextIsOk(View(), AdminTries(request));
      var stats := Update(true, true);
      acquired := stats.replaced && stats.isAdmin && !stats.wasUser;
      if acquired {
        holders := holders + {ByAdmin(request)};
      }
    }

    method AdminUnlockGroup(ghost request: nat)
      requires Ok(View()) && May(View(), AdminReleases(request))
      modifies this
      ensures View() == Next(old(View()), AdminReleases(request)) && Ok(View())
    {
      NextIsOk(View(), AdminReleases(request));
      var _ := Update(false, false);
      holders := holders - {ByAdmin(request)};
    }
  }
}
