/**
 User accounting objects of a domain. The last reference to a user is dropped without a lock and
 its cleanup follows later, under the domain lock; lookups may run in between. Every method is one
 atomic step. Objects carry an identity that is never reused.
 */
module Users {
  import opened Common
  import Connection
  import Lists
  import Queue
  import Quota

  /** Who holds a reference: a queued message, or anybody else. */
  datatype Holder = QueueEntry(entry: nat) | Other(n: nat)

  datatype User = User(uid: Option<nat>, id: nat, held: set<Holder>)

  /** A message charged to a user at a connection. */
  datatype Charge = Charge(user: nat, conn: nat)

  /** The uid table, the small ids in use (with their user), and the charged messages. */
  datatype Domain = Domain(users: map<nat, User>, idr: map<nat, nat>, ida: map<nat, nat>, entries: map<nat, Charge>)

  /** A user whose last reference is gone and whose cleanup is yet to come. */
  ghost predicate Dying(d: Domain, u: nat) {
    u in d.users && d.users[u].held == {}
  }

  ghost predicate SlotOk(d: Domain, uid: nat)
    requires uid in d.idr
  {
    d.idr[uid] in d.users && d.users[d.idr[uid]].uid == Some(uid)
  }

  /** A user has the slot of its uid, if it claims one, and a small id of its own. */
  ghost predicate UserOk(d: Domain, u: nat)
    requires u in d.users
  {
    var x := d.users[u];
    && (x.uid.Some? ==> x.uid.value in d.idr && d.idr[x.uid.value] == u)
    && x.id > 0 && x.id in d.ida && d.ida[x.id] == u
  }

  ghost predicate IdOk(d: Domain, id: nat)
    requires id in d.ida
  {
    d.ida[id] in d.users && d.users[d.ida[id]].id == id
  }

  /** A charged message holds a reference to its user. */
  ghost predicate ChargeOk(d: Domain, e: nat)
    requires e in d.entries
  {
    d.entries[e].user in d.users && QueueEntry(e) in d.users[d.entries[e].user].held
  }

  ghost predicate Sound(d: Domain) {
    && (forall uid {:trigger SlotOk(d, uid)} :: uid in d.idr ==> SlotOk(d, uid))
    && (forall u {:trigger UserOk(d, u)} :: u in d.users ==> UserOk(d, u))
    && (forall id {:trigger IdOk(d, id)} :: id in d.ida ==> IdOk(d, id))
    && (forall e {:trigger ChargeOk(d, e)} :: e in d.entries ==> ChargeOk(d, e))
  }

  /** A message is charged to a small id at a connection. */
  ghost predicate ChargedTo(d: Domain, e: nat, id: nat, conn: nat) {
    e in d.entries && d.entries[e].conn == conn && d.entries[e].user in d.users && d.users[d.entries[e].user].id == id
  }

  // ---------------------------------------------------------------- steps

  /** The user no longer claims its uid. */
  ghost function Forgotten(users: map<nat, User>, u: nat): map<nat, User> {
    if u in users then users[u := users[u].(uid := None)] else users
  }

  /** kdbus_user_lookup creates a user; a dying one gives up its slot. */
  ghost function Fresh(d: Domain, u: nat, uid: Option<nat>, id: nat, h: Holder): Domain {
    var users := if uid.Some? && uid.value in d.idr then Forgotten(d.users, d.idr[uid.value]) else d.users;
    d.(users := users[u := User(uid, id, {h})], ida := d.ida[id := u],
      idr := if uid.Some? then d.idr[uid.value := u] else d.idr)
  }

  lemma {:induction false} FreshSound(d: Domain, u: nat, uid: Option<nat>, id: nat, h: Holder)
    requires Sound(d) && u !in d.users && id > 0 && id !in d.ida
    ensures Sound(Fresh(d, u, uid, id, h))
  {
    var d' := Fresh(d, u, uid, id, h);
    assert uid.Some? && uid.value in d.idr ==> SlotOk(d, uid.value);
    forall x | x in d'.idr ensures SlotOk(d', x) {
      assert x in d.idr ==> SlotOk(d, x);
    }
    forall v | v in d'.users ensures UserOk(d', v) {
      assert v in d.users ==> UserOk(d, v);
    }
    forall i | i in d'.ida ensures IdOk(d', i) {
      assert i in d.ida ==> IdOk(d, i);
    }
    forall e | e in d'.entries ensures ChargeOk(d', e) {
      assert ChargeOk(d, e);
    }
  }

  /** A lookup that fails for want of a small id, after it took the slot of a dying user. */
  ghost function Vacated(d: Domain, uid: nat): Domain {
    d.(users := if uid in d.idr then Forgotten(d.users, d.idr[uid]) else d.users, idr := d.idr - {uid})
  }

  lemma {:induction false} VacatedSound(d: Domain, uid: nat)
    requires Sound(d)
    ensures Sound(Vacated(d, uid))
  {
    var d' := Vacated(d, uid);
    assert uid in d.idr ==> SlotOk(d, uid);
    forall x | x in d'.idr ensures SlotOk(d', x) {
      assert SlotOk(d, x);
    }
    forall v | v in d'.users ensures UserOk(d', v) {
      assert UserOk(d, v);
    }
    forall i | i in d'.ida ensures IdOk(d', i) {
      assert IdOk(d, i);
    }
    forall e | e in d'.entries ensures ChargeOk(d', e) {
      assert ChargeOk(d, e);
    }
  }

  /** The cleanup of __kdbus_user_free. */
  ghost function Cleaned(d: Domain, u: nat): Domain
    requires u in d.users
  {
    d.(users := d.users - {u}, ida := d.ida - {d.users[u].id},
      idr := if d.users[u].uid.Some? then d.idr - {d.users[u].uid.value} else d.idr)
  }

  /**
   A dying user's cleanup takes no slot from another user, and its id is free of charges at every
   connection when it is recycled.
   */
  lemma {:induction false} CleanedSound(d: Domain, u: nat)
    requires Sound(d) && Dying(d, u)
    ensures Sound(Cleaned(d, u)) && d.users[u].id !in Cleaned(d, u).ida
    ensures forall uid ::
      uid in d.idr && d.idr[uid] != u ==> uid in Cleaned(d, u).idr && Cleaned(d, u).idr[uid] == d.idr[uid]
    ensures forall e, c :: !ChargedTo(d, e, d.users[u].id, c)
  {
    var d' := Cleaned(d, u);
    assert UserOk(d, u);
    forall x | x in d'.idr ensures SlotOk(d', x) {
      assert SlotOk(d, x);
    }
    forall v | v in d'.users ensures UserOk(d', v) {
      assert UserOk(d, v);
    }
    forall i | i in d'.ida ensures IdOk(d', i) {
      assert IdOk(d, i);
    }
    forall e | e in d'.entries ensures ChargeOk(d', e) {
      assert ChargeOk(d, e);
    }
    forall e, c ensures !ChargedTo(d, e, d.users[u].id, c) {
      if e in d.entries && d.entries[e].user in d.users {
        assert ChargeOk(d, e) && UserOk(d, d.entries[e].user);
      }
    }
  }

  /** A small id that is not in use is not charged anywhere. */
  lemma {:induction false} FreeIdsUncharged(d: Domain, e: nat, id: nat, conn: nat)
    requires Sound(d) && id !in d.ida
    ensures !ChargedTo(d, e, id, conn)
  {
    if e in d.entries && d.entries[e].user in d.users {
      assert UserOk(d, d.entries[e].user);
    }
  }

  // ---------------------------------------------------------------- ids and quota arrays

  /** The live entries of connection c are charged messages. What the kernel sends itself has no user. */
  ghost predicate Recorded(d: Domain, c: nat, live: seq<Queue.Entry>) {
    forall x: Queue.Entry :: x in live ==> x.user == 0 || ChargedTo(d, x.id, x.user, c)
  }

  /** Whatever was recorded still is. */
  ghost predicate KeepsRecords(d: Domain, d': Domain) {
    forall c, live {:trigger Recorded(d', c, live)} :: Recorded(d, c, live) ==> Recorded(d', c, live)
  }

  lemma {:induction false} NoUsage(live: seq<Queue.Entry>, id: nat)
    requires forall k :: 0 <= k < |live| ==> live[k].user != id
    ensures Connection.Usage(live, id) == Quota.NOTHING
    decreases |live|
  {
    if live != [] {
      NoUsage(live[1..], id);
      NothingMore(Connection.Charge(live[0], id), Connection.Usage(live[1..], id));
    }
  }

  lemma NothingMore(a: Quota.Account, b: Quota.Account)
    requires a == Quota.NOTHING && b == Quota.NOTHING
    ensures Connection.Plus(a, b) == Quota.NOTHING
  {
    assert a.memory == 0 && a.msgs == 0 && a.fds == 0;
    assert Connection.Plus(a, b) == Quota.Account(0, 0, 0);
  }

  /** A small id that is not in use has an empty account in the quota array of every connection. */
  lemma {:induction false} FreeIdsEmpty(d: Domain, id: nat, c: nat, v: Connection.View, half: nat)
    requires Sound(d) && 0 < id && id !in d.ida && Connection.Sound(v, half) && Recorded(d, c, v.live)
    ensures Quota.At(v.quota, id) == Quota.NOTHING
  {
    forall x | x in v.live ensures x.user != id {
      FreeIdsUncharged(d, x.id, id, c);
    }
    NoUsage(v.live, id);
    assert Connection.BookOk(v.quota, v.live, id);
  }

  /** All accounts with that index are empty. */
  ghost predicate EmptyAt(d: Domain, id: nat) {
    forall c, v: Connection.View, half {:trigger Recorded(d, c, v.live), Connection.Sound(v, half)} ::
      Recorded(d, c, v.live) && Connection.Sound(v, half) ==> Quota.At(v.quota, id) == Quota.NOTHING
  }

  lemma {:induction false} AllEmpty(d: Domain, id: nat)
    requires Sound(d) && 0 < id && id !in d.ida
    ensures EmptyAt(d, id)
  {
    forall c, v: Connection.View, half | Recorded(d, c, v.live) && Connection.Sound(v, half)
      ensures Quota.At(v.quota, id) == Quota.NOTHING
    {
      FreeIdsEmpty(d, id, c, v, half);
    }
  }

  /** Users with charged messages keep their ids. */
  lemma {:induction false} RecordsKept(d: Domain, d': Domain)
    requires
      && d'.entries == d.entries
      && forall u :: u in d.users && !Uncharged(d, u) ==> u in d'.users && d'.users[u].id == d.users[u].id
    ensures KeepsRecords(d, d')
  {
    forall c, live | Recorded(d, c, live) ensures Recorded(d', c, live) {
      forall x: Queue.Entry | x in live && x.user != 0 ensures ChargedTo(d', x.id, x.user, c) {
        assert ChargedTo(d, x.id, x.user, c);
        assert !Uncharged(d, d.entries[x.id].user);
      }
    }
  }

  ghost predicate Uncharged(d: Domain, u: nat) {
    forall e :: e in d.entries ==> d.entries[e].user != u
  }

  lemma {:induction false} DyingUncharged(d: Domain, u: nat)
    requires Sound(d) && Dying(d, u)
    ensures Uncharged(d, u)
  {
    forall e | e in d.entries ensures d.entries[e].user != u {
      assert ChargeOk(d, e);
    }
  }

  /** The entry of a newly charged message joins those of its connection. */
  lemma {:induction false} RecordedWith(d: Domain, d': Domain, c: nat, live: seq<Queue.Entry>, x: Queue.Entry, u: nat)
    requires Recorded(d, c, live) && x.id !in d.entries && d'.entries == d.entries[x.id := Charge(u, c)]
    requires u in d'.users && d'.users[u].id == x.user
    requires forall v :: v in d.users ==> v in d'.users && d'.users[v].id == d.users[v].id
    ensures Recorded(d', c, live + [x])
  {
    forall y: Queue.Entry | y in live + [x] && y.user != 0 ensures ChargedTo(d', y.id, y.user, c) {
      assert y in live ==> ChargedTo(d, y.id, y.user, c);
    }
  }

  /** The entry of a freed message leaves them. */
  lemma {:induction false} RecordedWithout(d: Domain, d': Domain, c: nat, live: seq<Queue.Entry>, x: Queue.Entry)
    requires Recorded(d, c, live) && Queue.Distinct(live) && d'.entries == d.entries - {x.id}
    requires forall v :: v in d.users ==> v in d'.users && d'.users[v].id == d.users[v].id
    requires x in live
    ensures Recorded(d', c, Lists.Minus(live, x))
  {
    Connection.WithoutMembers(live, x);
    forall y: Queue.Entry | y in Lists.Minus(live, x) && y.user != 0 ensures ChargedTo(d', y.id, y.user, c) {
      assert ChargedTo(d, y.id, y.user, c);
      assert y in live && y != x;
    }
  }

  /** A takeover charges the message at another connection; nothing changes for third ones. */
  lemma {:induction false} RecordedMoved(
    d: Domain, d': Domain, src: nat, dst: nat, from: seq<Queue.Entry>, into: seq<Queue.Entry>, x: Queue.Entry, off: nat)
    requires Recorded(d, src, from) && Recorded(d, dst, into) && src != dst && Queue.Distinct(from) && x in from
    requires
      && x.user != 0 && d'.users == d.users && x.id in d.entries
      && d'.entries == d.entries[x.id := d.entries[x.id].(conn := dst)]
    ensures Recorded(d', src, Lists.Minus(from, x)) && Recorded(d', dst, into + [x.(off := off)])
    ensures forall c, live :: c != src && Recorded(d, c, live) ==> Recorded(d', c, live)
  {
    assert ChargedTo(d, x.id, x.user, src);
    Connection.WithoutMembers(from, x);
    forall y: Queue.Entry | y in Lists.Minus(from, x) && y.user != 0 ensures ChargedTo(d', y.id, y.user, src) {
      assert ChargedTo(d, y.id, y.user, src) && y in from && y != x;
    }
    forall c, live | c != src && Recorded(d, c, live) ensures Recorded(d', c, live) {
      forall y: Queue.Entry | y in live && y.user != 0 ensures ChargedTo(d', y.id, y.user, c) {
        assert ChargedTo(d, y.id, y.user, c);
      }
    }
    assert Recorded(d', dst, into);
  }

  // ---------------------------------------------------------------- references

  /** Users that are alive or dying never share an id, nor do two users share a uid. */
  lemma {:induction false} UsersDistinct(d: Domain, u: nat, v: nat)
    requires Sound(d) && u in d.users && v in d.users && u != v
    ensures d.users[u].id != d.users[v].id && (d.users[u].uid.Some? ==> d.users[u].uid != d.users[v].uid)
  {
    assert UserOk(d, u) && UserOk(d, v);
  }

  /** A reference is taken or dropped. */
  ghost function Holding(d: Domain, u: nat, held: set<Holder>): Domain
    requires u in d.users
  {
    d.(users := d.users[u := d.users[u].(held := held)])
  }

  lemma {:induction false} HoldingSound(d: Domain, u: nat, held: set<Holder>, entries: map<nat, Charge>)
    requires Sound(d) && u in d.users
    requires forall e ::
      e in entries ==>
        if entries[e].user == u then QueueEntry(e) in held else e in d.entries && entries[e] == d.entries[e]
    ensures Sound(Holding(d, u, held).(entries := entries))
  {
    var d' := Holding(d, u, held).(entries := entries);
    forall x | x in d'.idr ensures SlotOk(d', x) {
      assert SlotOk(d, x);
    }
    forall v | v in d'.users ensures UserOk(d', v) {
      assert UserOk(d, v);
    }
    forall i | i in d'.ida ensures IdOk(d', i) {
      assert IdOk(d, i);
    }
    forall e | e in d'.entries ensures ChargeOk(d', e) {
      assert e in d.entries ==> ChargeOk(d, e);
    }
  }

  lemma {:induction false} ChargedSound(d: Domain, u: nat, e: nat, c: nat)
    requires Sound(d) && u in d.users && e !in d.entries
    ensures Sound(Holding(d, u, d.users[u].held + {QueueEntry(e)}).(entries := d.entries[e := Charge(u, c)]))
  {
    var held, now := d.users[u].held + {QueueEntry(e)}, d.entries[e := Charge(u, c)];
    forall x | x in now
      ensures if now[x].user == u then QueueEntry(x) in held else x in d.entries && now[x] == d.entries[x]
    {
      assert x != e ==> ChargeOk(d, x);
    }
    HoldingSound(d, u, held, now);
  }

  lemma {:induction false} DischargedSound(d: Domain, e: nat)
    requires Sound(d) && e in d.entries
    ensures d.entries[e].user in d.users
    ensures var u := d.entries[e].user;
      Sound(Holding(d, u, d.users[u].held - {QueueEntry(e)}).(entries := d.entries - {e}))
  {
    assert ChargeOk(d, e);
    var u := d.entries[e].user;
    var held, now := d.users[u].held - {QueueEntry(e)}, d.entries - {e};
    forall x | x in now
      ensures if now[x].user == u then QueueEntry(x) in held else x in d.entries && now[x] == d.entries[x]
    {
      assert ChargeOk(d, x);
    }
    HoldingSound(d, u, held, now);
  }

  lemma {:induction false} RehomedSound(d: Domain, e: nat, c: nat)
    requires Sound(d) && e in d.entries
    ensures Sound(d.(entries := d.entries[e := d.entries[e].(conn := c)]))
  {
    assert ChargeOk(d, e);
    var u, now := d.entries[e].user, d.entries[e := d.entries[e].(conn := c)];
    forall x | x in now && now[x].user == u ensures QueueEntry(x) in d.users[u].held {
      assert ChargeOk(d, x);
    }
    HoldingSound(d, u, d.users[u].held, now);
    assert d.users[u := d.users[u].(held := d.users[u].held)] == d.users;
  }

  class UserTable {
    var users: map<nat, User>
    var idr: map<nat, nat>
    var ida: map<nat, nat>
    var entries: map<nat, Charge>
    var nextUser: nat

    ghost function Now(): Domain
      reads this
    {
      Domain(users, idr, ida, entries)
    }

    ghost predicate Valid()
      reads this
    {
      Sound(Now()) && forall u :: u in users ==> u < nextUser
    }

    constructor ()
      ensures Valid() && users == map[] && idr == map[] && ida == map[]
    {
      users, idr, ida, entries, nextUser := map[], map[], map[], map[], 0;
    }

    /** ida_simple_get: the smallest id from 1 on that is not in use. */
    method SmallestId() returns (id: nat)
      ensures id > 0 && id !in ida && forall i :: 0 < i < id ==> i in ida
    {
      id := 1;
      ghost var seen: set<nat> := {};
      while id in ida
        invariant
          && id > 0 && (forall i :: 0 < i < id ==> i in ida) && seen <= ida.Keys
          && (forall i :: i in seen ==> 0 < i < id)
        decreases ida.Keys - seen
      {
        assert id !in seen;
        seen := seen + {id};
        id := id + 1;
      }
    }

    /**
     kdbus_user_lookup, for a uid or for an anonymous user. A live user is shared; one that is
     about to be destroyed is replaced. `oom` fails the allocation of the object, `idrFull` that of
     a new slot, `idaFull` that of the small id.
     */
    method Lookup(uid: Option<nat>, h: Holder, oom: bool, idrFull: bool, idaFull: bool) returns (r: Option<nat>)
      requires Valid() && h.Other?
      modifies this
      ensures Valid() && entries == old(entries) && KeepsRecords(old(Now()), Now())
      ensures r.Some? && !Shared(old(Now()), uid) ==> r.value in users && EmptyAt(old(Now()), users[r.value].id)
      ensures r.Some? ==> r.value in users && h in users[r.value].held && users[r.value].uid == uid
      ensures Shared(old(Now()), uid) ==> r == Some(old(idr)[uid.value]) && SharedBy(old(Now()), Now(), r.value, h)
      ensures !Shared(old(Now()), uid) && r.Some? ==>
        && Now() == Fresh(old(Now()), r.value, uid, users[r.value].id, h) && r.value !in old(users)
        && users[r.value].id !in old(ida)
      ensures forall v ::
        v in old(users) && !Dying(old(Now()), v) ==>
          v in users && users[v].uid == old(users)[v].uid && users[v].id == old(users)[v].id
      ensures r.None? ==>
        (oom || idrFull || idaFull) && (Now() == old(Now()) || (uid.Some? && Now() == Vacated(old(Now()), uid.value)))
      ensures r.Some? ==>
        (r.value in old(users) <==>
         && uid.Some? && uid.value in old(idr) && old(idr)[uid.value] in old(users)
         && old(users)[old(idr)[uid.value]].held != {})
      ensures r.None? <==>
        && (oom || idaFull || (idrFull && uid.Some? && uid.value !in old(idr)))
        && (uid.Some? && uid.value in old(idr) && old(idr)[uid.value] in old(users) ==>
              old(users)[old(idr)[uid.value]].held == {})
      ensures r.Some? && uid.Some? ==> uid.value in idr && idr[uid.value] == r.value
      ensures r.Some? && r.value in users && r.value !in old(users) ==>
        && users[r.value].held == {h} && users[r.value].id > 0 && users[r.value].id !in old(ida)
        && forall i :: 0 < i < users[r.value].id ==> i in old(ida)
    {
      r := None;
      var stale: Option<nat> := None;
      if uid.Some? && uid.value in idr {
        assert SlotOk(Now(), uid.value);
        stale := Some(idr[uid.value]);
        if users[stale.value].held != {} {
          Take(stale.value, h);
          return stale;
        }
      }
      if oom {
        return;
      }
      if uid.Some? && stale.None? && idrFull {
        return;
      }
      var u := nextUser;
      var id := SmallestId();
      if idaFull {
        if uid.Some? {
          VacatedSound(Now(), uid.value);
          RecordsKept(Now(), Vacated(Now(), uid.value));
          if stale.Some? {
            users := users[stale.value := users[stale.value].(uid := None)];
          }
          idr := idr - {uid.value};
        }
        return;
      }
      FreshSound(Now(), u, uid, id, h);
      AllEmpty(Now(), id);
      RecordsKept(Now(), Fresh(Now(), u, uid, id, h));
      if uid.Some? {
        if stale.Some? {
          users := users[stale.value := users[stale.value].(uid := None)];
        }
        idr := idr[uid.value := u];
      }
      ida, users, nextUser := ida[id := u], users[u := User(uid, id, {h})], nextUser + 1;
      return Some(u);
    }

    /** kdbus_user_ref. */
    method Take(u: nat, h: Holder)
      requires Valid() && u in users && h.Other?
      modifies this`users
      ensures Valid() && u in old(users) && Now() == Holding(old(Now()), u, old(users)[u].held + {h})
      ensures users == old(users)[u := old(users)[u].(held := old(users)[u].held + {h})]
      ensures KeepsRecords(old(Now()), Now())
    {
      RecordsKept(Now(), Holding(Now(), u, users[u].held + {h}));
      KeepsCharges(Now(), u, users[u].held + {h});
      HoldingSound(Now(), u, users[u].held + {h}, entries);
      users := users[u := users[u].(held := users[u].held + {h})];
    }

    /** kdbus_user_unref by anybody but a queued message; the last one makes the user a dying one. */
    method Drop(u: nat, h: Holder)
      requires Valid() && u in users && h.Other? && h in users[u].held
      modifies this`users
      ensures Valid() && u in old(users) && Now() == Holding(old(Now()), u, old(users)[u].held - {h})
      ensures users == old(users)[u := old(users)[u].(held := old(users)[u].held - {h})]
      ensures KeepsRecords(old(Now()), Now())
    {
      RecordsKept(Now(), Holding(Now(), u, users[u].held - {h}));
      KeepsCharges(Now(), u, users[u].held - {h});
      HoldingSound(Now(), u, users[u].held - {h}, entries);
      users := users[u := users[u].(held := users[u].held - {h})];
    }

    /** A message is charged to a user its sender holds, and takes a reference. */
    method Enqueue(e: nat, u: nat, conn: nat)
      requires Valid() && u in users && users[u].held != {} && e !in entries
      modifies this`users, this`entries
      ensures Valid() && u in old(users)
      ensures Now() ==
        Holding(old(Now()), u, old(users)[u].held + {QueueEntry(e)}).(entries := old(entries)[e := Charge(u, conn)])
      ensures entries == old(entries)[e := Charge(u, conn)] && u in users && QueueEntry(e) in users[u].held
    {
      ChargedSound(Now(), u, e, conn);
      users := users[u := users[u].(held := users[u].held + {QueueEntry(e)})];
      entries := entries[e := Charge(u, conn)];
    }

    /** The message is freed: its charge is given back before its reference is dropped. */
    method Dequeue(e: nat)
      requires Valid() && e in entries
      modifies this`users, this`entries
      ensures Valid() && old(entries)[e].user in old(users)
      ensures var u := old(entries)[e].user;
        && Now() == Holding(old(Now()), u, old(users)[u].held - {QueueEntry(e)}).(entries := old(entries) - {e})
        && users == old(users)[u := old(users)[u].(held := old(users)[u].held - {QueueEntry(e)})]
        && entries == old(entries) - {e}
    {
      DischargedSound(Now(), e);
      var u := entries[e].user;
      users, entries := users[u := users[u].(held := users[u].held - {QueueEntry(e)})], entries - {e};
    }

    /** A takeover: the message is charged to the same user, at another connection. */
    method Rehome(e: nat, conn: nat)
      requires Valid() && e in entries
      modifies this`entries
      ensures Valid() && Now() == old(Now()).(entries := old(entries)[e := old(entries)[e].(conn := conn)])
    {
      RehomedSound(Now(), e, conn);
      entries := entries[e := entries[e].(conn := conn)];
    }

    /** __kdbus_user_free, at any time after the last reference was dropped. */
    method Cleanup(u: nat)
      requires Valid() && Dying(Now(), u)
      modifies this
      ensures Valid() && u in old(users) && Now() == Cleaned(old(Now()), u) && KeepsRecords(old(Now()), Now())
      ensures forall e, c :: !ChargedTo(old(Now()), e, old(users)[u].id, c)
      ensures users == old(users) - {u} && ida == old(ida) - {old(users)[u].id}
      ensures forall x :: x in old(idr) && x !in idr ==> old(users)[u].uid == Some(x)
    {
      CleanedSound(Now(), u);
      DyingUncharged(Now(), u);
      RecordsKept(Now(), Cleaned(Now(), u));
      var x := users[u];
      ida := ida - {x.id};
      if x.uid.Some? {
        idr := idr - {x.uid.value};
      }
      users := users - {u};
    }
  }

  /** A live user has the uid. */
  ghost predicate Shared(d: Domain, uid: Option<nat>) {
    uid.Some? && uid.value in d.idr && !Dying(d, d.idr[uid.value])
  }

  ghost predicate SharedBy(d: Domain, d': Domain, u: nat, h: Holder) {
    u in d.users && d' == Holding(d, u, d.users[u].held + {h})
  }

  lemma {:induction false} KeepsCharges(d: Domain, u: nat, held: set<Holder>)
    requires Sound(d) && u in d.users && forall e :: QueueEntry(e) in d.users[u].held ==> QueueEntry(e) in held
    ensures forall e :: e in d.entries && d.entries[e].user == u ==> QueueEntry(e) in held
  {
    forall e | e in d.entries && d.entries[e].user == u ensures QueueEntry(e) in held {
      assert ChargeOk(d, e);
    }
  }
}
