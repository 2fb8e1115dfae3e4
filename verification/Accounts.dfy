/**
 One domain with all its connections: the user table of module Users and the incoming queues of
 module Connection, over every run of their operations. A step of a connection is any that its
 methods are proved to make, which keep its books sound.
 */
module Accounts {
  import opened Common
  import Connection
  import Lists
  import Queue
  import Quota
  import Users

  /** The users, and for each connection its books and half the size of its pool. */
  datatype World = World(d: Users.Domain, conns: map<nat, Connection.View>, halves: map<nat, nat>)

  const START := World(Users.Domain(map[], map[], map[], map[]), map[], map[])

  datatype Act =
    | Create(u: nat, uid: Option<nat>, id: nat, h: Users.Holder)
    | Vacate(slot: nat)
    | Hold(u: nat, held: set<Users.Holder>)
    | Clean(u: nat)
    | Join(c: nat, half: nat)
    | Part(c: nat)
    | Change(c: nat, v: Connection.View)                                 // queue, receive, publish, return a slice
    | Store(c: nat, v: Connection.View, e: Queue.Entry, u: nat)          // charge a message to user u
    | Notify(c: nat, v: Connection.View, e: Queue.Entry)                 // one of the kernel itself
    | Remove(c: nat, v: Connection.View, e: Queue.Entry)
    | Move(c: nat, v: Connection.View, e: Queue.Entry, dst: nat, into: Connection.View, off: nat)

  // ---------------------------------------------------------------- steps

  ghost predicate ConnOk(w: World, c: nat)
    requires c in w.conns
  {
    && c in w.halves && Connection.Sound(w.conns[c], w.halves[c]) && Users.Recorded(w.d, c, w.conns[c].live)
  }

  ghost predicate Inv(w: World) {
    (Users.Sound(w.d) && forall c {:trigger ConnOk(w, c)} :: c in w.conns ==> ConnOk(w, c)) == true
  }

  /** The charge of a message is taken or given back together with its reference. */
  ghost function Charged(d: Users.Domain, u: nat, e: nat, c: nat): Users.Domain
    requires u in d.users
  {
    Users.Holding(d, u, d.users[u].held + {Users.QueueEntry(e)}).(entries := d.entries[e := Users.Charge(u, c)])
  }

  ghost function Discharged(d: Users.Domain, e: nat): Users.Domain {
    if e in d.entries && d.entries[e].user in d.users then
      var u := d.entries[e].user;
      Users.Holding(d, u, d.users[u].held - {Users.QueueEntry(e)}).(entries := d.entries - {e})
    else d
  }

  ghost function Rehomed(d: Users.Domain, e: nat, c: nat): Users.Domain {
    if e in d.entries then d.(entries := d.entries[e := d.entries[e].(conn := c)]) else d
  }

  ghost predicate Enabled(w: World, a: Act) {
    match a
    case Create(u, uid, id, h) => u !in w.d.users && id > 0 && id !in w.d.ida
    case Vacate(uid) => true
    case Hold(u, held) =>
      && u in w.d.users
      && forall e :: e in w.d.entries && w.d.entries[e].user == u ==> Users.QueueEntry(e) in held
    case Clean(u) => Users.Dying(w.d, u)
    case Join(c, half) => c !in w.conns
    case Part(c) => c in w.conns
    case Change(c, v) => Takes(w, c, v) && v.live == w.conns[c].live
    case Store(c, v, e, u) =>
      && Takes(w, c, v) && v.live == w.conns[c].live + [e] && u in w.d.users && w.d.users[u].id == e.user
      && e.id !in w.d.entries
    case Notify(c, v, e) => Takes(w, c, v) && v.live == w.conns[c].live + [e] && e.user == 0
    case Remove(c, v, e) => Takes(w, c, v) && e in w.conns[c].live && v.live == Lists.Minus(w.conns[c].live, e)
    case Move(c, v, e, dst, into, off) =>
      && Takes(w, c, v) && e in w.conns[c].live && v.live == Lists.Minus(w.conns[c].live, e)
      && dst != c && Takes(w, dst, into) && into.live == w.conns[dst].live + [e.(off := off)]
  }

  /** The connection may come to that state: its books are sound in it. */
  ghost predicate Takes(w: World, c: nat, v: Connection.View) {
    c in w.conns && c in w.halves && Connection.Sound(v, w.halves[c])
  }

  ghost function Apply(w: World, a: Act): World
    requires Enabled(w, a)
  {
    match a
    case Create(u, uid, id, h) => w.(d := Users.Fresh(w.d, u, uid, id, h))
    case Vacate(uid) => w.(d := Users.Vacated(w.d, uid))
    case Hold(u, held) => w.(d := Users.Holding(w.d, u, held))
    case Clean(u) => w.(d := Users.Cleaned(w.d, u))
    case Join(c, half) =>
      w.(conns := w.conns[c := Connection.View([], [], [], [], {}, 0)], halves := w.halves[c := half])
    case Part(c) => w.(conns := w.conns - {c})
    case Change(c, v) => w.(conns := w.conns[c := v])
    case Store(c, v, e, u) => w.(d := Charged(w.d, u, e.id, c), conns := w.conns[c := v])
    case Notify(c, v, e) => w.(conns := w.conns[c := v])
    case Remove(c, v, e) =>
      w.(d := if e.user == 0 then w.d else Discharged(w.d, e.id), conns := w.conns[c := v])
    case Move(c, v, e, dst, into, off) =>
      w.(d := if e.user == 0 then w.d else Rehomed(w.d, e.id, dst), conns := w.conns[c := v][dst := into])
  }

  /** A live entry of a user is a charged message. */
  lemma {:induction false} OwnCharge(w: World, c: nat, e: Queue.Entry)
    requires Inv(w) && c in w.conns && e in w.conns[c].live
    ensures e.user != 0 ==> Users.ChargedTo(w.d, e.id, e.user, c)
  {
    assert ConnOk(w, c);
  }

  // ---------------------------------------------------------------- what every step keeps

  /** All connections but those given keep their state, and their entries stay charged. */
  lemma {:induction false} OthersOk(w: World, w': World, who: set<nat>)
    requires Inv(w) && Users.Sound(w'.d)
    requires w'.halves == w.halves
    requires forall c :: c in w'.conns && c !in who ==> c in w.conns && w'.conns[c] == w.conns[c]
    requires forall c, live :: c !in who && Users.Recorded(w.d, c, live) ==> Users.Recorded(w'.d, c, live)
    requires forall c :: c in w'.conns && c in who ==> ConnOk(w', c)
    ensures Inv(w')
  {
    forall c | c in w'.conns ensures ConnOk(w', c) {
      assert c !in who ==> ConnOk(w, c);
    }
  }

  lemma {:induction false} KeepAdmin(w: World, d: Users.Domain)
    requires Inv(w) && Users.Sound(d) && Users.KeepsRecords(w.d, d)
    ensures Inv(w.(d := d))
  {
    OthersOk(w, w.(d := d), {});
  }

  lemma {:induction false} KeepCreate(w: World, a: Act)
    requires Inv(w) && Enabled(w, a) && (a.Create? || a.Vacate? || a.Hold? || a.Clean?)
    ensures Inv(Apply(w, a))
  {
    match a
    case Create(u, uid, id, h) =>
      Users.FreshSound(w.d, u, uid, id, h);
      Users.RecordsKept(w.d, Users.Fresh(w.d, u, uid, id, h));
      KeepAdmin(w, Users.Fresh(w.d, u, uid, id, h));
    case Vacate(uid) =>
      Users.VacatedSound(w.d, uid);
      Users.RecordsKept(w.d, Users.Vacated(w.d, uid));
      KeepAdmin(w, Users.Vacated(w.d, uid));
    case Hold(u, held) => KeepHold(w, u, held);
    case Clean(u) =>
      Users.CleanedSound(w.d, u);
      Users.DyingUncharged(w.d, u);
      Users.RecordsKept(w.d, Users.Cleaned(w.d, u));
      KeepAdmin(w, Users.Cleaned(w.d, u));
  }

  lemma {:induction false} KeepHold(w: World, u: nat, held: set<Users.Holder>)
    requires Inv(w) && Enabled(w, Hold(u, held))
    ensures Inv(w.(d := Users.Holding(w.d, u, held)))
  {
    forall e | e in w.d.entries
      ensures if w.d.entries[e].user == u then Users.QueueEntry(e) in held else e in w.d.entries
    {
    }
    Users.HoldingSound(w.d, u, held, w.d.entries);
    assert Users.Holding(w.d, u, held).(entries := w.d.entries) == Users.Holding(w.d, u, held);
    Users.RecordsKept(w.d, Users.Holding(w.d, u, held));
    KeepAdmin(w, Users.Holding(w.d, u, held));
  }

  lemma {:induction false} KeepLocal(w: World, a: Act)
    requires Inv(w) && Enabled(w, a) && (a.Join? || a.Part? || a.Change? || a.Notify?)
    ensures Inv(Apply(w, a))
  {
    match a
    case Join(c, half) => KeepJoin(w, c, half);
    case Part(c) => OthersOk(w, Apply(w, a), {});
    case Change(c, v) =>
      assert ConnOk(w, c);
      OthersOk(w, Apply(w, a), {c});
    case Notify(c, v, e) =>
      assert ConnOk(w, c);
      OthersOk(w, Apply(w, a), {c});
  }

  lemma {:induction false} KeepJoin(w: World, c: nat, half: nat)
    requires Inv(w) && c !in w.conns
    ensures Inv(Apply(w, Join(c, half)))
  {
    var w' := Apply(w, Join(c, half));
    Connection.EmptySound(half);
    forall x | x in w'.conns ensures ConnOk(w', x) {
      assert x != c ==> ConnOk(w, x);
    }
  }

  lemma {:induction false} KeepStore(w: World, c: nat, v: Connection.View, e: Queue.Entry, u: nat)
    requires Inv(w) && Enabled(w, Store(c, v, e, u))
    ensures Inv(Apply(w, Store(c, v, e, u)))
  {
    var w' := Apply(w, Store(c, v, e, u));
    assert ConnOk(w, c);
    Users.ChargedSound(w.d, u, e.id, c);
    Users.RecordedWith(w.d, w'.d, c, w.conns[c].live, e, u);
    forall x, live | x != c && Users.Recorded(w.d, x, live) ensures Users.Recorded(w'.d, x, live) {
      forall y: Queue.Entry | y in live && y.user != 0 ensures Users.ChargedTo(w'.d, y.id, y.user, x) {
        assert Users.ChargedTo(w.d, y.id, y.user, x);
      }
    }
    OthersOk(w, w', {c});
  }

  lemma {:induction false} KeepRemove(w: World, c: nat, v: Connection.View, e: Queue.Entry)
    requires Inv(w) && Enabled(w, Remove(c, v, e))
    ensures Inv(Apply(w, Remove(c, v, e)))
  {
    var w' := Apply(w, Remove(c, v, e));
    assert ConnOk(w, c);
    OwnCharge(w, c, e);
    Connection.WithoutMembers(w.conns[c].live, e);
    if e.user != 0 {
      Users.DischargedSound(w.d, e.id);
      Users.RecordedWithout(w.d, w'.d, c, w.conns[c].live, e);
      forall x, live | x != c && Users.Recorded(w.d, x, live) ensures Users.Recorded(w'.d, x, live) {
        forall y: Queue.Entry | y in live && y.user != 0 ensures Users.ChargedTo(w'.d, y.id, y.user, x) {
          assert Users.ChargedTo(w.d, y.id, y.user, x);
        }
      }
    }
    OthersOk(w, w', {c});
  }

  lemma {:induction false} KeepMove(w: World, a: Act)
    requires Inv(w) && Enabled(w, a) && a.Move?
    ensures Inv(Apply(w, a))
  {
    var w' := Apply(w, a);
    assert ConnOk(w, a.c) && ConnOk(w, a.dst);
    MoveRecorded(w, a.c, a.dst, a.e, a.off, w'.d);
    OthersOk(w, w', {a.c, a.dst});
  }

  lemma {:induction false} MoveRecorded(w: World, c: nat, dst: nat, e: Queue.Entry, off: nat, d': Users.Domain)
    requires Inv(w) && c in w.conns && dst in w.conns && c != dst && e in w.conns[c].live
    requires d' == if e.user == 0 then w.d else Rehomed(w.d, e.id, dst)
    ensures Users.Sound(d')
    ensures Users.Recorded(d', c, Lists.Minus(w.conns[c].live, e))
    ensures Users.Recorded(d', dst, w.conns[dst].live + [e.(off := off)])
    ensures forall x, live :: x != c && Users.Recorded(w.d, x, live) ==> Users.Recorded(d', x, live)
  {
    assert ConnOk(w, c) && ConnOk(w, dst);
    OwnCharge(w, c, e);
    if e.user != 0 {
      Users.RehomedSound(w.d, e.id, dst);
      Users.RecordedMoved(w.d, d', c, dst, w.conns[c].live, w.conns[dst].live, e, off);
    } else {
      Connection.WithoutMembers(w.conns[c].live, e);
    }
  }

  lemma {:induction false} KeepAct(w: World, a: Act)
    requires Inv(w) && Enabled(w, a)
    ensures Inv(Apply(w, a))
  {
    match a
    case Store(c, v, e, u) => KeepStore(w, c, v, e, u);
    case Remove(c, v, e) => KeepRemove(w, c, v, e);
    case Move(_, _, _, _, _, _) => KeepMove(w, a);
    case _ => if a.Create? || a.Vacate? || a.Hold? || a.Clean? { KeepCreate(w, a); } else { KeepLocal(w, a); }
  }

  // ---------------------------------------------------------------- what every step does

  /** Acts on users: who is there, with which id, and held by whom. */
  lemma {:induction false} UserEffects(w: World, a: Act)
    requires Inv(w) && Enabled(w, a) && (a.Create? || a.Vacate? || a.Hold? || a.Clean?)
    ensures Apply(w, a).conns == w.conns && Apply(w, a).d.entries == w.d.entries
    ensures var d, d' := w.d, Apply(w, a).d;
      match a
      case Create(u, uid, id, h) =>
        && d'.users.Keys == d.users.Keys + {u} && d'.users[u] == Users.User(uid, id, {h}) && d'.ida == d.ida[id := u]
        && d'.idr == if uid.Some? then d.idr[uid.value := u] else d.idr
      case Vacate(slot) => d'.users.Keys == d.users.Keys && d'.idr == d.idr - {slot} && d'.ida == d.ida
      case Hold(u, held) => d'.users == d.users[u := d.users[u].(held := held)] && d'.ida == d.ida && d'.idr == d.idr
      case Clean(u) =>
        && d.users[u].held == {} && d'.users == d.users - {u} && d'.ida == d.ida - {d.users[u].id}
        && forall slot :: slot in d.idr && d.idr[slot] != u ==> slot in d'.idr && d'.idr[slot] == d.idr[slot]
      case _ => true
  {
    if a.Clean? {
      Users.CleanedSound(w.d, a.u);
      forall slot | slot in w.d.idr && w.d.idr[slot] != a.u ensures w.d.users[a.u].uid != Some(slot) {
        assert Users.SlotOk(w.d, slot) && Users.UserOk(w.d, a.u);
      }
    }
  }

  /** Acts on messages: where each is, and whom it is charged to. */
  lemma {:induction false} MessageEffects(w: World, a: Act)
    requires Inv(w) && Enabled(w, a) && (a.Store? || a.Notify? || a.Remove? || a.Move?)
    ensures a.Move? ==> Apply(w, a).conns == w.conns[a.c := a.v][a.dst := a.into]
    ensures !a.Move? ==> Apply(w, a).conns == w.conns[a.c := a.v]
    ensures a.Notify? || (!a.Store? && a.e.user == 0) ==> Apply(w, a).d == w.d
    ensures a.Store? ==>
      var d' := Apply(w, a).d;
      && d'.entries == w.d.entries[a.e.id := Users.Charge(a.u, a.c)] && d'.users.Keys == w.d.users.Keys
      && d'.users[a.u] == w.d.users[a.u].(held := w.d.users[a.u].held + {Users.QueueEntry(a.e.id)})
    ensures a.Remove? && a.e.user != 0 ==>
      && a.e.id in w.d.entries
      && var u, d' := w.d.entries[a.e.id].user, Apply(w, a).d;
      && u in w.d.users && w.d.users[u].id == a.e.user
      && d'.entries == w.d.entries - {a.e.id} && d'.users.Keys == w.d.users.Keys
      && d'.users[u] == w.d.users[u].(held := w.d.users[u].held - {Users.QueueEntry(a.e.id)})
    ensures a.Move? && a.e.user != 0 ==>
      && a.e.id in w.d.entries && w.d.entries[a.e.id].conn == a.c && Apply(w, a).d.users == w.d.users
      && Apply(w, a).d.entries == w.d.entries[a.e.id := Users.Charge(w.d.entries[a.e.id].user, a.dst)]
  {
    if a.Remove? || a.Move? {
      OwnCharge(w, a.c, a.e);
    }
  }

  // ---------------------------------------------------------------- runs

  /** Every act is enabled in the world the acts before it produced. */
  ghost predicate IsRun(w: World, acts: seq<Act>)
    decreases |acts|
  {
    acts == [] || (Enabled(w, acts[0]) && IsRun(Apply(w, acts[0]), acts[1..]))
  }

  ghost function After(w: World, acts: seq<Act>): World
    requires IsRun(w, acts)
    decreases |acts|
  {
    if acts == [] then w else After(Apply(w, acts[0]), acts[1..])
  }

  lemma {:induction false} RunKeepsInv(w: World, acts: seq<Act>)
    requires Inv(w) && IsRun(w, acts)
    ensures Inv(After(w, acts))
    decreases |acts|
  {
    if acts != [] {
      KeepAct(w, acts[0]);
      RunKeepsInv(Apply(w, acts[0]), acts[1..]);
    }
  }

  /**
   After every run, an id that is not in use has an empty account at every connection, so that the
   next user who gets it starts without the debts of its predecessor.
   */
  lemma {:induction false} RecycledClean(acts: seq<Act>, id: nat, c: nat)
    requires IsRun(START, acts)
    ensures var w := After(START, acts);
      0 < id && id !in w.d.ida && c in w.conns ==> Quota.At(w.conns[c].quota, id) == Quota.NOTHING
  {
    RunKeepsInv(START, acts);
    var w := After(START, acts);
    if 0 < id && id !in w.d.ida && c in w.conns {
      assert ConnOk(w, c);
      Users.FreeIdsEmpty(w.d, id, c, w.conns[c], w.halves[c]);
    }
  }
}
