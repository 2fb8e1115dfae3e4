/**
 What becomes of a request whose window is closed. The reply that passed through the window, or the
 notice about its end, still has to be queued at the requester like any other message, and the
 source ignores when that fails. This module joins the two sides for one requester: the windows of
 module Reply and the queue, quota and pool of module Connection.
 */
module Delivery {
  import opened Common
  import opened Lists
  import Connection
  import Pool
  import Queue
  import Quota
  import Reply

  /** A message on its way to its requester: the i-th reply that passed, or the k-th notice. */
  datatype Mail = ReplyMail(i: nat) | NoticeMail(k: nat)

  /**
   An attempt to queue it. `made` tells that there is something to queue: the metadata of a reply
   was collected, the notification was allocated, and so was the entry.
   */
  datatype Post = Post(attempt: Connection.Try, active: bool, acceptFd: bool, made: bool)

  /** The message is queued: everything the requester's side looks at permits it. */
  ghost predicate Reaches(p: Post) {
    p.made && p.active && Connection.Takes(p.attempt, p.acceptFd)
  }

  /** The attempts for one requester so far, and the mail in the order it was queued. */
  datatype Tray = Tray(posts: map<Mail, Post>, inbox: seq<Mail>)

  /** The mail is about that window. */
  ghost predicate Concerns(s: Reply.Replies, m: Mail, id: nat) {
    match m
    case ReplyMail(i) => i < |s.log.passed| && s.log.passed[i].id == id
    case NoticeMail(k) => k < |s.log.about| && s.log.about[k].id == id
  }

  /** The mail is to be queued at that connection. A reply somebody blocks on is handed over directly. */
  ghost predicate Addressed(s: Reply.Replies, m: Mail, c: nat) {
    match m
    case ReplyMail(i) =>
      && i < |s.log.passed| && s.log.passed[i].dst == c
      && s.log.passed[i].id in s.fates && !s.fates[s.log.passed[i].id].t.sync
    case NoticeMail(k) => k < |s.log.notices| && s.log.notices[k].dst == c
  }

  /** Mail is in the inbox, once, exactly if an attempt reached it. */
  ghost predicate Kept(s: Reply.Replies, me: nat, b: Tray) {
    (&& (forall m :: m in b.posts ==> Addressed(s, m, me))
     && (forall m :: m in b.inbox <==> m in b.posts && Reaches(b.posts[m]))
     && NoDup(b.inbox)) == true
  }

  /** Nothing that happens to windows takes mail back. */
  lemma {:induction false} KeptLater(s: Reply.Replies, s': Reply.Replies, me: nat, b: Tray)
    requires Kept(s, me, b) && Reply.Later(s, s')
    ensures Kept(s', me, b)
  {
    forall m | m in b.posts ensures Addressed(s', m, me) {
      assert Addressed(s, m, me);
    }
  }

  ghost function Posted(b: Tray, m: Mail, p: Post): Tray {
    Tray(b.posts[m := p], if Reaches(p) then b.inbox + [m] else b.inbox)
  }

  lemma {:induction false} PostedKept(s: Reply.Replies, me: nat, b: Tray, m: Mail, p: Post)
    requires Kept(s, me, b) && m !in b.posts && Addressed(s, m, me)
    ensures Kept(s, me, Posted(b, m, p))
  {
    var b' := Posted(b, m, p);
    forall x ensures x in b'.inbox <==> x in b'.posts && Reaches(b'.posts[x]) {
      assert x in b.inbox <==> x in b.posts && Reaches(b.posts[x]);
    }
    assert m !in b.inbox;
  }

  // ---------------------------------------------------------------- what the requester hears

  /** A reply through the window, or a notice about it, was queued at the requester. */
  ghost predicate Heard(s: Reply.Replies, b: Tray, id: nat) {
    exists m :: m in b.inbox && Concerns(s, m, id)
  }

  /** The window ended although its requester is there and does not block on it. */
  ghost predicate OwesWord(s: Reply.Replies, id: nat, me: nat) {
    id in s.fates && !s.fates[id].t.sync && s.fates[id].t.dst == me && s.fates[id].how != Reply.RequesterGone
  }

  /** The mail that was sent because the window ended. */
  ghost function Own(s: Reply.Replies, id: nat): Mail
    requires id in s.fates
  {
    if s.fates[id].how.Answered? then ReplyMail(s.fates[id].at) else NoticeMail(s.fates[id].at)
  }

  lemma {:induction false} OwnIsThere(s: Reply.Replies, id: nat, me: nat)
    requires Reply.Sound(s) && OwesWord(s, id, me)
    ensures Concerns(s, Own(s, id), id) && Addressed(s, Own(s, id), me)
  {
    assert Reply.FateOk(id, s.known[id], s.fates[id], s.log);
  }

  /** A second death notice was sent for the message that carried the request, besides the one for its window. */
  ghost predicate TwiceDead(s: Reply.Replies, id: nat) {
    exists k :: 0 <= k < |s.log.about| && s.log.about[k] == Reply.About(id, false)
  }

  /** Otherwise that mail is the only one about the window. */
  lemma {:induction false} OnlyOwn(s: Reply.Replies, id: nat, me: nat, m: Mail)
    requires Reply.Sound(s) && OwesWord(s, id, me) && Concerns(s, m, id) && !TwiceDead(s, id)
    ensures m == Own(s, id)
  {
    match m
    case ReplyMail(i) => assert Reply.PassOk(s.fates, s.log, i);
    case NoticeMail(k) =>
      assert Reply.AboutOk(s.fates, s.log, k);
      assert s.log.about[k] == Reply.About(id, true);
  }

  /** Somebody tried to queue every mail about the window. */
  ghost predicate Tried(s: Reply.Replies, b: Tray, id: nat) {
    forall m :: Concerns(s, m, id) ==> m in b.posts
  }

  /**
   When a request vanishes: the requester hears of the end of its window exactly if some mail about
   it could be queued, which for a window without a second death notice means its own one.
   */
  lemma {:induction false} SilentExactly(s: Reply.Replies, me: nat, b: Tray, id: nat)
    requires Reply.Sound(s) && Kept(s, me, b) && OwesWord(s, id, me)
    ensures Heard(s, b, id) <==> exists m :: Concerns(s, m, id) && m in b.posts && Reaches(b.posts[m])
    ensures !TwiceDead(s, id) ==> (Heard(s, b, id) <==> Own(s, id) in b.posts && Reaches(b.posts[Own(s, id)]))
    ensures Tried(s, b, id) ==>
      (!Heard(s, b, id) <==> forall m :: Concerns(s, m, id) ==> m in b.posts && !Reaches(b.posts[m]))
  {
    OwnIsThere(s, id, me);
    if !TwiceDead(s, id) {
      forall m | Concerns(s, m, id) ensures m == Own(s, id) {
        OnlyOwn(s, id, me, m);
      }
    }
    if Own(s, id) in b.posts && Reaches(b.posts[Own(s, id)]) {
      assert Own(s, id) in b.inbox;
    }
  }

  // ---------------------------------------------------------------- runs

  /** The windows of the bus and the mail of one requester at some time. */
  datatype Moment = Moment(s: Reply.Replies, b: Tray)

  /** Something happened to the windows, or an attempt was made to queue some mail for the requester. */
  ghost predicate Follows(x: Moment, y: Moment, me: nat) {
    || (y.b == x.b && Reply.Later(x.s, y.s))
    || (y.s == x.s && exists m, p :: m !in x.b.posts && Addressed(x.s, m, me) && y.b == Posted(x.b, m, p))
  }

  ghost predicate IsRun(run: seq<Moment>, me: nat) {
    && run != [] && run[0].b == Tray(map[], [])
    && forall k {:trigger StepAt(run, k, me)} :: 0 < k < |run| ==> StepAt(run, k, me)
  }

  ghost predicate StepAt(run: seq<Moment>, k: int, me: nat)
    requires 0 < k < |run|
  {
    Follows(run[k - 1], run[k], me)
  }

  lemma {:induction false} RunKept(run: seq<Moment>, me: nat)
    requires IsRun(run, me)
    ensures Kept(run[|run| - 1].s, me, run[|run| - 1].b)
    decreases |run|
  {
    var n := |run| - 1;
    if n > 0 {
      var before := run[..n];
      forall k | 0 < k < |before| ensures StepAt(before, k, me) {
        assert StepAt(run, k, me);
      }
      RunKept(before, me);
      assert StepAt(run, n, me);
      FollowsKept(run[n - 1], run[n], me);
    }
  }

  lemma {:induction false} FollowsKept(x: Moment, y: Moment, me: nat)
    requires Kept(x.s, me, x.b) && Follows(x, y, me)
    ensures Kept(y.s, me, y.b)
  {
    if y.b == x.b && Reply.Later(x.s, y.s) {
      KeptLater(x.s, y.s, me, x.b);
    } else {
      var m, p :| m !in x.b.posts && Addressed(x.s, m, me) && y.b == Posted(x.b, m, p);
      PostedKept(x.s, me, x.b, m, p);
    }
  }

  /** After every run: a closed window is silent exactly if all mail about it was refused. */
  lemma {:induction false} VanishesExactly(run: seq<Moment>, me: nat, id: nat)
    requires IsRun(run, me) && Reply.Sound(run[|run| - 1].s) && OwesWord(run[|run| - 1].s, id, me)
    requires Tried(run[|run| - 1].s, run[|run| - 1].b, id)
    ensures var x := run[|run| - 1];
      !Heard(x.s, x.b, id) <==> forall m :: Concerns(x.s, m, id) ==> m in x.b.posts && !Reaches(x.b.posts[m])
  {
    RunKept(run, me);
    SilentExactly(run[|run| - 1].s, me, run[|run| - 1].b, id);
  }

  // ---------------------------------------------------------------- a requester that hears nothing

  const HALF := 0x10_0000

  /** A notification of 96 bytes. */
  ghost function Notification(n: nat): Queue.Entry {
    Queue.Entry(n, 0, 0, 0, 96, 0, 96 * n)
  }

  ghost function KernelOnly(n: nat): seq<Quota.Account> {
    if n == 0 then [] else [Quota.Account(96 * n, n, 0)]
  }

  /** A connection with n of them, at the start of its pool. */
  ghost function Notified(n: nat): Connection.View {
    if n == 0 then Connection.View([], [], [], [], {}, 0)
    else Connection.Joined(Notified(n - 1), KernelOnly(n), Notification(n - 1))
  }

  /** What is charged, and where there is room for the next one. */
  ghost predicate Tidy(v: Connection.View, n: nat) {
    (&& Connection.Sound(v, HALF) && v.quota == KernelOnly(n) && v.accounted == 96 * n
     && (forall x :: x in v.live ==> x.id < n) && (forall x :: x in v.held ==> x.off < 96 * n)) == true
  }

  lemma {:induction false} StaysTidy(v: Connection.View, n: nat)
    requires Tidy(v, n) && n < Quota.MAX_MSGS
    ensures Tidy(Connection.Joined(v, KernelOnly(n + 1), Notification(n)), n + 1)
  {
    NextCharge(n);
    Connection.JoinedSound(v, KernelOnly(n + 1), Notification(n), HALF);
  }

  lemma {:induction false} NextCharge(n: nat)
    requires n < Quota.MAX_MSGS
    ensures Quota.AllBounded(KernelOnly(n + 1)) && Connection.Charged(KernelOnly(n), KernelOnly(n + 1), Notification(n))
    ensures Quota.Fits(Quota.At(KernelOnly(n), 0), 96, HALF, 96 * n)
  {
    assert Quota.At(KernelOnly(n), 0) == Quota.Account(96 * n, n, 0);
  }

  lemma {:induction false} StartsTidy(v: Connection.View)
    requires v == Connection.View([], [], [], [], {}, 0)
    ensures Tidy(v, 0)
  {
    Connection.EmptySound(HALF);
  }

  lemma {:induction false} NotifiedTidy(n: nat)
    requires n <= Quota.MAX_MSGS
    ensures Tidy(Notified(n), n)
    decreases n
  {
    if n == 0 {
      StartsTidy(Notified(0));
    } else {
      NotifiedTidy(n - 1);
      NextTidy(n);
    }
  }

  lemma {:induction false} NextTidy(n: nat)
    requires 0 < n <= Quota.MAX_MSGS && Tidy(Notified(n - 1), n - 1)
    ensures Tidy(Notified(n), n)
  {
    StaysTidy(Notified(n - 1), n - 1);
  }

  /** With 256 of them queued the requester takes no further one, whatever its pool looks like. */
  lemma {:induction false} FullAccount(e: Queue.Entry, slices: seq<Pool.Slice>, luck: Connection.Luck)
    requires e.user == 0
    ensures Connection.Sound(Notified(Quota.MAX_MSGS), HALF)
    ensures Connection.WhyNot(Full(e, slices, luck)) == Some(Connection.NoBuffers)
  {
    NotifiedTidy(Quota.MAX_MSGS);
    assert Quota.At(KernelOnly(Quota.MAX_MSGS), 0).msgs == Quota.MAX_MSGS;
  }

  ghost function Full(e: Queue.Entry, slices: seq<Pool.Slice>, luck: Connection.Luck): Connection.Try {
    Connection.Try(Notified(Quota.MAX_MSGS), slices, HALF, e, luck)
  }

  /** A request of connection 1 to connection 2 with deadline 5. */
  ghost function Asked(): Reply.Replies {
    var none := Reply.Replies(map[], map[], map[], map[], map[], map[], map[], Reply.Log([], [], [], {}));
    var joined := Reply.Joined(Reply.Joined(none, 1), 2);
    var t := Reply.Tracker(2, 1, 77, 0, 5, false, false, multiset{Reply.Caller});
    Reply.Opened(Reply.Born(Reply.Attempted(joined, 1, true), 0, t), 0)
  }

  lemma {:induction false} AskedSound()
    ensures Reply.Sound(Asked()) && Reply.Linked(Asked(), 0) && Asked().log == Reply.Log([], [], [], {})
  {
    var none := Reply.Replies(map[], map[], map[], map[], map[], map[], map[], Reply.Log([], [], [], {}));
    NobodySound(none);
    Reply.JoinedSound(none, 1);
    Reply.JoinedSound(Reply.Joined(none, 1), 2);
    var joined := Reply.Joined(Reply.Joined(none, 1), 2);
    var t := Reply.Tracker(2, 1, 77, 0, 5, false, false, multiset{Reply.Caller});
    Reply.AttemptedSound(joined, 1, true);
    Reply.BornSound(Reply.Attempted(joined, 1, true), 0, t);
    Reply.OpenedSound(Reply.Born(Reply.Attempted(joined, 1, true), 0, t), 0);
  }

  lemma {:induction false} NobodySound(s: Reply.Replies)
    requires s == Reply.Replies(map[], map[], map[], map[], map[], map[], map[], Reply.Log([], [], [], {}))
    ensures Reply.Sound(s)
  {
    forall c: nat ensures Reply.Counted(s, c) {
      assert Reply.Live(s.trackers, c) == {};
    }
  }

  /** It times out. */
  lemma {:induction false} TimesOut()
    ensures Reply.Linked(Asked(), 0)
    ensures var s := Reply.Unlinked(Asked(), 0, Reply.TimedOut(9));
      && Reply.Sound(s) && OwesWord(s, 0, 1) && s.log.passed == [] && s.log.about == [Reply.About(0, true)]
      && s.log.notices == [Reply.ReplyTimeout(1, 77)]
  {
    AskedSound();
    Reply.UnlinkedSound(Asked(), 0, Reply.TimedOut(9));
  }

  /** The requester's queue is full of notifications, and nobody ever hears of it. */
  lemma {:induction false} RequestVanishes(e: Queue.Entry, slices: seq<Pool.Slice>, luck: Connection.Luck)
    requires e.user == 0
    ensures Reply.Linked(Asked(), 0)
    ensures var s := Reply.Unlinked(Asked(), 0, Reply.TimedOut(9));
      var b := Posted(Tray(map[], []), NoticeMail(0), Post(Full(e, slices, luck), true, true, true));
      Reply.Sound(s) && OwesWord(s, 0, 1) && Kept(s, 1, b) && Tried(s, b, 0) && !Heard(s, b, 0)
  {
    TimesOut();
    FullAccount(e, slices, luck);
    Unheard(Reply.Unlinked(Asked(), 0, Reply.TimedOut(9)), Post(Full(e, slices, luck), true, true, true));
  }

  lemma {:induction false} Unheard(s: Reply.Replies, p: Post)
    requires s.log.passed == [] && s.log.about == [Reply.About(0, true)] && s.log.notices == [Reply.ReplyTimeout(1, 77)]
    requires !Reaches(p)
    ensures var b := Posted(Tray(map[], []), NoticeMail(0), p); Kept(s, 1, b) && Tried(s, b, 0) && !Heard(s, b, 0)
  {
    assert Addressed(s, NoticeMail(0), 1);
    PostedKept(s, 1, Tray(map[], []), NoticeMail(0), p);
    forall m | Concerns(s, m, 0) ensures m == NoticeMail(0) {
    }
  }

  // ---------------------------------------------------------------- one requester

  class Requester {
    const me: nat
    const bus: Reply.Bus
    const conn: Connection.Conn
    var active: bool
    ghost var posts: map<Mail, Post>
    ghost var inbox: seq<Mail>

    ghost predicate Valid()
      reads this, bus, conn, conn.pool, conn.queue
    {
      (conn.Valid() && Kept(bus.Now(), me, Tray(posts, inbox))) == true
    }

    /** An attempt to queue the message here and now. */
    ghost function Posting(msg: Queue.Entry, made: bool, luck: Connection.Luck): Post
      reads this, conn, conn.pool, conn.queue
    {
      Post(conn.Trying(msg, luck), active, conn.acceptFd, made)
    }

    constructor (me: nat, bus: Reply.Bus, conn: Connection.Conn)
      requires conn.Valid()
      ensures Valid() && this.me == me && this.bus == bus && this.conn == conn
      ensures active && posts == map[] && inbox == []
    {
      this.me, this.bus, this.conn, this.active := me, bus, conn, true;
      posts, inbox := map[], [];
    }

    /**
     The end of kdbus_conn_reply for an asynchronous reply, and one round of kdbus_notify_flush:
     the mail is queued exactly if everything permits it, and otherwise leaves no trace.
     */
    method Hand(ghost m: Mail, msg: Queue.Entry, made: bool, luck: Connection.Luck) returns (r: Option<Queue.Entry>)
      requires Valid() && m !in posts && Addressed(bus.Now(), m, me)
      requires Connection.WholeUnits(msg) && msg.fds < TWO_64 && forall x :: x in conn.live ==> x.id != msg.id
      requires m.NoticeMail? ==> msg.user == 0 && msg.fds == 0
      modifies this`posts, this`inbox, conn`quota, conn`live, conn`order, conn.pool, conn.queue
      ensures Valid() && (r.Some? <==> Reaches(old(Posting(msg, made, luck))))
      ensures Tray(posts, inbox) == Posted(old(Tray(posts, inbox)), m, old(Posting(msg, made, luck)))
      ensures r.Some? ==> Connection.Inserted(old(conn.Now()), conn.Now(), msg, r.value)
      ensures r.None? ==> Connection.Undisturbed(old(conn.Now()), conn.Now(), old(conn.pool.slices), conn.pool.slices)
      ensures r.Some? <==>
        && made && old(active) && (conn.acceptFd || msg.fds == 0)
        && Connection.WhyNot(old(conn.Trying(msg, luck))).None?
      ensures conn.queue.msgList == old(conn.queue.msgList) + if r.Some? then [msg.(off := r.value.off)] else []
    {
      ghost var b, p := Tray(posts, inbox), Posting(msg, made, luck);
      PostedKept(bus.Now(), me, b, m, p);
      r := conn.EntryInsert(msg, active, !made, luck);
      posts, inbox := Posted(b, m, p).posts, Posted(b, m, p).inbox;
    }
  }
}
