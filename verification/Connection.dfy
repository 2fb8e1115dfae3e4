/**
 The receive path of a connection: queue entries, their slices in the pool and the quota of
 their senders are three accounts of the same messages, which every operation keeps equal.
 */
module Connection {
  import opened Common
  import opened Lists
  import opened Queue
  import opened Quota
  import Pool

  // ---------------------------------------------------------------- the books

  ghost function Plus(a: Account, b: Account): Account {
    Account(a.memory + b.memory, a.msgs + b.msgs, a.fds + b.fds)
  }

  ghost function Charge(e: Entry, u: nat): Account {
    if e.user == u then Account(e.size, 1, e.fds) else NOTHING
  }

  /** What the live entries of a user amount to. */
  ghost function Usage(live: seq<Entry>, u: nat): Account {
    if live == [] then NOTHING else Plus(Charge(live[0], u), Usage(live[1..], u))
  }

  ghost function Total(live: seq<Entry>): nat {
    if live == [] then 0 else live[0].size + Total(live[1..])
  }

  ghost predicate BookOk(q: seq<Account>, live: seq<Entry>, u: nat) {
    At(q, u) == Usage(live, u)
  }

  ghost predicate Books(q: seq<Account>, live: seq<Entry>) {
    forall u: nat {:trigger BookOk(q, live, u)} :: BookOk(q, live, u)
  }

  /** Quota, entries and the pool's account agree, and the quota is fair. */
  ghost predicate Ledger(q: seq<Account>, order: seq<nat>, live: seq<Entry>, accounted: nat, half: nat) {
    && AllBounded(q) && Books(q, live)
    && Total(live) == accounted && Sum(q, order) == accounted
    && Fair(q, order, half)
  }

  lemma {:induction false} AppendUsage(live: seq<Entry>, e: Entry, u: nat)
    ensures Usage(live + [e], u) == Plus(Usage(live, u), Charge(e, u)) && Total(live + [e]) == Total(live) + e.size
    decreases |live|
  {
    if live == [] {
      assert live + [e] == [e] && [e][1..] == [];
    } else {
      assert (live + [e])[1..] == live[1..] + [e];
      AppendUsage(live[1..], e, u);
    }
  }

  lemma {:induction false} WithoutUsage(live: seq<Entry>, e: Entry, u: nat)
    requires e in live
    ensures Usage(live, u) == Plus(Usage(Minus(live, e), u), Charge(e, u))
    decreases |live|
  {
    if live[0] != e {
      WithoutUsage(live[1..], e, u);
      ConsUsage(live[0], Minus(live[1..], e), u);
    }
  }

  lemma {:induction false} WithoutTotal(live: seq<Entry>, e: Entry)
    requires e in live
    ensures Total(live) == Total(Minus(live, e)) + e.size
    decreases |live|
  {
    if live[0] != e {
      WithoutTotal(live[1..], e);
      ConsUsage(live[0], Minus(live[1..], e), 0);
    }
  }

  lemma {:induction false} ConsUsage(e: Entry, live: seq<Entry>, u: nat)
    ensures Usage([e] + live, u) == Plus(Charge(e, u), Usage(live, u)) && Total([e] + live) == e.size + Total(live)
  {
    assert ([e] + live)[1..] == live;
  }

  lemma {:induction false} LedgerAdd(
    q: seq<Account>, q': seq<Account>, order: seq<nat>, live: seq<Entry>, e: Entry, accounted: nat, half: nat)
    requires Ledger(q, order, live, accounted, half) && AllBounded(q') && SameBut(q, q', e.user) && 0 < e.size
    requires At(q', e.user) == Plus(At(q, e.user), Charge(e, e.user)) && Fits(At(q, e.user), e.size, half, accounted)
    ensures Ledger(q', Drop(order, e.user) + [e.user], live + [e], accounted + e.size, half)
  {
    IncFair(q, q', order, e.user, e.size, half);
    BooksAdd(q, q', live, e);
    AppendUsage(live, e, 0);
  }

  lemma {:induction false} BooksAdd(q: seq<Account>, q': seq<Account>, live: seq<Entry>, e: Entry)
    requires Books(q, live) && SameBut(q, q', e.user) && At(q', e.user) == Plus(At(q, e.user), Charge(e, e.user))
    ensures Books(q', live + [e])
  {
    forall u: nat ensures BookOk(q', live + [e], u) {
      AppendUsage(live, e, u);
      BookAdd(At(q, u), At(q', u), Usage(live, u), Usage(live + [e], u), Charge(e, u), u == e.user) by {
        assert BookOk(q, live, u);
        assert u != e.user ==> At(q', u) == At(q, u) && Charge(e, u) == NOTHING;
      }
    }
  }

  lemma BookAdd(a: Account, a': Account, u: Account, u': Account, c: Account, hit: bool)
    requires a == u && u' == Plus(u, c) && if hit then a' == Plus(a, c) else a' == a && c == NOTHING
    ensures a' == u'
  {
  }

  /** The account of its sender covers every live entry. */
  lemma {:induction false} LedgerCovers(q: seq<Account>, live: seq<Entry>, e: Entry)
    requires Books(q, live) && e in live
    ensures Quota.Covers(At(q, e.user), e.size, e.fds) && e.user < |q|
  {
    WithoutUsage(live, e, e.user);
    assert BookOk(q, live, e.user);
  }

  ghost function OrderWithout(q: seq<Account>, order: seq<nat>, u: nat): seq<nat> {
    if At(q, u).memory == 0 then Drop(order, u) else order
  }

  lemma {:induction false} LedgerSub(
    q: seq<Account>, q': seq<Account>, order: seq<nat>, live: seq<Entry>, e: Entry, accounted: nat, half: nat)
    requires Ledger(q, order, live, accounted, half) && AllBounded(q') && SameBut(q, q', e.user) && e in live
    requires At(q, e.user) == Plus(At(q', e.user), Charge(e, e.user))
    ensures e.size <= accounted && Ledger(q', OrderWithout(q', order, e.user), Minus(live, e), accounted - e.size, half)
  {
    WithoutTotal(live, e);
    BooksSub(q, q', live, e);
    DecFair(q, q', order, e.user, e.size, half);
  }

  lemma {:induction false} BooksSub(q: seq<Account>, q': seq<Account>, live: seq<Entry>, e: Entry)
    requires Books(q, live) && SameBut(q, q', e.user) && e in live
    requires At(q, e.user) == Plus(At(q', e.user), Charge(e, e.user))
    ensures Books(q', Minus(live, e))
  {
    forall u: nat ensures BookOk(q', Minus(live, e), u) {
      WithoutUsage(live, e, u);
      BookSub(At(q, u), At(q', u), Usage(live, u), Usage(Minus(live, e), u), Charge(e, u), u == e.user) by {
        assert BookOk(q, live, u);
        assert u != e.user ==> At(q', u) == At(q, u) && Charge(e, u) == NOTHING;
      }
    }
  }

  lemma BookSub(a: Account, a': Account, u: Account, u': Account, c: Account, hit: bool)
    requires a == u && u == Plus(u', c) && if hit then a == Plus(a', c) else a' == a && c == NOTHING
    ensures a' == u'
  {
  }

  lemma PlusCancel(a: Account, b: Account, c: Account)
    ensures Plus(a, c) == Plus(b, c) ==> a == b
  {
  }

  ghost predicate SameAccounts(q: seq<Account>, q': seq<Account>) {
    forall u: nat :: At(q', u) == At(q, u)
  }

  lemma {:induction false} LedgerSame(
    q: seq<Account>, q': seq<Account>, order: seq<nat>, live: seq<Entry>, accounted: nat, half: nat)
    requires Ledger(q, order, live, accounted, half) && AllBounded(q') && SameAccounts(q, q')
    ensures Ledger(q', order, live, accounted, half)
  {
    FairLower(q, q', order, half);
    SumSame(q, q', order);
    forall u: nat ensures BookOk(q', live, u) {
      assert BookOk(q, live, u);
    }
  }

  // ---------------------------------------------------------------- entries and slices

  function SliceOf(e: Entry, user: bool): Pool.Slice {
    Pool.Slice(e.off, e.size, false, true, true, user)
  }

  /** The kernel holds an accounted slice for the entry, whether or not it is published. */
  ghost predicate Backing(held: set<Pool.Slice>, e: Entry) {
    SliceOf(e, false) in held || SliceOf(e, true) in held
  }

  ghost predicate WholeUnits(e: Entry) {
    0 < e.size && e.size % 8 == 0
  }

  ghost predicate Backed(held: set<Pool.Slice>, live: seq<Entry>) {
    && (forall e :: e in live ==> Backing(held, e) && WholeUnits(e))
    && (forall i, j :: 0 <= i < j < |live| ==> live[i].off != live[j].off)
  }

  lemma {:induction false} OffsetWithout(live: seq<Entry>, e: Entry)
    requires e in live && forall i, j :: 0 <= i < j < |live| ==> live[i].off != live[j].off
    ensures var w := Minus(live, e);
      (forall x :: x in w ==> x.off != e.off && x in live) && forall i, j :: 0 <= i < j < |w| ==> w[i].off != w[j].off
    decreases |live|
  {
    if live[0] != e {
      OffsetWithout(live[1..], e);
      var w := Minus(live[1..], e);
      assert e in live[1..];
      forall k | 0 <= k < |w| ensures w[k].off != live[0].off {
        assert w[k] in live[1..];
      }
    }
  }

  lemma {:induction false} BackedWithout(
    held: set<Pool.Slice>, live: seq<Entry>, e: Entry, user: bool, held': set<Pool.Slice>)
    requires Backed(held, live) && e in live && SliceOf(e, user) in held
    requires held - {SliceOf(e, user)} <= held'
    ensures Backed(held', Minus(live, e))
  {
    OffsetWithout(live, e);
    forall x | x in Minus(live, e) ensures Backing(held', x) {
      assert Backing(held, x) && x.off != e.off;
    }
  }

  lemma {:induction false} BackedWith(held: set<Pool.Slice>, live: seq<Entry>, e: Entry)
    requires Backed(held, live) && WholeUnits(e) && forall s :: s in held ==> s.off != e.off
    ensures Backed(held + {SliceOf(e, false)}, live + [e])
  {
    var held', live' := held + {SliceOf(e, false)}, live + [e];
    forall x | x in live' ensures Backing(held', x) && WholeUnits(x) {
      assert x in live ==> Backing(held, x);
    }
    forall i | 0 <= i < |live| ensures live[i].off != e.off {
      assert Backing(held, live[i]);
    }
  }

  /** A held slice is the one found at its offset. */
  lemma {:induction false} Located(p: Pool.Pool, s: Pool.Slice)
    requires p.Valid() && s in p.Held()
    ensures p.SliceAt(s.off) && p.slices[Pool.Index(p.slices, s.off)] == s
  {
    var k :| 0 <= k < |p.slices| && p.slices[k] == s;
    var i := Pool.Index(p.slices, s.off);
    if i < k {
      Pool.OffsetsDistinct(p.slices, 0, p.size, i, k);
    } else if k < i {
      Pool.OffsetsDistinct(p.slices, 0, p.size, k, i);
    }
  }

  lemma {:induction false} WithoutAbsent(list: seq<Entry>, e: Entry)
    requires e !in list
    ensures Minus(list, e) == list
    decreases |list|
  {
    if list != [] {
      WithoutAbsent(list[1..], e);
    }
  }

  /** Everything that has to agree about a connection's incoming messages. */
  datatype View = View(
    list: seq<Entry>, live: seq<Entry>, quota: seq<Account>, order: seq<nat>, held: set<Pool.Slice>, accounted: nat)

  // `== true` keeps the verifier from taking the predicate apart wherever it is to be proved.
  ghost predicate Sound(v: View, half: nat) {
    (&& Distinct(v.live) && AllLive(v.list, v.live) && Ledger(v.quota, v.order, v.live, v.accounted, half)
     && Backed(v.held, v.live)) == true
  }

  ghost predicate AllLive(list: seq<Entry>, live: seq<Entry>) {
    forall e :: e in list ==> e in live
  }

  /** The entry joins: charged to its user, backed by a slice, last in the order. */
  ghost function Joined(v: View, q: seq<Account>, e: Entry): View {
    v.(live := v.live + [e], quota := q, order := Drop(v.order, e.user) + [e.user],
      held := v.held + {SliceOf(e, false)}, accounted := v.accounted + e.size)
  }

  lemma {:induction false} JoinedSound(v: View, q: seq<Account>, e: Entry, half: nat)
    requires Sound(v, half) && AllBounded(q) && SameBut(v.quota, q, e.user) && WholeUnits(e)
    requires
      && At(q, e.user) == Plus(At(v.quota, e.user), Charge(e, e.user))
      && Fits(At(v.quota, e.user), e.size, half, v.accounted)
    requires (forall s :: s in v.held ==> s.off != e.off) && forall x :: x in v.live ==> x.id != e.id
    ensures Sound(Joined(v, q, e), half)
  {
    LedgerAdd(v.quota, q, v.order, v.live, e, v.accounted, half);
    BackedWith(v.held, v.live, e);
  }

  /** The entry leaves: its charge and its slice are given back. */
  ghost predicate Left(v: View, v': View, e: Entry) {
    (&& e in v.live && v'.live == Minus(v.live, e) && v'.order == OrderWithout(v'.quota, v.order, e.user)
     && SameBut(v.quota, v'.quota, e.user) && At(v.quota, e.user) == Plus(At(v'.quota, e.user), Charge(e, e.user))
     && v.accounted == v'.accounted + e.size && OthersHeld(v.held, v'.held, e.off)) == true
  }

  /** The slices at all other offsets are the same, with the same references. */
  ghost predicate OthersHeld(held: set<Pool.Slice>, held': set<Pool.Slice>, off: nat) {
    forall s: Pool.Slice :: s.off != off ==> (s in held <==> s in held')
  }

  lemma {:induction false} LeftSound(v: View, v': View, e: Entry, half: nat, user: bool)
    requires Sound(v, half) && Left(v, v', e) && AllBounded(v'.quota) && e !in v'.list && v'.list == v.list
    requires SliceOf(e, user) in v.held && v.held - {SliceOf(e, user)} <= v'.held
    ensures Sound(v', half)
  {
    LedgerSub(v.quota, v'.quota, v.order, v.live, e, v.accounted, half);
    BackedWithout(v.held, v.live, e, user, v'.held);
    DistinctWithout(v.live, e);
    MembersLeft(v.list, v.live, e);
  }

  lemma {:induction false} SameSound(v: View, q: seq<Account>, half: nat)
    requires Sound(v, half) && AllBounded(q) && SameAccounts(v.quota, q)
    ensures Sound(v.(quota := q), half)
  {
    LedgerSame(v.quota, q, v.order, v.live, v.accounted, half);
  }

  /**
   Quota fairness: `v.order` lists the users whose entries occupy the incoming half, k of them,
   and (2/3)^k of it stays free; no set of senders ever fills it.
   */
  lemma {:induction false} IncomingHalfNeverFull(v: View, half: nat)
    requires Sound(v, half)
    ensures NoDup(v.order) && forall u: nat :: u in v.order <==> Usage(v.live, u).memory > 0
    ensures Total(v.live) == v.accounted <= half
    ensures Pow(3, |v.order|) * (half - v.accounted) >= Pow(2, |v.order|) * half
    ensures 0 < half ==> v.accounted < half
  {
    FairnessBound(v.quota, v.order, half);
    forall u: nat ensures u in v.order <==> Usage(v.live, u).memory > 0 {
      assert BookOk(v.quota, v.live, u);
    }
  }

  lemma {:induction false} EmptySound(half: nat)
    ensures Sound(View([], [], [], [], {}, 0), half)
  {
    forall u: nat ensures BookOk([], [], u) {
    }
  }

  datatype Error = NoMemory | NoBuffers | TooManyFds | PoolFull | CopyFault | Invalid | Again
  datatype Result<T> = Ok(value: T) | Err(error: Error)

  /** What allocations and copies have in store: of the quota array, of a slice, of the message. */
  datatype Luck = Luck(quotaOom: bool, sliceOom: bool, copyFails: bool)

  /** An attempt to store a message at a receiver in the given state. */
  datatype Try = Try(view: View, slices: seq<Pool.Slice>, half: nat, msg: Entry, luck: Luck)

  /** Why it fails, if it does. */
  ghost function WhyNot(t: Try): Option<Error> {
    var a, e := At(t.view.quota, t.msg.user), t.msg;
    if |t.view.quota| <= e.user && t.luck.quotaOom then Some(NoMemory)
    else if !Fits(a, e.size, t.half, t.view.accounted) || AtLimit(a, e.size) then Some(NoBuffers)
    else if a.fds + e.fds > MAX_FDS then Some(TooManyFds)
    else if Pool.NoFit(t.slices, e.size) then Some(PoolFull)
    else if t.luck.sliceOom && !Pool.ExactFit(t.slices, e.size) then Some(NoMemory)
    else if t.luck.copyFails then Some(CopyFault)
    else None
  }

  /**
   A message is stored exactly if its sender keeps within a third of what the others leave of the incoming half,
   within 32 bits, 256 messages and 16 descriptors, if a free slice is large enough, and if allocations and the
   copy succeed.
   */
  lemma {:induction false} StoredExactly(t: Try)
    requires AllBounded(t.view.quota)
    ensures WhyNot(t).None? <==>
      var q, e := t.view.quota, t.msg;
      var a := if e.user < |q| then q[e.user] else Account(0, 0, 0);
      && (e.user < |q| || !t.luck.quotaOom)
      && t.view.accounted <= t.half && a.memory + e.size <= (t.half - t.view.accounted + a.memory) / 3
      && a.memory + e.size <= 0xFFFF_FFFF && a.msgs < 256 && a.fds + e.fds <= 16
      && (exists i :: 0 <= i < |t.slices| && t.slices[i].free && t.slices[i].size >= e.size)
      && (t.luck.sliceOom ==> exists i :: 0 <= i < |t.slices| && t.slices[i].free && t.slices[i].size == e.size)
      && !t.luck.copyFails
  {
  }

  class Conn {
    const pool: Pool.Pool
    const queue: MsgQueue
    const acceptFd: bool
    var quota: seq<Account>
    var lostCount: nat
    ghost var live: seq<Entry>       // entries that own a slice, queued or not
    ghost var order: seq<nat>        // users holding bytes, by their last accepted message

    ghost function Now(): View
      reads this, pool, queue
    {
      View(queue.msgList, live, quota, order, pool.Held(), pool.accountedSize)
    }

    ghost predicate Valid()
      reads this, pool, queue
    {
      (Solvent() && queue.Valid()) == true
    }

    /** The accounts agree, whatever the state of the priority tree. */
    ghost predicate Solvent()
      reads this, pool, queue
    {
      (pool.Valid() && Sound(Now(), pool.size / 2)) == true
    }

    /** An attempt to store the message here and now. */
    ghost function Trying(msg: Entry, luck: Luck): Try
      reads this, pool, queue
    {
      Try(Now(), pool.slices, pool.size / 2, msg, luck)
    }

    constructor (poolSize: nat, acceptFd: bool)
      requires 0 < poolSize && poolSize % 8 == 0
      ensures Valid() && live == [] && queue.msgList == [] && lostCount == 0 && fresh(pool) && fresh(queue)
      ensures pool.size == poolSize && this.acceptFd == acceptFd
    {
      pool := new Pool.Pool(poolSize);
      queue := new MsgQueue();
      this.acceptFd := acceptFd;
      quota, lostCount, live, order := [], 0, [], [];
    }

    /** Account a message to its sender and take a slice for it, or do neither. */
    method Reserve(proto: Entry, luck: Luck) returns (r: Result<Entry>)
      requires Valid() && WholeUnits(proto) && proto.fds < TWO_64
      requires forall x :: x in live ==> x.id != proto.id
      modifies this`quota, this`live, this`order, pool
      ensures Valid() && Reserved(old(Trying(proto, luck)), Now(), pool.slices, r)
    {
      ghost var attempt := Trying(proto, luck);
      ghost var later;
      r, quota, later := Admit(pool, quota, proto, luck, attempt);
      order, live := later.order, later.live;
      assert Now() == later;
    }

    /** Give the slice of an unqueued entry and its share of the quota back. */
    method Unreserve(e: Entry)
      requires Solvent() && e in live && e !in queue.msgList
      modifies this`quota, this`live, this`order, pool
      ensures Solvent() && Left(old(Now()), Now(), e)
      ensures Released(old(pool.slices), pool.slices, e)
    {
      ghost var now := Now();
      ghost var later;
      quota, later := DropSlice(pool, now, quota, e);
      order, live := later.order, later.live;
      assert Now() == later;
    }

    /**
     kdbus_queue_entry_new. It succeeds exactly if nothing stands against it, and on every failure
     the connection is left as it was.
     */
    method EntryNew(proto: Entry, luck: Luck) returns (r: Result<Entry>)
      requires Valid() && WholeUnits(proto) && proto.fds < TWO_64
      requires forall x :: x in live ==> x.id != proto.id
      modifies this`quota, this`live, this`order, pool
      ensures Valid() && Stored(old(Trying(proto, luck)), Now(), pool.slices, r)
    {
      ghost var attempt := Trying(proto, luck);
      r := Reserve(proto, luck);
      ReservedOr(attempt, Now(), pool.slices, r);
      if r.Ok? && luck.copyFails {
        GiveUp(r.value, attempt);
        r := Err(CopyFault);
      }
    }

    /** The message could not be copied. */
    method GiveUp(e: Entry, ghost attempt: Try)
      requires Valid() && WholeUnits(e) && Pool.Layout(attempt.slices, pool.size)
      requires attempt.view.held == Pool.BusySlices(attempt.slices)
      requires forall x :: x in attempt.view.live ==> x.id != e.id
      requires Admitted(attempt.view, Now(), attempt.slices, pool.slices, attempt.msg, e) && e !in queue.msgList
      modifies this`quota, this`live, this`order, pool
      ensures Valid() && Undisturbed(attempt.view, Now(), attempt.slices, pool.slices)
    {
      ghost var during, ss := Now(), pool.slices;
      AbsentId(attempt.view.live, e);
      Unreserve(e);
      Undone(attempt.view, during, Now(), e, attempt.slices, ss, pool.slices, pool.size);
    }

    /** kdbus_queue_entry_enqueue. */
    method EntryEnqueue(e: Entry)
      requires Valid() && e in live && e !in queue.msgList
      modifies queue
      ensures Valid() && Now() == old(Now()).(list := old(queue.msgList) + [e])
    {
      DistinctIds(live, queue.msgList, e);
      queue.Link(e);
    }

    /**
     kdbus_conn_entry_make and the queueing part of kdbus_conn_entry_insert. `active` is the state of
     the connection and `entryOom` the outcome of allocating the entry.
     */
    method EntryInsert(proto: Entry, active: bool, entryOom: bool, luck: Luck) returns (r: Option<Entry>)
      requires Valid() && WholeUnits(proto) && proto.fds < TWO_64
      requires forall x :: x in live ==> x.id != proto.id
      modifies this`quota, this`live, this`order, pool, queue
      ensures Valid() && InsertedIf(old(Trying(proto, luck)), active && !entryOom, acceptFd, Now(), pool.slices, r)
      ensures r.Some? ==> active && !entryOom && (acceptFd || proto.fds == 0)
      ensures queue.msgList == old(queue.msgList) + if r.Some? then [proto.(off := r.value.off)] else []
    {
      if !active || (!acceptFd && proto.fds > 0) || entryOom {
        return None;
      }
      r := StoreAndQueue(proto, luck);
    }

    method StoreAndQueue(proto: Entry, luck: Luck) returns (r: Option<Entry>)
      requires Valid() && WholeUnits(proto) && proto.fds < TWO_64
      requires forall x :: x in live ==> x.id != proto.id
      modifies this`quota, this`live, this`order, pool, queue
      ensures Valid() && InsertedIf(old(Trying(proto, luck)), true, true, Now(), pool.slices, r)
    {
      ghost var attempt := Trying(proto, luck);
      var s := EntryNew(proto, luck);
      StoredInserts(attempt, Now(), pool.slices, s);
      if s.Err? {
        return None;
      }
      EntryEnqueue(s.value);
      return Some(s.value);
    }

    /**
     kdbus_queue_entry_free. The accounts agree afterwards in any case, the priority tree remains
     intact exactly if the entry was not queued or in the tree; `zeroed` is as for Unlink.
     */
    method EntryFree(e: Entry, ghost zeroed: bool)
      requires Valid() && e in live && (e in queue.msgList ==> Oldest(queue.msgList, e) || zeroed)
      modifies this`quota, this`live, this`order, pool, queue
      ensures Solvent() && Freed(old(Now()), Now(), old(pool.slices), pool.slices, e)
      ensures Valid() <==> (e in old(queue.msgList) ==> Oldest(old(queue.msgList), e))
    {
      ghost var now := Now();
      Dislodge(e, zeroed);
      ghost var mid := Now();
      Unreserve(e);
      LeftList(now, mid, Now(), e);
    }

    /** The entry leaves the queue, if it is there. */
    method Dislodge(e: Entry, ghost zeroed: bool)
      requires Valid() && e in live && (e in queue.msgList ==> Oldest(queue.msgList, e) || zeroed)
      modifies queue
      ensures Solvent() && e !in queue.msgList
      ensures queue.Valid() <==> (e in old(queue.msgList) ==> Oldest(old(queue.msgList), e))
      ensures Now() == old(Now()).(list := Minus(old(queue.msgList), e))
    {
      if e in queue.msgList {
        ghost var now := Now();
        GoneFrom(queue.msgList, e);
        queue.Unlink(e, zeroed);
        FewerSound(now, queue.msgList, pool.size / 2);
      } else {
        WithoutAbsent(queue.msgList, e);
      }
    }

    /**
     The receiving part of kdbus_cmd_recv; `installFails` is the outcome of installing file
     descriptors. A received message stays in the pool until user space releases its offset.
     */
    method Recv(drop: bool, peek: bool, usePriority: bool, bound: int, installFails: bool)
      returns (r: Received, lost: nat, ghost e: Option<Entry>)
      requires Valid()
      modifies this`quota, this`live, this`order, this`lostCount, pool, queue
      ensures Valid()
      ensures r == Failed(Invalid) <==> drop && usePriority
      ensures r == Failed(Again) <==> !(drop && usePriority) && NoneWithin(old(queue.msgList), usePriority, bound)
      ensures r == Failed(CopyFault) <==> installFails && !drop && !NoneWithin(old(queue.msgList), usePriority, bound)
      ensures r.Failed? ==> Now() == old(Now()) && pool.slices == old(pool.slices)
      ensures r.Failed? ==> r.error in {Invalid, Again, CopyFault}
      ensures r == Dropped <==> drop && !r.Failed?
      ensures !r.Failed? ==> e.Some? && Took(old(Now()), Now(), usePriority, bound, r == Dropped || !peek, e.value)
      ensures r.Message? ==> r == Message(e.value.off, e.value.size)
      ensures r.Message? ==> Published(pool.slices, r.off, r.size)
      ensures r == Failed(Invalid) || r == Failed(CopyFault) ==> lost == 0 && lostCount == old(lostCount)
      ensures r != Failed(Invalid) && r != Failed(CopyFault) ==> lost == old(lostCount) && lostCount == 0
      ensures r == Failed(Again) <==>
        && !(drop && usePriority)
        && if usePriority then forall x :: x in old(queue.msgList) ==> x.priority > bound
           else old(queue.msgList) == []
      ensures !r.Failed? ==>
        && e.value in old(queue.msgList)
        && if usePriority
           then e.value.priority <= bound && forall x :: x in old(queue.msgList) ==> e.value.priority <= x.priority
           else e.value == old(queue.msgList)[0]
      ensures queue.msgList ==
        if r == Dropped || (r.Message? && !peek) then Minus(old(queue.msgList), e.value) else old(queue.msgList)
    {
      if drop && usePriority {
        return Failed(Invalid), 0, None;
      }
      r, e := Dequeue(drop, peek, usePriority, bound, installFails);
      if r == Failed(CopyFault) {
        return r, 0, e;
      }
      lost, lostCount := lostCount, 0;
    }

    method Dequeue(drop: bool, peek: bool, usePriority: bool, bound: int, installFails: bool)
      returns (r: Received, ghost e: Option<Entry>)
      requires Valid()
      modifies this`quota, this`live, this`order, pool, queue
      ensures Valid()
      ensures r == Failed(Again) <==> NoneWithin(old(queue.msgList), usePriority, bound)
      ensures r == Failed(CopyFault) <==> installFails && !drop && !NoneWithin(old(queue.msgList), usePriority, bound)
      ensures r == Dropped <==> drop && !r.Failed?
      ensures r.Failed? ==> r.error in {Again, CopyFault} && Now() == old(Now()) && pool.slices == old(pool.slices)
      ensures !r.Failed? ==> e.Some? && Took(old(Now()), Now(), usePriority, bound, r == Dropped || !peek, e.value)
      ensures r.Message? ==> r == Message(e.value.off, e.value.size) && Published(pool.slices, r.off, r.size)
    {
      var p := queue.Peek(bound, usePriority);
      e := p;
      if p.None? {
        return Failed(Again), e;
      }
      if drop {
        EntryFree(p.value, false);
        return Dropped, e;
      }
      if installFails {
        return Failed(CopyFault), e;
      }
      r := Deliver(p.value, peek);
    }

    /** Publish the entry's slice to user space and, unless only peeking, free the entry. */
    method Deliver(e: Entry, peek: bool) returns (r: Received)
      requires Valid() && e in queue.msgList && Oldest(queue.msgList, e)
      modifies this`quota, this`live, this`order, pool, queue
      ensures Valid() && r == Message(e.off, e.size) && Published(pool.slices, e.off, e.size)
      ensures peek ==> Now() == old(Now()).(held := pool.Held()) && OthersHeld(old(pool.Held()), pool.Held(), e.off)
      ensures !peek ==> queue.msgList == Minus(old(queue.msgList), e)
      ensures !peek ==> Left(old(Now()), Now(), e)
    {
      ghost var now := Now();
      r := Show(e);
      if !peek {
        ghost var ss, mid := pool.slices, Now();
        EntryFree(e, false);
        StillPublished(ss, pool.slices, e, pool.size);
        LeftSame(now, mid, Now(), e);
      }
    }

    /** kdbus_pool_slice_publish for an entry: user space may hold its slice already. */
    method Show(e: Entry) returns (r: Received)
      requires Valid() && e in queue.msgList
      modifies pool
      ensures Valid() && r == Message(e.off, e.size) && e in live && SliceOf(e, true) in pool.slices
      ensures Now() == old(Now()).(held := pool.Held()) && OthersHeld(old(pool.Held()), pool.Held(), e.off)
    {
      ghost var now := Now();
      assert e in live && Backing(pool.Held(), e);
      ghost var user := SliceOf(e, true) in pool.Held();
      Located(pool, SliceOf(e, user));
      var off, size := pool.Publish(e.off);
      PublishedSound(now, e, user, pool.size / 2);
      assert Now() == now.(held := now.held - {SliceOf(e, user)} + {SliceOf(e, true)});
      return Message(off, size);
    }

    /** KDBUS_CMD_FREE: user space returns the slice at an offset; queued messages are unaffected. */
    method Free(off: nat) returns (ok: bool)
      requires Valid()
      modifies pool
      ensures Valid() && Now() == old(Now()).(held := pool.Held())
      ensures ok <==>
        off == pool.size || (old(pool.SliceAt(off)) && old(pool.slices)[Pool.Index(old(pool.slices), off)].refUser)
      ensures if ok && off != pool.size
        then GivenBack(old(pool.Held()), pool.Held(), old(pool.slices)[Pool.Index(old(pool.slices), off)])
        else pool.slices == old(pool.slices)
    {
      ghost var now, ss := Now(), pool.slices;
      ok := pool.ReleaseOffset(off);
      if ok && off != pool.size {
        UnpublishedSound(now, ss[Pool.Index(ss, off)], pool.Held(), pool.size / 2);
      }
    }
  }

  /** Allocation for an entry, whose size is a multiple of 8 already. */
  method AllocFor(pool: Pool.Pool, proto: Entry, oom: bool) returns (a: Pool.AllocResult)
    requires pool.Valid() && WholeUnits(proto)
    modifies pool
    ensures pool.Valid()
    ensures a.Allocated? ==>
      && Allocated(old(pool.Held()), pool.Held(), proto.(off := a.off))
      && Taken(old(pool.slices), pool.slices, proto.(off := a.off))
    ensures a.Allocated? ==> pool.accountedSize == old(pool.accountedSize) + proto.size
    ensures a.AllocFailed? ==> pool.slices == old(pool.slices) && pool.accountedSize == old(pool.accountedSize)
    ensures a == Pool.AllocFailed(Pool.EXFULL) <==> Pool.NoFit(old(pool.slices), proto.size)
    ensures a == Pool.AllocFailed(Pool.ENOMEM) <==>
      oom && !Pool.NoFit(old(pool.slices), proto.size) && !Pool.ExactFit(old(pool.slices), proto.size)
    ensures a != Pool.AllocFailed(Pool.EINVAL)
  {
    AlignedStays(proto.size);
    a := pool.Alloc(proto.size, true, oom);
  }

  /** The quota q already charges the message: find a slice for it or withdraw the charge. */
  method TakeSlice(pool: Pool.Pool, q: seq<Account>, proto: Entry, oom: bool, ghost now: View)
    returns (r: Result<Entry>, q': seq<Account>)
    requires pool.Valid() && Sound(now, pool.size / 2) && now.held == pool.Held() && now.accounted == pool.accountedSize
    requires WholeUnits(proto) && forall x :: x in now.live ==> x.id != proto.id
    requires
      && AllBounded(q) && Charged(now.quota, q, proto)
      && Fits(At(now.quota, proto.user), proto.size, pool.size / 2, now.accounted)
    modifies pool
    ensures pool.Valid()
    ensures r.Ok? ==> q' == q && r.value == proto.(off := r.value.off) && Taken(old(pool.slices), pool.slices, r.value)
    ensures r.Ok? ==> Sound(Joined(now, q, r.value), pool.size / 2) && Allocated(now.held, pool.Held(), r.value)
    ensures r.Ok? ==> pool.accountedSize == now.accounted + proto.size
    ensures r.Err? ==> Sound(now.(quota := q'), pool.size / 2) && SameAccounts(now.quota, q')
    ensures r.Err? ==> pool.slices == old(pool.slices) && pool.accountedSize == now.accounted
    ensures
      SliceError(old(pool.slices), proto.size, oom) == if r.Ok? then None else Some(r.error)
  {
    q' := q;
    var a := AllocFor(pool, proto, oom);
    if a.AllocFailed? {
      var warned;
      q', warned := QuotaDec(q, proto.user, proto.size, proto.fds);
      assert !warned;
      Withdrawn(now.quota, q, q', proto);
      SameSound(now, q', pool.size / 2);
      return Err(if a.error == Pool.EXFULL then PoolFull else NoMemory), q';
    }
    JoinedSound(now, q, proto.(off := a.off), pool.size / 2);
    return Ok(proto.(off := a.off)), q';
  }

  ghost function SliceError(ss: seq<Pool.Slice>, size: nat, oom: bool): Option<Error> {
    if Pool.NoFit(ss, size) then Some(PoolFull)
    else if oom && !Pool.ExactFit(ss, size) then Some(NoMemory)
    else None
  }

  method Admit(pool: Pool.Pool, quota: seq<Account>, proto: Entry, luck: Luck, ghost attempt: Try)
    returns (r: Result<Entry>, q: seq<Account>, ghost later: View)
    requires pool.Valid() && attempt == Try(attempt.view, pool.slices, pool.size / 2, proto, luck)
    requires Agrees(pool, attempt.view) && Sound(attempt.view, pool.size / 2) && quota == attempt.view.quota
    requires WholeUnits(proto) && proto.fds < TWO_64 && forall x :: x in attempt.view.live ==> x.id != proto.id
    modifies pool
    ensures pool.Valid() && Agrees(pool, later) && later.list == attempt.view.list && later.quota == q
    ensures Sound(later, pool.size / 2) && Reserved(attempt, later, pool.slices, r)
  {
    ghost var now := attempt.view;
    var v;
    v, q := QuotaInc(quota, proto.user, proto.size, proto.fds, pool.size, pool.accountedSize, luck.quotaOom);
    WhyQuota(attempt, v);
    if v != Accepted {
      SameSound(now, q, pool.size / 2);
      return Err(QuotaError(v)), q, now.(quota := q);
    }
    WhySlice(attempt);
    r, q := TakeSlice(pool, q, proto, luck.sliceOom, now);
    later := if r.Ok? then Joined(now, q, r.value) else now.(quota := q);
  }

  function QuotaError(v: Verdict): Error {
    match v
    case ENOMEM => NoMemory
    case EMFILE => TooManyFds
    case _ => NoBuffers
  }

  /** The attempt, once the message need not be copied. */
  ghost function Uncopied(t: Try): Try {
    t.(luck := t.luck.(copyFails := false))
  }

  ghost predicate QuotaAllows(t: Try) {
    && !(|t.view.quota| <= t.msg.user && t.luck.quotaOom)
    && Fits(At(t.view.quota, t.msg.user), t.msg.size, t.half, t.view.accounted)
    && !AtLimit(At(t.view.quota, t.msg.user), t.msg.size) && At(t.view.quota, t.msg.user).fds + t.msg.fds <= MAX_FDS
  }

  lemma {:induction false} WhyQuota(t: Try, v: Verdict)
    requires var a, e := At(t.view.quota, t.msg.user), t.msg;
      && (v == ENOMEM <==> |t.view.quota| <= e.user && t.luck.quotaOom)
      && (v != ENOMEM ==> (v == ENOBUFS <==> !Fits(a, e.size, t.half, t.view.accounted) || AtLimit(a, e.size)))
      && (v == EMFILE ==> a.fds + e.fds > MAX_FDS) && (v == Accepted ==> a.fds + e.fds <= MAX_FDS)
    ensures if v == Accepted then QuotaAllows(t) else WhyNot(Uncopied(t)) == Some(QuotaError(v))
  {
  }

  lemma {:induction false} WhySlice(t: Try)
    requires QuotaAllows(t)
    ensures WhyNot(Uncopied(t)) == SliceError(t.slices, t.msg.size, t.luck.sliceOom)
  {
  }

  /** The pool is as the view says. */
  ghost predicate Agrees(pool: Pool.Pool, v: View)
    reads pool
  {
    v.held == pool.Held() && v.accounted == pool.accountedSize
  }

  ghost predicate Admitted(v: View, v': View, ss: seq<Pool.Slice>, ss': seq<Pool.Slice>, proto: Entry, e: Entry) {
    (&& e == proto.(off := e.off) && v' == Joined(v, v'.quota, e) && Charged(v.quota, v'.quota, proto)
     && Taken(ss, ss', e)) == true
  }

  /** The outcome of an attempt, short of copying the message. */
  ghost predicate Reserved(t: Try, v': View, ss': seq<Pool.Slice>, r: Result<Entry>) {
    (&& WhyNot(Uncopied(t)) == (if r.Ok? then None else Some(r.error))
     && (if r.Ok? then Admitted(t.view, v', t.slices, ss', t.msg, r.value)
         else v' == t.view.(quota := v'.quota) && SameAccounts(t.view.quota, v'.quota) && ss' == t.slices)) == true
  }

  /** The outcome of an attempt: stored exactly if nothing stands against it, and no trace of it otherwise. */
  ghost predicate Stored(t: Try, v': View, ss': seq<Pool.Slice>, r: Result<Entry>) {
    (&& WhyNot(t) == (if r.Ok? then None else Some(r.error))
     && (if r.Ok? then Admitted(t.view, v', t.slices, ss', t.msg, r.value)
         else Undisturbed(t.view, v', t.slices, ss'))) == true
  }

  lemma {:induction false} ReservedOr(t: Try, v': View, ss': seq<Pool.Slice>, r: Result<Entry>)
    requires Reserved(t, v', ss', r)
    ensures r.Err? || !t.luck.copyFails ==> Stored(t, v', ss', r)
    ensures r.Ok? && t.luck.copyFails ==> WhyNot(t) == Some(CopyFault)
    ensures r.Ok? ==> Admitted(t.view, v', t.slices, ss', t.msg, r.value)
  {
  }

  /** Quota and slice of an unqueued entry are given back; no warning about an underflow fires. */
  method DropSlice(pool: Pool.Pool, ghost now: View, quota: seq<Account>, e: Entry)
    returns (q: seq<Account>, ghost later: View)
    requires
      && pool.Valid() && Sound(now, pool.size / 2) && now.held == pool.Held() && now.accounted == pool.accountedSize
      && quota == now.quota
    requires e in now.live && e !in now.list
    modifies pool
    ensures pool.Valid() && Released(old(pool.slices), pool.slices, e)
    ensures
      && later.list == now.list && later.quota == q && later.held == pool.Held()
      && later.accounted == pool.accountedSize
    ensures Sound(later, pool.size / 2) && Left(now, later, e)
  {
    LedgerCovers(quota, now.live, e);
    var warned;
    q, warned := QuotaDec(quota, e.user, e.size, e.fds);
    assert !warned;
    assert Backing(pool.Held(), e);
    ghost var user := SliceOf(e, true) in pool.Held();
    Located(pool, SliceOf(e, user));
    ghost var i := Pool.Index(pool.slices, e.off);
    pool.SliceRelease(e.off);
    later := View(now.list, Minus(now.live, e), q, OrderWithout(q, now.order, e.user), pool.Held(), pool.accountedSize);
    LeftSound(now, later, e, pool.size / 2, user);
    assert ReleasedAt(old(pool.slices), pool.slices, e, i);
  }

  ghost predicate Allocated(held: set<Pool.Slice>, held': set<Pool.Slice>, e: Entry) {
    held' == held + {SliceOf(e, false)} && forall s :: s in held ==> s.off != e.off
  }

  lemma {:induction false} Withdrawn(q: seq<Account>, q1: seq<Account>, q2: seq<Account>, e: Entry)
    requires Charged(q, q1, e) && SameBut(q1, q2, e.user) && At(q1, e.user) == Plus(At(q2, e.user), Charge(e, e.user))
    ensures SameAccounts(q, q2)
  {
    forall u: nat ensures At(q2, u) == At(q, u) {
      assert u != e.user ==> At(q2, u) == At(q1, u) && At(q1, u) == At(q, u);
      PlusCancel(At(q2, e.user), At(q, e.user), Charge(e, e.user));
    }
  }

  datatype Received = Message(off: nat, size: nat) | Dropped | Failed(error: Error)

  ghost predicate Took(v: View, v': View, usePriority: bool, bound: int, removed: bool, e: Entry) {
    (&& Chosen(v.list, usePriority, bound, e)
     && (if removed then v'.list == Minus(v.list, e) && Left(v, v', e)
         else v' == v.(held := v'.held) && OthersHeld(v.held, v'.held, e.off))) == true
  }

  /** User space holds a reference to a slice at that offset. */
  ghost predicate Published(ss: seq<Pool.Slice>, off: nat, size: nat) {
    exists k :: 0 <= k < |ss| && ss[k].off == off && ss[k].size == size && ss[k].refUser && !ss[k].free
  }

  lemma {:induction false} StillPublished(ss: seq<Pool.Slice>, ss': seq<Pool.Slice>, e: Entry, size: nat)
    requires Pool.Layout(ss, size) && SliceOf(e, true) in ss && Released(ss, ss', e)
    ensures Published(ss', e.off, e.size)
  {
    var k :| 0 <= k < |ss| && ss[k] == SliceOf(e, true);
    var j: nat :| ReleasedAt(ss, ss', e, j);
    SameSpot(ss, j, k, size);
    assert ss'[k].off == e.off && ss'[k].size == e.size && ss'[k].refUser && !ss'[k].free;
  }

  lemma {:induction false} PublishedSound(v: View, e: Entry, user: bool, half: nat)
    requires Sound(v, half) && e in v.live && SliceOf(e, user) in v.held
    ensures Sound(v.(held := v.held - {SliceOf(e, user)} + {SliceOf(e, true)}), half)
  {
    var held := v.held - {SliceOf(e, user)} + {SliceOf(e, true)};
    forall x | x in v.live ensures Backing(held, x) {
      assert Backing(v.held, x);
    }
  }

  /** User space no longer holds the slice: it stays only for an entry that still needs it. */
  ghost predicate GivenBack(held: set<Pool.Slice>, held': set<Pool.Slice>, s: Pool.Slice) {
    s.refUser && held' == held - {s} + (if s.refKernel then {s.(refUser := false)} else {})
  }

  lemma {:induction false} UnpublishedSound(v: View, s: Pool.Slice, held: set<Pool.Slice>, half: nat)
    requires Sound(v, half) && GivenBack(v.held, held, s)
    ensures Sound(v.(held := held), half)
  {
    forall x | x in v.live ensures Backing(held, x) {
      assert Backing(v.held, x);
      assert SliceOf(x, true) == s ==> SliceOf(x, false) == s.(refUser := false);
    }
  }

  /** The entry left the queue, the accounts and the pool. */
  ghost predicate Freed(v: View, v': View, ss: seq<Pool.Slice>, ss': seq<Pool.Slice>, e: Entry) {
    (Left(v, v', e) && v'.list == Minus(v.list, e) && Released(ss, ss', e)) == true
  }

  lemma {:induction false} LeftList(v: View, mid: View, v': View, e: Entry)
    requires Left(mid, v', e) && mid == v.(list := mid.list)
    ensures Left(v, v', e)
  {
  }

  lemma {:induction false} LeftSame(v: View, mid: View, v': View, e: Entry)
    requires Left(mid, v', e) && mid == v.(held := mid.held) && OthersHeld(v.held, mid.held, e.off)
    ensures Left(v, v', e)
  {
  }

  /** Nothing changed but the length of the quota array. */
  ghost predicate Untouched(v: View, v': View) {
    && v'.list == v.list && v'.live == v.live && v'.held == v.held && v'.accounted == v.accounted
    && SameAccounts(v.quota, v'.quota)
  }

  ghost predicate Undisturbed(v: View, v': View, ss: seq<Pool.Slice>, ss': seq<Pool.Slice>) {
    (Untouched(v, v') && Pool.Shape(ss') == Pool.Shape(ss)) == true
  }

  lemma {:induction false} WithoutLast(live: seq<Entry>, e: Entry)
    requires e !in live
    ensures Minus(live + [e], e) == live
    decreases |live|
  {
    if live == [] {
      assert live + [e] == [e] && [e][1..] == live;
    } else {
      assert (live + [e])[1..] == live[1..] + [e];
      WithoutLast(live[1..], e);
    }
  }

  lemma {:induction false} AbsentId(live: seq<Entry>, e: Entry)
    requires forall x :: x in live ==> x.id != e.id
    ensures e !in live
  {
  }

  lemma {:induction false} DistinctIds(live: seq<Entry>, list: seq<Entry>, e: Entry)
    requires Distinct(live) && AllLive(list, live) && e in live && e !in list
    ensures forall x :: x in list ==> x.id != e.id
  {
  }

  lemma {:induction false} GoneFrom(list: seq<Entry>, e: Entry)
    requires Distinct(list)
    ensures e !in Minus(list, e) && forall x :: x in Minus(list, e) ==> x in list
  {
    MinusMembers(list, e);
  }

  lemma {:induction false} FewerSound(v: View, list: seq<Entry>, half: nat)
    requires Sound(v, half) && forall e :: e in list ==> e in v.list
    ensures Sound(v.(list := list), half)
  {
  }

  /** Allocating a slice for an entry and releasing it restores the layout of the pool. */
  lemma {:induction false} SliceRestored(
    ss: seq<Pool.Slice>, ss1: seq<Pool.Slice>, ss2: seq<Pool.Slice>, e: Entry, size: nat)
    requires Pool.Layout(ss, size) && Taken(ss, ss1, e) && Released(ss1, ss2, e) && WholeUnits(e)
    ensures Pool.Shape(ss2) == Pool.Shape(ss) && Pool.BusySlices(ss2) == Pool.BusySlices(ss)
  {
    var i: nat :| Pool.CarvedFrom(ss, ss1, i, e.size, true, e.off);
    var j: nat :| ReleasedAt(ss1, ss2, e, j);
    Pool.CarveLayout(ss, i, e.size, true, size);
    assert ss1[i] == SliceOf(e, false);
    SameSpot(ss1, i, j, size);
    Pool.AllocReleaseRestores(ss, i, e.size, true, size);
    HeldRestored(ss, i, e, size);
  }

  lemma {:induction false} SameSpot(ss: seq<Pool.Slice>, i: nat, j: nat, size: nat)
    requires Pool.Tiles(ss, 0, size) && i < |ss| && j < |ss| && ss[i].off == ss[j].off
    ensures i == j
  {
    if i < j {
      Pool.OffsetsDistinct(ss, 0, size, i, j);
    } else if j < i {
      Pool.OffsetsDistinct(ss, 0, size, j, i);
    }
  }

  lemma {:induction false} HeldRestored(ss: seq<Pool.Slice>, i: nat, e: Entry, size: nat)
    requires
      && Pool.Layout(ss, size) && i < |ss| && ss[i].free && ss[i].off == e.off && 0 < e.size <= ss[i].size
      && e.size % 8 == 0
    ensures var ss1 := Pool.Carve(ss, i, e.size, true);
      Pool.BusySlices(Pool.Coalesce(ss1[i := ss1[i].(refKernel := false)], i)) == Pool.BusySlices(ss)
  {
    var ss1 := Pool.Carve(ss, i, e.size, true);
    Pool.CarveLayout(ss, i, e.size, true, size);
    Pool.CarveHeld(ss, i, e.size, true);
    Pool.ReleaseHeld(ss1, i, size);
    Pool.FreshOffset(ss, i, size);
    assert SliceOf(e, false) !in Pool.BusySlices(ss);
  }

  lemma {:induction false} Undone(
    v: View, v1: View, v2: View, e: Entry, ss: seq<Pool.Slice>, ss1: seq<Pool.Slice>, ss2: seq<Pool.Slice>, size: nat)
    requires
      && v1 == Joined(v, v1.quota, e) && Charged(v.quota, v1.quota, e) && e !in v.live && Left(v1, v2, e)
      && v2.list == v.list
    requires v.held == Pool.BusySlices(ss) && v2.held == Pool.BusySlices(ss2)
    requires Pool.Layout(ss, size) && Taken(ss, ss1, e) && Released(ss1, ss2, e) && WholeUnits(e)
    ensures Untouched(v, v2) && Pool.Shape(ss2) == Pool.Shape(ss)
  {
    WithoutLast(v.live, e);
    Withdrawn(v.quota, v1.quota, v2.quota, e);
    SliceRestored(ss, ss1, ss2, e, size);
  }

  ghost predicate Charged(q: seq<Account>, q': seq<Account>, e: Entry) {
    SameBut(q, q', e.user) && At(q', e.user) == Plus(At(q, e.user), Charge(e, e.user))
  }

  /** Best-fit allocation of the entry's slice. */
  ghost predicate Taken(ss: seq<Pool.Slice>, ss': seq<Pool.Slice>, e: Entry) {
    exists i :: Pool.CarvedFrom(ss, ss', i, e.size, true, e.off)
  }

  ghost predicate ReleasedAt(ss: seq<Pool.Slice>, ss': seq<Pool.Slice>, e: Entry, i: nat) {
    && i < |ss| && ss[i] == SliceOf(e, ss[i].refUser)
    && var ss1 := ss[i := ss[i].(refKernel := false)];
      ss' == if ss[i].refUser then ss1 else Pool.Coalesce(ss1, i)
  }

  /** The kernel's reference to the entry's slice is gone, and the slice too unless user space holds it. */
  ghost predicate Released(ss: seq<Pool.Slice>, ss': seq<Pool.Slice>, e: Entry) {
    exists i :: ReleasedAt(ss, ss', e, i)
  }

  lemma {:induction false} MembersLeft(list: seq<Entry>, live: seq<Entry>, e: Entry)
    requires e !in list && AllLive(list, live)
    ensures AllLive(list, Minus(live, e))
  {
    forall x | x in list ensures x in Minus(live, e) {
      MinusIn(live, e, x);
    }
  }

  // ---------------------------------------------------------------- takeover

  /** Two connections share neither pool nor queue nor entries. */
  ghost predicate Separate(src: Conn, dst: Conn)
    reads src, dst
  {
    && src != dst && src.pool != dst.pool && src.queue != dst.queue
    && Disjoint(src.live, dst.live)
  }

  /** The message was charged, stored and queued at the tail. */
  ghost predicate Inserted(d: View, d': View, e: Entry, e': Entry) {
    (&& e' == e.(off := e'.off) && Charged(d.quota, d'.quota, e)
     && d' == Joined(d, d'.quota, e').(list := d.list + [e'])) == true
  }

  /** Exactly if nothing is against it; otherwise there is no trace of it. */
  ghost predicate InsertedIf(t: Try, ready: bool, acceptFd: bool, v': View, ss': seq<Pool.Slice>, r: Option<Entry>) {
    (&& (r.Some? <==> ready && Takes(t, acceptFd))
     && (if r.Some? then Inserted(t.view, v', t.msg, r.value) else Undisturbed(t.view, v', t.slices, ss'))) == true
  }

  lemma {:induction false} StoredInserts(t: Try, v: View, ss': seq<Pool.Slice>, s: Result<Entry>)
    requires Stored(t, v, ss', s) && AllLive(t.view.list, t.view.live)
    requires forall x :: x in t.view.live ==> x.id != t.msg.id
    ensures s.Err? ==> InsertedIf(t, true, true, v, ss', None)
    ensures s.Ok? ==>
      && InsertedIf(t, true, true, v.(list := v.list + [s.value]), ss', Some(s.value))
      && s.value in v.live && s.value !in v.list
  {
    if s.Ok? {
      AbsentList(t.view, s.value);
    }
  }

  /** The entry left one connection and joined the tail of the other, at a new offset. */
  ghost predicate Moved(s: View, s': View, d: View, d': View, e: Entry, e': Entry) {
    (Left(s, s', e) && s'.list == Minus(s.list, e) && Inserted(d, d', e, e')) == true
  }

  /**
   kdbus_queue_entry_move. On success the entry leaves the source and joins the tail of the
   destination; on failure neither side changes. The source's tree is as after EntryFree.
   */
  method EntryMove(src: Conn, dst: Conn, e: Entry, luck: Luck, ghost zeroed: bool) returns (r: Result<Entry>)
    requires src.Valid() && dst.Valid() && Separate(src, dst)
    requires e in src.queue.msgList && (Oldest(src.queue.msgList, e) || zeroed)
    modifies src`quota, src`live, src`order, src.pool, src.queue, dst`quota, dst`live, dst`order, dst.pool, dst.queue
    ensures src.Solvent() && dst.Valid() && (src.Valid() <==> r.Err? || Oldest(old(src.queue.msgList), e))
    ensures r.Err? ==> src.pool.slices == old(src.pool.slices)
    ensures MovedIf(old(dst.Trying(e, luck)), old(src.Now()), src.Now(), dst.Now(), dst.pool.slices, r)
  {
    LiveEntry(src.Now(), e, src.pool.size / 2);
    ghost var attempt, s := dst.Trying(e, luck), src.Now();
    r := dst.EntryNew(e, luck);
    ghost var d := dst.Now();
    StoredInserts(attempt, d, dst.pool.slices, r);
    if r.Ok? {
      Transfer(src, dst, e, r.value, zeroed);
      TransferredMoves(attempt, s, src.Now(), d, dst.Now(), dst.pool.slices, r);
    }
  }

  /** Exactly if the destination can store it; otherwise neither side changes. */
  ghost predicate MovedIf(t: Try, s: View, s': View, d': View, ss': seq<Pool.Slice>, r: Result<Entry>) {
    (&& WhyNot(t) == (if r.Ok? then None else Some(r.error))
     && (if r.Ok? then Moved(s, s', t.view, d', t.msg, r.value)
         else s' == s && Undisturbed(t.view, d', t.slices, ss'))) == true
  }

  lemma {:induction false} TransferredMoves(
    t: Try, s: View, s': View, d: View, d': View, ss': seq<Pool.Slice>, r: Result<Entry>)
    requires r.Ok? && Stored(t, d, ss', r) && Transferred(s, s', d, d', t.msg, r.value)
    ensures MovedIf(t, s, s', d', ss', r)
  {
  }

  /** Unlink and free the entry on one side, queue its copy on the other. */
  method Transfer(src: Conn, dst: Conn, e: Entry, e': Entry, ghost zeroed: bool)
    requires src.Valid() && dst.Valid() && src != dst && src.pool != dst.pool && src.queue != dst.queue
    requires e in src.live && e in src.queue.msgList && (Oldest(src.queue.msgList, e) || zeroed)
    requires e' in dst.live && e' !in dst.queue.msgList
    modifies src`quota, src`live, src`order, src.pool, src.queue, dst.queue
    ensures src.Solvent() && dst.Valid() && (src.Valid() <==> Oldest(old(src.queue.msgList), e))
    ensures Transferred(old(src.Now()), src.Now(), old(dst.Now()), dst.Now(), e, e')
  {
    src.EntryFree(e, zeroed);
    dst.EntryEnqueue(e');
  }

  ghost predicate Transferred(s: View, s': View, d: View, d': View, e: Entry, e': Entry) {
    (Left(s, s', e) && s'.list == Minus(s.list, e) && d' == d.(list := d.list + [e'])) == true
  }

  lemma {:induction false} LiveEntry(v: View, e: Entry, half: nat)
    requires Sound(v, half) && e in v.list
    ensures e in v.live && WholeUnits(e) && e.fds <= MAX_FDS
  {
    LedgerCovers(v.quota, v.live, e);
  }

  lemma {:induction false} AbsentList(v: View, e: Entry)
    requires AllLive(v.list, v.live) && forall x :: x in v.live ==> x.id != e.id
    ensures e !in v.list
  {
  }

  /** The destination takes the message: its descriptors, and then all the rest. */
  ghost predicate Takes(t: Try, acceptFd: bool) {
    (acceptFd || t.msg.fds == 0) && WhyNot(t).None?
  }

  /** The fate of one message of a takeover: it arrived as e', or it was freed and counted as lost. */
  ghost predicate Handled(s: View, s': View, d: View, d': View, e: Entry, ok: bool, e': Entry) {
    (&& s'.list == Minus(s.list, e) && s'.live == Minus(s.live, e)
     && (if ok then e' == e.(off := e'.off) && d'.list == d.list + [e'] && d'.live == d.live + [e']
         else d'.list == d.list && d'.live == d.live)) == true
  }

  /** The body of the loop in kdbus_conn_move_messages for an entry that is to move. */
  method MoveOne(src: Conn, dst: Conn, e: Entry, luck: Luck) returns (ok: bool, ghost e': Entry)
    requires src.Valid() && dst.Valid() && Separate(src, dst)
    requires e in src.queue.msgList && Oldest(src.queue.msgList, e)
    modifies src`quota, src`live, src`order, src.pool, src.queue, dst`quota, dst`live, dst`order, dst`lostCount,
      dst.pool, dst.queue
    ensures src.Valid() && dst.Valid()
    ensures Handled(old(src.Now()), src.Now(), old(dst.Now()), dst.Now(), e, ok, e')
    ensures ok <==> Takes(old(dst.Trying(e, luck)), dst.acceptFd)
    ensures dst.lostCount == old(dst.lostCount) + if ok then 0 else 1
  {
    LiveEntry(src.Now(), e, src.pool.size / 2);
    ok, e' := false, e;
    if dst.acceptFd || e.fds == 0 {
      var r := EntryMove(src, dst, e, luck, false);
      if r.Ok? {
        MovedHandled(old(src.Now()), src.Now(), old(dst.Now()), dst.Now(), e, r.value);
        return true, r.value;
      }
    }
    LoseOne(src, dst, e);
    LostHandled(old(src.Now()), src.Now(), old(dst.Now()), dst.Now(), e);
  }

  /** kdbus_conn_lost_message, and the entry is freed. */
  method LoseOne(src: Conn, dst: Conn, e: Entry)
    requires src.Valid() && dst.Valid() && src != dst && src.pool != dst.pool && src.queue != dst.queue
    requires e in src.live && e in src.queue.msgList && Oldest(src.queue.msgList, e)
    modifies src`quota, src`live, src`order, src.pool, src.queue, dst`lostCount
    ensures src.Valid() && dst.Valid() && dst.Now() == old(dst.Now()) && dst.lostCount == old(dst.lostCount) + 1
    ensures Freed(old(src.Now()), src.Now(), old(src.pool.slices), src.pool.slices, e)
  {
    dst.lostCount := dst.lostCount + 1;
    src.EntryFree(e, false);
  }

  lemma {:induction false} MovedHandled(s: View, s': View, d: View, d': View, e: Entry, e': Entry)
    requires Moved(s, s', d, d', e, e')
    ensures Handled(s, s', d, d', e, true, e')
  {
  }

  lemma {:induction false} LostHandled(s: View, s': View, d: View, d': View, e: Entry)
    requires Left(s, s', e) && s'.list == Minus(s.list, e) && Untouched(d, d')
    ensures Handled(s, s', d, d', e, false, e)
  {
  }

  /** The destination of a takeover before it starts, and what allocations and copies have in store. */
  datatype Host = Host(list: seq<Entry>, acceptFd: bool, half: nat, lucks: seq<Luck>)

  /** How a takeover went: which messages arrived, what they look like there, and each attempt. */
  datatype Tally = Tally(fate: seq<bool>, arrived: seq<Entry>, tries: seq<Try>)

  const NOBODY := Tally([], [], [])

  ghost function Tallied(y: Tally, ok: bool, e': Entry, attempt: Try): Tally {
    Tally(y.fate + [ok], if ok then y.arrived + [e'] else y.arrived, y.tries + [attempt])
  }

  /** The last attempt was made for that message at the destination as the others left it, and counts. */
  ghost predicate Judged(attempt: Try, e: Entry, before: seq<Entry>, ok: bool, host: Host) {
    && attempt.msg == e && attempt.view.list == host.list + before && attempt.half == host.half
    && attempt.luck in host.lucks && (ok <==> Takes(attempt, host.acceptFd))
  }

  /** Exactly the messages the destination takes arrived, in order and unchanged but for their slice. */
  ghost predicate Landed(moving: seq<Entry>, y: Tally, host: Host)
    decreases |moving|
  {
    && |y.fate| == |y.tries| == |moving|
    && if moving == [] then y.arrived == []
       else
         var m, a := |moving| - 1, |y.arrived| - 1;
         if y.fate[m] then
           && a >= 0 && y.arrived[a] == moving[m].(off := y.arrived[a].off)
           && Judged(y.tries[m], moving[m], y.arrived[..a], true, host)
           && Landed(moving[..m], Tally(y.fate[..m], y.arrived[..a], y.tries[..m]), host)
         else
           && Judged(y.tries[m], moving[m], y.arrived, false, host)
           && Landed(moving[..m], Tally(y.fate[..m], y.arrived, y.tries[..m]), host)
  }

  lemma {:induction false} LandedMore(
    moving: seq<Entry>, y: Tally, host: Host, e: Entry, ok: bool, e': Entry, attempt: Try)
    requires Landed(moving, y, host) && (ok ==> e' == e.(off := e'.off)) && Judged(attempt, e, y.arrived, ok, host)
    ensures Landed(moving + [e], Tallied(y, ok, e', attempt), host)
  {
    var y' := Tallied(y, ok, e', attempt);
    assert (moving + [e])[..|moving|] == moving && y'.fate[..|moving|] == y.fate && y'.tries[..|moving|] == y.tries;
    assert ok ==> y'.arrived[..|y.arrived|] == y.arrived;
  }

  /** A message is lost exactly if the destination did not take it when its turn came. */
  lemma {:induction false} WhyLost(moving: seq<Entry>, y: Tally, host: Host, k: nat)
    requires Landed(moving, y, host) && k < |moving|
    ensures |y.fate| == |y.tries| == |moving| && y.tries[k].msg == moving[k]
    ensures y.fate[k] <==> Takes(y.tries[k], host.acceptFd)
    decreases |moving|
  {
    var m, a := |moving| - 1, |y.arrived| - 1;
    if k < m {
      WhyLost(moving[..m], Tally(y.fate[..m], if y.fate[m] then y.arrived[..a] else y.arrived, y.tries[..m]), host, k);
    }
  }

  /** Nothing arrives that did not set out, under the name and with the contents it had. */
  lemma {:induction false} ArrivedFrom(moving: seq<Entry>, y: Tally, host: Host)
    requires Landed(moving, y, host)
    ensures forall e :: e in y.arrived ==> exists off :: e.(off := off) in moving
    decreases |moving|
  {
    if moving != [] {
      var m, a := |moving| - 1, |y.arrived| - 1;
      var before := if y.fate[m] then y.arrived[..a] else y.arrived;
      ArrivedFrom(moving[..m], Tally(y.fate[..m], before, y.tries[..m]), host);
      forall e | e in y.arrived ensures exists off :: e.(off := off) in moving {
        if e in before {
          var off :| e.(off := off) in moving[..m];
          assert e.(off := off) in moving;
        } else {
          assert e == y.arrived[a] && e.(off := moving[m].off) == moving[m];
        }
      }
    }
  }

  lemma {:induction false} ArrivedNamed(list: seq<Entry>, nameId: nat, y: Tally, host: Host)
    requires Landed(Movers(list, nameId), y, host)
    ensures nameId != 0 ==> forall e :: e in y.arrived ==> e.nameId == nameId
  {
    MoversAre(list, nameId);
    ArrivedFrom(Movers(list, nameId), y, host);
    forall e | e in y.arrived && nameId != 0 ensures e.nameId == nameId {
      var off :| e.(off := off) in Movers(list, nameId);
    }
  }

  /** How far a takeover got after the entries `done` of its source. */
  ghost predicate Progress(
    s0: View, d0: View, s: View, d: View, done: seq<Entry>, rest: seq<Entry>, nameId: nat, y: Tally, host: Host)
  {
    (&& s.list == Stayers(done, nameId) + rest && d.list == d0.list + y.arrived && d.live == d0.live + y.arrived
     && host.list == d0.list && Landed(Movers(done, nameId), y, host)
     && Remain(s0.live, s.live, Movers(done, nameId))
     && DrainUnlinksOldest(Stayers(done, nameId), rest, nameId)) == true
  }

  ghost predicate Remain(live: seq<Entry>, live': seq<Entry>, gone: seq<Entry>) {
    forall x :: x in live' <==> x in live && x !in gone
  }

  lemma {:induction false} WithoutMiddle(kept: seq<Entry>, rest: seq<Entry>)
    requires rest != [] && rest[0] !in kept
    ensures Minus(kept + rest, rest[0]) == kept + rest[1..]
    decreases |kept|
  {
    if kept == [] {
      assert kept + rest == rest && kept + rest[1..] == rest[1..];
    } else {
      assert (kept + rest)[1..] == kept[1..] + rest;
      WithoutMiddle(kept[1..], rest);
      assert [kept[0]] + (kept[1..] + rest[1..]) == kept + rest[1..];
    }
  }

  lemma {:induction false} WithoutMembers(live: seq<Entry>, e: Entry)
    requires Distinct(live)
    ensures forall x :: x in Minus(live, e) <==> x in live && x != e
  {
    GoneFrom(live, e);
    forall x | x in live && x != e ensures x in Minus(live, e) {
      MinusIn(live, e, x);
    }
  }

  lemma {:induction false} StepKeeps(list: seq<Entry>, e: Entry, nameId: nat)
    ensures Stayers(list + [e], nameId) == Stayers(list, nameId) + (if Matches(e, nameId) then [] else [e])
    ensures Movers(list + [e], nameId) == Movers(list, nameId) + (if Matches(e, nameId) then [e] else [])
  {
    assert (list + [e])[..|list|] == list;
  }

  lemma {:induction false} StepStays(
    s0: View, d0: View, s: View, d: View, done: seq<Entry>, rest: seq<Entry>, nameId: nat, y: Tally, host: Host)
    requires Progress(s0, d0, s, d, done, rest, nameId, y, host) && rest != [] && !Matches(rest[0], nameId)
    ensures Progress(s0, d0, s, d, done + [rest[0]], rest[1..], nameId, y, host)
  {
    StepKeeps(done, rest[0], nameId);
    assert Stayers(done, nameId) + rest == Stayers(done, nameId) + [rest[0]] + rest[1..];
    assert Movers(done + [rest[0]], nameId) == Movers(done, nameId);
  }

  lemma {:induction false} RemainLess(live0: seq<Entry>, live: seq<Entry>, gone: seq<Entry>, e: Entry)
    requires Distinct(live) && Remain(live0, live, gone)
    ensures Remain(live0, Minus(live, e), gone + [e])
  {
    WithoutMembers(live, e);
  }

  lemma {:induction false} NextOldest(
    s0: View, d0: View, s: View, d: View, done: seq<Entry>, rest: seq<Entry>, nameId: nat, y: Tally, host: Host)
    requires Progress(s0, d0, s, d, done, rest, nameId, y, host) && rest != [] && Matches(rest[0], nameId)
    ensures rest[0] in s.list && Oldest(s.list, rest[0])
  {
    assert s.list[|Stayers(done, nameId)|] == rest[0];
  }

  lemma {:induction false} StepMoves(
    s0: View, d0: View, s: View, d: View, s': View, d': View, done: seq<Entry>, rest: seq<Entry>, nameId: nat,
    y: Tally, host: Host, ok: bool, e': Entry, attempt: Try)
    requires Progress(s0, d0, s, d, done, rest, nameId, y, host) && rest != [] && Matches(rest[0], nameId)
    requires Distinct(s.list) && Distinct(s.live) && Handled(s, s', d, d', rest[0], ok, e')
    requires Judged(attempt, rest[0], y.arrived, ok, host)
    ensures Progress(s0, d0, s', d', done + [rest[0]], rest[1..], nameId, Tallied(y, ok, e', attempt), host)
  {
    var e := rest[0];
    StepKeeps(done, e, nameId);
    assert Stayers(done + [e], nameId) == Stayers(done, nameId);
    DistinctSplit(Stayers(done, nameId), rest);
    WithoutMiddle(Stayers(done, nameId), rest);
    RemainLess(s0.live, s.live, Movers(done, nameId), e);
    LandedMore(Movers(done, nameId), y, host, e, ok, e', attempt);
    Regroup(d0.list, y.arrived, e');
    Regroup(d0.live, y.arrived, e');
  }

  lemma {:induction false} Regroup(a: seq<Entry>, b: seq<Entry>, e: Entry)
    ensures a + b + [e] == a + (b + [e])
  {
  }

  lemma {:induction false} StartsOut(s: View, d: View, nameId: nat, host: Host)
    requires Distinct(s.list) && StayersBehind(s.list, nameId) && host.list == d.list
    ensures Progress(s, d, s, d, [], s.list, nameId, NOBODY, host)
  {
    DrainKeepsIndex(s.list, nameId);
    NoneLanded(host);
    assert [] + s.list == s.list && d.list + [] == d.list && d.live + [] == d.live;
  }

  lemma {:induction false} NoneLanded(host: Host)
    ensures Landed([], NOBODY, host)
  {
  }

  ghost predicate Disjoint(a: seq<Entry>, b: seq<Entry>) {
    forall x, y :: x in a && y in b ==> x.id != y.id
  }

  lemma {:induction false} StepDisjoint(s: View, s': View, d: View, d': View, e: Entry, ok: bool, e': Entry)
    requires Disjoint(s.live, d.live) && Distinct(s.live) && e in s.live && Handled(s, s', d, d', e, ok, e')
    ensures Disjoint(s'.live, d'.live)
  {
    WithoutMembers(s.live, e);
  }

  lemma {:induction false} NextOf(list: seq<Entry>, i: int)
    requires 0 <= i < |list|
    ensures
      && list[..i] + [list[i]] == list[..i + 1] && list[i..] != [] && list[i..][0] == list[i]
      && list[i..][1..] == list[i + 1..]
  {
  }

  /** One round of the loop in kdbus_conn_move_messages. */
  method MoveNext(
    src: Conn, dst: Conn, list: seq<Entry>, i: int, nameId: nat, luck: Luck, ghost s0: View, ghost d0: View,
    ghost y: Tally, ghost host: Host)
    returns (ghost y': Tally)
    requires 0 <= i < |list| && src.Valid() && dst.Valid() && Separate(src, dst)
    requires Progress(s0, d0, src.Now(), dst.Now(), list[..i], list[i..], nameId, y, host) && Hosts(dst, luck, host)
    modifies src`quota, src`live, src`order, src.pool, src.queue, dst`quota, dst`live, dst`order, dst`lostCount,
      dst.pool, dst.queue
    ensures src.Valid() && dst.Valid() && Separate(src, dst)
    ensures Progress(s0, d0, src.Now(), dst.Now(), list[..i + 1], list[i + 1..], nameId, y', host)
    ensures dst.lostCount - |y'.fate| + |y'.arrived| == old(dst.lostCount) - |y.fate| + |y.arrived|
  {
    var e := list[i];
    NextOf(list, i);
    if nameId > 0 && e.nameId != nameId {
      StepStays(s0, d0, src.Now(), dst.Now(), list[..i], list[i..], nameId, y, host);
      y' := y;
    } else {
      y' := MoveHead(src, dst, list[..i], list[i..], nameId, luck, s0, d0, y, host);
    }
  }

  /** What stays the same at the destination. */
  ghost predicate Hosts(dst: Conn, luck: Luck, host: Host) {
    host.acceptFd == dst.acceptFd && host.half == dst.pool.size / 2 && luck in host.lucks
  }

  /** The next entry of the walk is to move. */
  method MoveHead(
    src: Conn, dst: Conn, ghost done: seq<Entry>, rest: seq<Entry>, nameId: nat, luck: Luck, ghost s0: View,
    ghost d0: View, ghost y: Tally, ghost host: Host)
    returns (ghost y': Tally)
    requires rest != [] && Matches(rest[0], nameId) && src.Valid() && dst.Valid() && Separate(src, dst)
    requires Progress(s0, d0, src.Now(), dst.Now(), done, rest, nameId, y, host) && Hosts(dst, luck, host)
    modifies src`quota, src`live, src`order, src.pool, src.queue, dst`quota, dst`live, dst`order, dst`lostCount,
      dst.pool, dst.queue
    ensures src.Valid() && dst.Valid() && Separate(src, dst)
    ensures Progress(s0, d0, src.Now(), dst.Now(), done + [rest[0]], rest[1..], nameId, y', host)
    ensures dst.lostCount - |y'.fate| + |y'.arrived| == old(dst.lostCount) - |y.fate| + |y.arrived|
  {
    ghost var s, d, attempt := src.Now(), dst.Now(), dst.Trying(rest[0], luck);
    NextOldest(s0, d0, s, d, done, rest, nameId, y, host);
    ghost var e';
    var ok;
    ok, e' := MoveOne(src, dst, rest[0], luck);
    StepMoves(s0, d0, s, d, src.Now(), dst.Now(), done, rest, nameId, y, host, ok, e', attempt);
    StepDisjoint(s, src.Now(), d, dst.Now(), rest[0], ok, e');
    y' := Tallied(y, ok, e', attempt);
  }

  /**
   The message part of kdbus_conn_move_messages. Every matching message of the source ends, in
   order, at the tail of the destination's queue, or is freed and counted there as lost, which
   happens exactly if the destination does not take it.
   */
  method MoveMessages(src: Conn, dst: Conn, nameId: nat, lucks: seq<Luck>) returns (ghost y: Tally)
    requires src.Valid() && dst.Valid() && Separate(src, dst) && StayersBehind(src.queue.msgList, nameId)
    requires |lucks| == |src.queue.msgList|
    modifies src`quota, src`live, src`order, src.pool, src.queue, dst`quota, dst`live, dst`order, dst`lostCount,
      dst.pool, dst.queue
    ensures src.Valid() && dst.Valid() && Separate(src, dst)
    ensures src.queue.msgList == Stayers(old(src.queue.msgList), nameId)
    ensures forall e ::
      e in old(src.queue.msgList) ==> (e in src.queue.msgList <==> nameId != 0 && e.nameId != nameId)
    ensures nameId != 0 ==> forall e :: e in y.arrived ==> e.nameId == nameId
    ensures Remain(old(src.live), src.live, Movers(old(src.queue.msgList), nameId))
    ensures var host := Host(old(dst.queue.msgList), dst.acceptFd, dst.pool.size / 2, lucks);
      Landed(Movers(old(src.queue.msgList), nameId), y, host)
    ensures dst.queue.msgList == old(dst.queue.msgList) + y.arrived && dst.live == old(dst.live) + y.arrived
    ensures dst.lostCount == old(dst.lostCount) + |y.fate| - |y.arrived|
  {
    var list, i := src.queue.msgList, 0;
    y := NOBODY;
    ghost var s0, d0 := src.Now(), dst.Now();
    ghost var host := Host(d0.list, dst.acceptFd, dst.pool.size / 2, lucks);
    StartsOut(s0, d0, nameId, host);
    assert list[..0] == [] && list[0..] == list;
    while i < |list|
      invariant 0 <= i <= |list| && src.Valid() && dst.Valid() && Separate(src, dst)
      invariant Progress(s0, d0, src.Now(), dst.Now(), list[..i], list[i..], nameId, y, host)
      invariant dst.lostCount == old(dst.lostCount) + |y.fate| - |y.arrived|
    {
      y := MoveNext(src, dst, list, i, nameId, lucks[i], s0, d0, y, host);
      i := i + 1;
    }
    assert list[..i] == list && list[i..] == [];
    MoversAre(list, nameId);
    ArrivedNamed(list, nameId, y, host);
  }
}
