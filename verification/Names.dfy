/**
 The registry of well-known names. The fields of a name's entry are kept in maps from the name
 to their value, the lists of a connection in maps from its id. Every change of an owner is
 announced; the announcements alone determine who owns what.
 */
module Names {
  import opened Common
  import opened Lists

  /** A well-known name. */
  datatype Name = Name(text: string)

  datatype Flags = Flags(replaceExisting: bool, allowReplacement: bool, queue: bool, activator: bool)

  const ACTIVATOR := Flags(false, false, false, true)

  /** The owner of a name and the flags of its entry. */
  datatype Owner = Owner(conn: nat, flags: Flags)

  /** A connection waiting for a name. */
  datatype Pending = Pending(id: nat, flags: Flags, conn: nat, name: Name)

  /** Notifications on the bus, and the takeovers of queued messages between them. */
  datatype Event =
    | NameAdd(name: Name, next: Owner)
    | NameChange(name: Name, prev: Owner, next: Owner)
    | NameRemove(name: Name, prev: Owner)
    | MovedMessages(dst: nat, src: nat, filter: nat)

  // ---------------------------------------------------------------- announcements

  /** What a listener concludes from one more notification; None if it contradicts the earlier ones. */
  ghost function Heard(m: Option<map<Name, Owner>>, e: Event): Option<map<Name, Owner>> {
    if m.None? then None
    else match e
      case NameAdd(n, next) => if n in m.value then None else Some(m.value[n := next])
      case NameChange(n, prev, next) => if n in m.value && m.value[n] == prev then Some(m.value[n := next]) else None
      case NameRemove(n, prev) => if n in m.value && m.value[n] == prev then Some(m.value - {n}) else None
      case MovedMessages(_, _, _) => m
  }

  ghost function Replay(log: seq<Event>): Option<map<Name, Owner>> {
    if log == [] then Some(map[]) else Heard(Replay(log[..|log| - 1]), log[|log| - 1])
  }

  /**
   Queued messages follow a name exactly when it passes to or from its activator: all of them when
   it leaves the activator, those sent to the name when it returns.
   */
  ghost predicate Escorted(log: seq<Event>) {
    var k := |log| - 1;
    k < 0 ||
    match log[k]
    case MovedMessages(_, _, _) => false
    case NameChange(_, prev, next) =>
      if prev.flags.activator || next.flags.activator
      then
        && k > 0 && log[k - 1].MovedMessages? && log[k - 1].dst == next.conn && log[k - 1].src == prev.conn
        && (log[k - 1].filter == 0 <==> prev.flags.activator) && Escorted(log[..k - 1])
      else Escorted(log[..k])
    case _ => Escorted(log[..k])
  }

  lemma {:induction false} ReplayMore(log: seq<Event>, e: Event)
    ensures Replay(log + [e]) == Heard(Replay(log), e)
  {
    assert (log + [e])[..|log|] == log;
  }

  lemma {:induction false} EscortedMore(log: seq<Event>, e: Event)
    requires Escorted(log) && !e.MovedMessages?
    requires e.NameChange? ==> !e.prev.flags.activator && !e.next.flags.activator
    ensures Escorted(log + [e])
  {
    assert (log + [e])[..|log|] == log;
  }

  lemma {:induction false} EscortedPair(log: seq<Event>, n: Name, prev: Owner, next: Owner, filter: nat)
    requires Escorted(log) && (prev.flags.activator || next.flags.activator) && (filter == 0 <==> prev.flags.activator)
    ensures Escorted(log + [MovedMessages(next.conn, prev.conn, filter)] + [NameChange(n, prev, next)])
  {
    var log' := log + [MovedMessages(next.conn, prev.conn, filter)] + [NameChange(n, prev, next)];
    assert log'[..|log|] == log;
  }

  // ---------------------------------------------------------------- agreement

  ghost predicate OwnerOk(owner: map<Name, Owner>, names: map<nat, seq<Name>>, n: Name)
    requires n in owner
  {
    owner[n].conn in names && n in names[owner[n].conn]
  }

  ghost predicate NamesOk(owner: map<Name, Owner>, names: map<nat, seq<Name>>, c: nat)
    requires c in names
  {
    NoDup(names[c]) && forall n :: n in names[c] ==> n in owner && owner[n].conn == c
  }

  /** The list of a connection holds exactly the names it owns. */
  ghost predicate Owned(owner: map<Name, Owner>, names: map<nat, seq<Name>>) {
    && (forall n {:trigger OwnerOk(owner, names, n)} :: n in owner ==> OwnerOk(owner, names, n))
    && (forall c {:trigger NamesOk(owner, names, c)} :: c in names ==> NamesOk(owner, names, c))
  }

  ghost predicate QueueOk(queue: map<Name, seq<Pending>>, waits: map<nat, seq<Pending>>, n: Name)
    requires n in queue
  {
    NoDup(queue[n]) && forall p :: p in queue[n] ==> p.name == n && p.conn in waits && p in waits[p.conn]
  }

  ghost predicate WaitsOk(queue: map<Name, seq<Pending>>, waits: map<nat, seq<Pending>>, c: nat)
    requires c in waits
  {
    NoDup(waits[c]) && forall p :: p in waits[c] ==> p.conn == c && p.name in queue && p in queue[p.name]
  }

  /** Waiters are listed with the name and with the connection. */
  ghost predicate Queued(queue: map<Name, seq<Pending>>, waits: map<nat, seq<Pending>>) {
    && (forall n {:trigger QueueOk(queue, waits, n)} :: n in queue ==> QueueOk(queue, waits, n))
    && (forall c {:trigger WaitsOk(queue, waits, c)} :: c in waits ==> WaitsOk(queue, waits, c))
  }

  ghost predicate ActivatorOk(activator: map<Name, nat>, activatorOf: map<nat, Name>, n: Name)
    requires n in activator
  {
    activator[n] in activatorOf && activatorOf[activator[n]] == n
  }

  ghost predicate ActivatorOfOk(activator: map<Name, nat>, activatorOf: map<nat, Name>, c: nat)
    requires c in activatorOf
  {
    activatorOf[c] in activator && activator[activatorOf[c]] == c
  }

  /** A name's activator and a connection's activated name point at each other. */
  ghost predicate Activated(activator: map<Name, nat>, activatorOf: map<nat, Name>) {
    && (forall n {:trigger ActivatorOk(activator, activatorOf, n)} ::
          n in activator ==> ActivatorOk(activator, activatorOf, n))
    && (forall c {:trigger ActivatorOfOk(activator, activatorOf, c)} ::
          c in activatorOf ==> ActivatorOfOk(activator, activatorOf, c))
  }

  /** The state of the registry and of the name lists of the connections. */
  datatype Reg = Reg(
    owner: map<Name, Owner>, queue: map<Name, seq<Pending>>, activator: map<Name, nat>, nameId: map<Name, nat>,
    names: map<nat, seq<Name>>, waits: map<nat, seq<Pending>>, activatorOf: map<nat, Name>, activators: set<nat>,
    nextPending: nat, log: seq<Event>)

  /** Only an activator, its own or one that is leaving, owns a name flagged so; then nobody waits for it. */
  ghost predicate Flagged(r: Reg, n: Name, leaving: set<nat>)
    requires n in r.owner && n in r.queue
  {
    var o := r.owner[n];
    && (o.flags.activator <==> o.conn in r.activators)
    && (o.flags.activator ==>
          && r.queue[n] == []
          && if o.conn in leaving then n !in r.activator else n in r.activator && r.activator[n] == o.conn)
    && forall p :: p in r.queue[n] ==> p.conn !in r.activators && !p.flags.activator && p.id < r.nextPending
  }

  ghost predicate AllFlagged(r: Reg, leaving: set<nat>)
    requires r.queue.Keys == r.owner.Keys
  {
    forall n {:trigger Flagged(r, n, leaving)} :: n in r.owner ==> Flagged(r, n, leaving)
  }

  ghost predicate Keyed(r: Reg) {
    && r.queue.Keys == r.owner.Keys && r.nameId.Keys == r.owner.Keys && r.activator.Keys <= r.owner.Keys
    && r.waits.Keys == r.names.Keys && r.activatorOf.Keys <= r.names.Keys * r.activators
    && (forall n :: n in r.nameId ==> r.nameId[n] > 0)
  }

  ghost predicate Told(r: Reg) {
    Replay(r.log) == Some(r.owner) && Escorted(r.log)
  }

  // `== true` keeps the verifier from taking the predicate apart wherever it is to be proved.
  ghost predicate Sound(r: Reg, leaving: set<nat>) {
    (&& Keyed(r) && Owned(r.owner, r.names) && Queued(r.queue, r.waits) && Activated(r.activator, r.activatorOf)
     && AllFlagged(r, leaving) && leaving !! r.activatorOf.Keys && Told(r)) == true
  }

  ghost predicate OwnersAgree(r: Reg) {
    forall c, n :: c in r.names ==> (n in r.names[c] <==> n in r.owner && r.owner[n].conn == c)
  }

  ghost predicate WaitersAgree(r: Reg) {
    forall c, p :: c in r.waits ==> (p in r.waits[c] <==> p.conn == c && p.name in r.queue && p in r.queue[p.name])
  }

  ghost predicate LinksAgree(r: Reg) {
    forall c, n :: (n in r.activator && r.activator[n] == c) <==> (c in r.activatorOf && r.activatorOf[c] == n)
  }

  /** A name its activator owns has nobody waiting for it. */
  ghost predicate ActivatorsRest(r: Reg) {
    forall n :: n in r.owner && r.owner[n].flags.activator ==>
      n in r.activator && r.activator[n] == r.owner[n].conn && n in r.queue && r.queue[n] == []
  }

  /** What a consistent registry says, in the terms of its users. */
  lemma {:induction false} RegistryAgrees(r: Reg)
    requires Sound(r, {})
    ensures Replay(r.log) == Some(r.owner)
    ensures OwnersAgree(r) && WaitersAgree(r) && LinksAgree(r) && ActivatorsRest(r)
  {
    OwnersDo(r);
    WaitersDo(r);
    LinksDo(r);
    forall n | n in r.owner && r.owner[n].flags.activator
      ensures n in r.activator && r.activator[n] == r.owner[n].conn && n in r.queue && r.queue[n] == []
    {
      assert Flagged(r, n, {});
    }
  }

  lemma {:induction false} OwnersDo(r: Reg)
    requires Owned(r.owner, r.names)
    ensures OwnersAgree(r)
  {
    forall c, n | c in r.names ensures n in r.names[c] <==> n in r.owner && r.owner[n].conn == c {
      assert NamesOk(r.owner, r.names, c) && (n in r.owner ==> OwnerOk(r.owner, r.names, n));
    }
  }

  lemma {:induction false} WaitersDo(r: Reg)
    requires Queued(r.queue, r.waits)
    ensures WaitersAgree(r)
  {
    forall c, p | c in r.waits ensures p in r.waits[c] <==> p.conn == c && p.name in r.queue && p in r.queue[p.name] {
      assert WaitsOk(r.queue, r.waits, c) && (p.name in r.queue ==> QueueOk(r.queue, r.waits, p.name));
    }
  }

  lemma {:induction false} LinksDo(r: Reg)
    requires Activated(r.activator, r.activatorOf)
    ensures LinksAgree(r)
  {
    forall c, n ensures (n in r.activator && r.activator[n] == c) <==> (c in r.activatorOf && r.activatorOf[c] == n) {
      assert n in r.activator ==> ActivatorOk(r.activator, r.activatorOf, n);
      assert c in r.activatorOf ==> ActivatorOfOk(r.activator, r.activatorOf, c);
    }
  }

  // ---------------------------------------------------------------- single changes

  /** kdbus_name_entry_replace_owner: announce the change, then remove and set the owner. */
  ghost function Passed(r: Reg, n: Name, next: Owner): Reg
    requires n in r.owner
  {
    var c := r.owner[n].conn;
    var names := r.names[c := Minus(ListOf(r.names, c), n)];
    r.(owner := r.owner[n := next], names := names[next.conn := ListOf(names, next.conn) + [n]],
      log := r.log + [NameChange(n, r.owner[n], next)])
  }

  lemma {:induction false} PassedOwned(r: Reg, n: Name, next: Owner)
    requires Owned(r.owner, r.names) && n in r.owner && next.conn in r.names && next.conn != r.owner[n].conn
    ensures var r' := Passed(r, n, next); Owned(r'.owner, r'.names) && r'.names.Keys == r.names.Keys
  {
    var c := r.owner[n].conn;
    assert OwnerOk(r.owner, r.names, n);
    assert NamesOk(r.owner, r.names, next.conn) && NamesOk(r.owner, r.names, c);
    MinusMembers(r.names[c], n);
    var r' := Passed(r, n, next);
    assert n !in r.names[next.conn];
    forall m | m in r'.owner ensures OwnerOk(r'.owner, r'.names, m) {
      assert m in r.owner ==> OwnerOk(r.owner, r.names, m);
    }
    forall d | d in r'.names ensures NamesOk(r'.owner, r'.names, d) {
      assert NamesOk(r.owner, r.names, d);
    }
  }

  lemma {:induction false} PassedSound(r: Reg, n: Name, next: Owner, leaving: set<nat>)
    requires Sound(r, leaving) && n in r.owner && next.conn in r.names && next.conn != r.owner[n].conn
    requires !r.owner[n].flags.activator && !next.flags.activator && next.conn !in r.activators
    ensures Sound(Passed(r, n, next), leaving)
  {
    PassedOwned(r, n, next);
    ReplayMore(r.log, NameChange(n, r.owner[n], next));
    EscortedMore(r.log, NameChange(n, r.owner[n], next));
    PassedFlags(r, n, next, leaving);
  }

  lemma {:induction false} PassedFlags(r: Reg, n: Name, next: Owner, leaving: set<nat>)
    requires r.queue.Keys == r.owner.Keys && AllFlagged(r, leaving) && n in r.owner
    requires next.flags.activator <==> next.conn in r.activators
    requires next.flags.activator ==>
      r.queue[n] == [] && n in r.activator && r.activator[n] == next.conn && next.conn !in leaving
    ensures Passed(r, n, next).owner.Keys == r.owner.Keys && AllFlagged(Passed(r, n, next), leaving)
  {
    var r' := Passed(r, n, next);
    forall m | m in r'.owner ensures Flagged(r', m, leaving) {
      assert Flagged(r, m, leaving);
    }
  }

  ghost function Moving(r: Reg, dst: nat, src: nat, filter: nat): Reg {
    r.(log := r.log + [MovedMessages(dst, src, filter)])
  }

  /** A name passes to or from its activator, and the messages with it. */
  lemma {:induction false} EscortSound(r: Reg, n: Name, next: Owner, filter: nat, leaving: set<nat>)
    requires Sound(r, leaving) && n in r.owner && next.conn in r.names && next.conn != r.owner[n].conn
    requires r.owner[n].flags.activator || next.flags.activator
    requires filter == 0 <==> r.owner[n].flags.activator
    requires next.flags.activator <==> next.conn in r.activators
    requires next.flags.activator ==> r.queue[n] == [] && n in r.activator && r.activator[n] == next.conn
    ensures Sound(Passed(Moving(r, next.conn, r.owner[n].conn, filter), n, next), leaving)
  {
    var r1 := Moving(r, next.conn, r.owner[n].conn, filter);
    assert n in r.activator ==> ActivatorOk(r.activator, r.activatorOf, n);
    PassedOwned(r1, n, next);
    ReplayMore(r.log, MovedMessages(next.conn, r.owner[n].conn, filter));
    ReplayMore(r1.log, NameChange(n, r.owner[n], next));
    EscortedPair(r.log, n, r.owner[n], next, filter);
    forall m | m in r1.owner ensures Flagged(r1, m, leaving) {
      assert Flagged(r, m, leaving);
    }
    PassedFlags(r1, n, next, leaving);
  }

  /** kdbus_name_pending_new. */
  ghost function Waiting(r: Reg, p: Pending): Reg
    requires p.name in r.queue
  {
    r.(queue := r.queue[p.name := r.queue[p.name] + [p]], waits := r.waits[p.conn := ListOf(r.waits, p.conn) + [p]],
      nextPending := r.nextPending + 1)
  }

  lemma {:induction false} QueuedMore(queue: map<Name, seq<Pending>>, waits: map<nat, seq<Pending>>, p: Pending)
    requires Queued(queue, waits) && p.name in queue && p.conn in waits && p !in queue[p.name]
    ensures Queued(queue[p.name := queue[p.name] + [p]], waits[p.conn := waits[p.conn] + [p]])
  {
    var q, w := queue[p.name := queue[p.name] + [p]], waits[p.conn := waits[p.conn] + [p]];
    assert WaitsOk(queue, waits, p.conn);
    assert p !in waits[p.conn];
    forall m | m in q ensures QueueOk(q, w, m) {
      assert QueueOk(queue, waits, m);
    }
    forall d | d in w ensures WaitsOk(q, w, d) {
      assert WaitsOk(queue, waits, d);
    }
  }

  lemma {:induction false} WaitingSound(r: Reg, p: Pending, leaving: set<nat>)
    requires Sound(r, leaving) && p.name in r.owner && p.conn in r.names && p.id == r.nextPending
    requires !r.owner[p.name].flags.activator && p.conn !in r.activators && !p.flags.activator
    ensures Sound(Waiting(r, p), leaving)
  {
    var r' := Waiting(r, p);
    assert Flagged(r, p.name, leaving) && WaitsOk(r.queue, r.waits, p.conn);
    assert p !in r.queue[p.name];
    QueuedMore(r.queue, r.waits, p);
    forall m | m in r'.owner ensures Flagged(r', m, leaving) {
      assert Flagged(r, m, leaving);
    }
  }

  /** kdbus_name_pending_free. */
  ghost function Unwaiting(r: Reg, n: Name, p: Pending): Reg
    requires n in r.queue
  {
    r.(queue := r.queue[n := Minus(r.queue[n], p)], waits := r.waits[p.conn := Minus(ListOf(r.waits, p.conn), p)])
  }

  lemma {:induction false} UnwaitingSound(r: Reg, p: Pending, leaving: set<nat>)
    requires Sound(r, leaving) && p.name in r.queue && p in r.queue[p.name]
    ensures p.conn in r.waits && Sound(Unwaiting(r, p.name, p), leaving)
  {
    assert QueueOk(r.queue, r.waits, p.name) && WaitsOk(r.queue, r.waits, p.conn);
    var r' := Unwaiting(r, p.name, p);
    MinusMembers(r.queue[p.name], p);
    MinusMembers(r.waits[p.conn], p);
    forall m | m in r'.queue ensures QueueOk(r'.queue, r'.waits, m) {
      assert QueueOk(r.queue, r.waits, m);
    }
    forall d | d in r'.waits ensures WaitsOk(r'.queue, r'.waits, d) {
      assert WaitsOk(r.queue, r.waits, d);
    }
    forall m | m in r'.owner ensures Flagged(r', m, leaving) {
      assert Flagged(r, m, leaving);
    }
  }

  lemma {:induction false} ActivatedMore(activator: map<Name, nat>, activatorOf: map<nat, Name>, n: Name, c: nat)
    requires Activated(activator, activatorOf) && n !in activator && c !in activatorOf
    ensures Activated(activator[n := c], activatorOf[c := n])
  {
    var a, o := activator[n := c], activatorOf[c := n];
    forall m | m in a ensures ActivatorOk(a, o, m) {
      assert m in activator ==> ActivatorOk(activator, activatorOf, m);
    }
    forall d | d in o ensures ActivatorOfOk(a, o, d) {
      assert d in activatorOf ==> ActivatorOfOk(activator, activatorOf, d);
    }
  }

  /** kdbus_name_entry_new, the link of an activator, and the first owner. */
  ghost function Created(r: Reg, n: Name, o: Owner, id: nat): Reg {
    Reg(
      r.owner[n := o], r.queue[n := []],
      if o.conn in r.activators then r.activator[n := o.conn] else r.activator,
      r.nameId[n := id], r.names[o.conn := ListOf(r.names, o.conn) + [n]], r.waits,
      if o.conn in r.activators then r.activatorOf[o.conn := n] else r.activatorOf,
      r.activators, r.nextPending, r.log + [NameAdd(n, o)])
  }

  lemma {:induction false} CreatedSound(r: Reg, n: Name, o: Owner, id: nat)
    requires Sound(r, {}) && n !in r.owner && o.conn in r.names && id > 0
    requires (o.flags.activator <==> o.conn in r.activators) && o.conn !in r.activatorOf
    ensures Sound(Created(r, n, o, id), {})
  {
    ReplayMore(r.log, NameAdd(n, o));
    EscortedMore(r.log, NameAdd(n, o));
    CreatedLists(r, n, o, id);
    CreatedKeys(r, n, o, id);
    CreatedFlags(r, n, o, id);
  }

  lemma {:induction false} CreatedKeys(r: Reg, n: Name, o: Owner, id: nat)
    requires
      && Keyed(r) && Activated(r.activator, r.activatorOf) && n !in r.owner && o.conn in r.names && id > 0
      && o.conn !in r.activatorOf
    ensures var r' := Created(r, n, o, id); Keyed(r') && Activated(r'.activator, r'.activatorOf)
  {
    ActivatedMore(r.activator, r.activatorOf, n, o.conn);
  }

  lemma {:induction false} CreatedFlags(r: Reg, n: Name, o: Owner, id: nat)
    requires r.queue.Keys == r.owner.Keys && AllFlagged(r, {}) && n !in r.owner
    requires o.flags.activator <==> o.conn in r.activators
    ensures var r' := Created(r, n, o, id); r'.queue.Keys == r'.owner.Keys && AllFlagged(r', {})
  {
    var r' := Created(r, n, o, id);
    forall m | m in r'.owner ensures Flagged(r', m, {}) {
      assert m != n ==> Flagged(r, m, {});
    }
  }

  lemma {:induction false} CreatedLists(r: Reg, n: Name, o: Owner, id: nat)
    requires Owned(r.owner, r.names) && Queued(r.queue, r.waits) && n !in r.owner && n !in r.queue && o.conn in r.names
    ensures var r' := Created(r, n, o, id); Owned(r'.owner, r'.names) && Queued(r'.queue, r'.waits)
  {
    var r' := Created(r, n, o, id);
    assert NamesOk(r.owner, r.names, o.conn);
    assert n !in r.names[o.conn];
    forall m | m in r'.owner ensures OwnerOk(r'.owner, r'.names, m) {
      assert m in r.owner ==> OwnerOk(r.owner, r.names, m);
    }
    forall d | d in r'.names ensures NamesOk(r'.owner, r'.names, d) {
      assert NamesOk(r.owner, r.names, d);
    }
    forall m | m in r'.queue ensures QueueOk(r'.queue, r'.waits, m) {
      assert m in r.queue ==> QueueOk(r.queue, r.waits, m);
    }
    forall d | d in r'.waits ensures WaitsOk(r'.queue, r'.waits, d) {
      assert WaitsOk(r.queue, r.waits, d);
    }
  }

  /** An activator attaches to a name somebody owns. */
  ghost function Attached(r: Reg, n: Name, c: nat): Reg {
    r.(activator := r.activator[n := c], activatorOf := r.activatorOf[c := n])
  }

  lemma {:induction false} AttachedSound(r: Reg, n: Name, c: nat)
    requires
      && Sound(r, {}) && n in r.owner && n !in r.activator && c in r.names && c in r.activators && c !in r.activatorOf
    ensures Sound(Attached(r, n, c), {})
  {
    var r' := Attached(r, n, c);
    forall m | m in r'.owner ensures Flagged(r', m, {}) {
      assert Flagged(r, m, {});
    }
    ActivatedMore(r.activator, r.activatorOf, n, c);
  }

  /** The activator link of a leaving connection is cut. */
  ghost function Detached(r: Reg, c: nat): Reg
    requires c in r.activatorOf
  {
    r.(activator := r.activator - {r.activatorOf[c]}, activatorOf := r.activatorOf - {c})
  }

  lemma {:induction false} DetachedSound(r: Reg, c: nat)
    requires Sound(r, {}) && c in r.activatorOf
    ensures Sound(Detached(r, c), {c})
  {
    var r' := Detached(r, c);
    assert ActivatorOfOk(r.activator, r.activatorOf, c);
    forall m | m in r'.owner ensures Flagged(r', m, {c}) {
      assert Flagged(r, m, {}) && (m in r.activator ==> ActivatorOk(r.activator, r.activatorOf, m));
    }
    forall m | m in r'.activator ensures ActivatorOk(r'.activator, r'.activatorOf, m) {
      assert ActivatorOk(r.activator, r.activatorOf, m);
    }
    forall d | d in r'.activatorOf ensures ActivatorOfOk(r'.activator, r'.activatorOf, d) {
      assert ActivatorOfOk(r.activator, r.activatorOf, d);
    }
  }

  lemma {:induction false} LeavingSound(r: Reg, c: nat)
    requires Sound(r, {}) && c !in r.activators
    ensures Sound(r, {c})
  {
    forall m | m in r.owner ensures Flagged(r, m, {c}) {
      assert Flagged(r, m, {});
    }
  }

  /** The name is announced as removed and its entry freed. */
  ghost function Freed(r: Reg, n: Name): Reg
    requires n in r.owner
  {
    var c := r.owner[n].conn;
    r.(owner := r.owner - {n}, queue := r.queue - {n}, nameId := r.nameId - {n},
       names := r.names[c := Minus(ListOf(r.names, c), n)], log := r.log + [NameRemove(n, r.owner[n])])
  }

  lemma {:induction false} FreedSound(r: Reg, n: Name, leaving: set<nat>)
    requires Sound(r, leaving) && n in r.owner && r.queue[n] == [] && n !in r.activator
    ensures Sound(Freed(r, n), leaving)
  {
    var r' := Freed(r, n);
    ReplayMore(r.log, NameRemove(n, r.owner[n]));
    EscortedMore(r.log, NameRemove(n, r.owner[n]));
    FreedLists(r, n);
    forall m | m in r'.owner ensures Flagged(r', m, leaving) {
      assert Flagged(r, m, leaving);
    }
  }

  lemma {:induction false} FreedLists(r: Reg, n: Name)
    requires Owned(r.owner, r.names) && Queued(r.queue, r.waits) && n in r.owner && n in r.queue && r.queue[n] == []
    ensures var r' := Freed(r, n);
      Owned(r'.owner, r'.names) && Queued(r'.queue, r'.waits) && r'.names.Keys == r.names.Keys
  {
    var r', c := Freed(r, n), r.owner[n].conn;
    assert OwnerOk(r.owner, r.names, n) && NamesOk(r.owner, r.names, c);
    MinusMembers(r.names[c], n);
    forall m | m in r'.owner ensures OwnerOk(r'.owner, r'.names, m) {
      assert OwnerOk(r.owner, r.names, m);
    }
    forall d | d in r'.names ensures NamesOk(r'.owner, r'.names, d) {
      assert NamesOk(r.owner, r.names, d);
    }
    forall m | m in r'.queue ensures QueueOk(r'.queue, r'.waits, m) {
      assert QueueOk(r.queue, r.waits, m);
    }
    forall d | d in r'.waits ensures WaitsOk(r'.queue, r'.waits, d) {
      assert WaitsOk(r.queue, r.waits, d);
    }
  }

  /** A connection is set up, or has gone after it owns and waits for nothing. */
  ghost function Connected(r: Reg, c: nat, activator: bool): Reg {
    r.(names := r.names[c := []], waits := r.waits[c := []],
      activators := if activator then r.activators + {c} else r.activators)
  }

  lemma {:induction false} ConnectedSound(r: Reg, c: nat, activator: bool)
    requires Sound(r, {}) && c !in r.names && c !in r.activators
    ensures Sound(Connected(r, c, activator), {})
  {
    var r' := Connected(r, c, activator);
    ListsWith(r, c, activator);
    forall m | m in r'.owner ensures Flagged(r', m, {}) {
      assert Flagged(r, m, {}) && OwnerOk(r.owner, r.names, m) && QueueOk(r.queue, r.waits, m);
    }
  }

  lemma {:induction false} ListsWith(r: Reg, c: nat, activator: bool)
    requires Owned(r.owner, r.names) && Queued(r.queue, r.waits) && c !in r.names && c !in r.waits
    ensures var r' := Connected(r, c, activator); Owned(r'.owner, r'.names) && Queued(r'.queue, r'.waits)
  {
    var r' := Connected(r, c, activator);
    forall m | m in r'.owner ensures OwnerOk(r'.owner, r'.names, m) {
      assert OwnerOk(r.owner, r.names, m);
    }
    forall m | m in r'.queue ensures QueueOk(r'.queue, r'.waits, m) {
      assert QueueOk(r.queue, r.waits, m);
    }
    forall d | d in r'.names ensures NamesOk(r'.owner, r'.names, d) {
      assert d in r.names ==> NamesOk(r.owner, r.names, d);
    }
    forall d | d in r'.waits ensures WaitsOk(r'.queue, r'.waits, d) {
      assert d in r.waits ==> WaitsOk(r.queue, r.waits, d);
    }
  }

  ghost function Gone(r: Reg, c: nat): Reg {
    r.(names := r.names - {c}, waits := r.waits - {c})
  }

  lemma {:induction false} GoneSound(r: Reg, c: nat)
    requires Sound(r, {c}) && c in r.names && r.names[c] == [] && r.waits[c] == [] && c !in r.activatorOf
    ensures Sound(Gone(r, c), {})
  {
    var r' := Gone(r, c);
    ListsWithout(r, c);
    forall m | m in r'.owner ensures Flagged(r', m, {}) {
      assert OwnerOk(r.owner, r.names, m) && Flagged(r, m, {c});
    }
  }

  lemma {:induction false} ListsWithout(r: Reg, c: nat)
    requires
      && Owned(r.owner, r.names) && Queued(r.queue, r.waits) && c in r.names && c in r.waits && r.names[c] == []
      && r.waits[c] == []
    ensures var r' := Gone(r, c); Owned(r'.owner, r'.names) && Queued(r'.queue, r'.waits)
  {
    var r' := Gone(r, c);
    forall m | m in r'.owner ensures OwnerOk(r'.owner, r'.names, m) {
      assert OwnerOk(r.owner, r.names, m);
    }
    forall m | m in r'.queue ensures QueueOk(r'.queue, r'.waits, m) {
      assert QueueOk(r.queue, r.waits, m);
    }
    forall d | d in r'.names ensures NamesOk(r'.owner, r'.names, d) {
      assert NamesOk(r.owner, r.names, d);
    }
    forall d | d in r'.waits ensures WaitsOk(r'.queue, r'.waits, d) {
      assert WaitsOk(r.queue, r.waits, d);
    }
  }

  // ---------------------------------------------------------------- releasing a name

  /** kdbus_name_release_unlocked. */
  ghost function Released(r: Reg, n: Name): Reg
    requires n in r.owner && n in r.queue && n in r.nameId
  {
    var c := r.owner[n].conn;
    if r.queue[n] != [] then
      var p := r.queue[n][0];
      Unwaiting(if p.conn == c then r else Passed(r, n, Owner(p.conn, p.flags)), n, p)
    else if n in r.activator && r.activator[n] != c then
      Passed(Moving(r, r.activator[n], c, r.nameId[n]), n, Owner(r.activator[n], ACTIVATOR))
    else Freed(r, n)
  }

  lemma {:induction false} ReleasedSound(r: Reg, n: Name, leaving: set<nat>)
    requires Sound(r, leaving) && n in r.owner && (r.owner[n].flags.activator ==> r.owner[n].conn in leaving)
    ensures Sound(Released(r, n), leaving)
  {
    assert Flagged(r, n, leaving) && QueueOk(r.queue, r.waits, n) && OwnerOk(r.owner, r.names, n);
    if r.queue[n] != [] {
      var p := r.queue[n][0];
      assert p in r.queue[n];
      var r1 := if p.conn == r.owner[n].conn then r else Passed(r, n, Owner(p.conn, p.flags));
      if p.conn != r.owner[n].conn {
        PassedSound(r, n, Owner(p.conn, p.flags), leaving);
      }
      UnwaitingSound(r1, p, leaving);
    } else if n in r.activator && r.activator[n] != r.owner[n].conn {
      assert ActivatorOk(r.activator, r.activatorOf, n);
      EscortSound(r, n, Owner(r.activator[n], ACTIVATOR), r.nameId[n], leaving);
    } else {
      FreedSound(r, n, leaving);
    }
  }

  /** Who gets a released name: the first waiter, else the activator, else nobody. */
  ghost function Heir(r: Reg, n: Name): Option<Owner>
    requires n in r.owner && n in r.queue
  {
    if r.queue[n] != [] then
      var p := r.queue[n][0];
      Some(if p.conn == r.owner[n].conn then r.owner[n] else Owner(p.conn, p.flags))
    else if n in r.activator && r.activator[n] != r.owner[n].conn then Some(Owner(r.activator[n], ACTIVATOR))
    else None
  }

  lemma {:induction false} ReleasedHeir(r: Reg, n: Name)
    requires n in r.owner && n in r.queue && n in r.nameId
    ensures var r' := Released(r, n);
      && (if Heir(r, n).Some? then n in r'.owner && r'.owner[n] == Heir(r, n).value else n !in r'.owner)
      && (forall m :: m != n ==> (m in r'.owner <==> m in r.owner) && (m in r.owner ==> r'.owner[m] == r.owner[m]))
      && r'.activator == r.activator && r'.activatorOf == r.activatorOf && r'.activators == r.activators
  {
  }

  /**
   A name given back goes to the connection that waits longest, which then no longer waits; if nobody does, to
   its activator, with the messages sent to it; otherwise it is gone. Listeners hear of it.
   */
  ghost predicate HandedOn(r: Reg, r': Reg, n: Name) {
    && n in r.owner && n in r.queue && n in r.nameId
    && var o, q := r.owner[n], r.queue[n];
       if q != [] then
         && r'.queue == r.queue[n := q[1..]]
         && (if q[0].conn == o.conn then r'.owner == r.owner && r'.log == r.log
             else
               && r'.owner == r.owner[n := Owner(q[0].conn, q[0].flags)]
               && r'.log == r.log + [NameChange(n, o, Owner(q[0].conn, q[0].flags))])
       else if n in r.activator && r.activator[n] != o.conn then
         var next := Owner(r.activator[n], Flags(false, false, false, true));
         && r'.queue == r.queue && r'.owner == r.owner[n := next]
         && r'.log == r.log + [MovedMessages(r.activator[n], o.conn, r.nameId[n]), NameChange(n, o, next)]
       else r'.queue == r.queue - {n} && r'.owner == r.owner - {n} && r'.log == r.log + [NameRemove(n, o)]
  }

  lemma {:induction false} ReleasedMeans(r: Reg, n: Name)
    requires Sound(r, {}) && n in r.owner
    ensures n in r.queue && n in r.nameId && HandedOn(r, Released(r, n), n)
  {
  }

  /** A connection that neither waits for the name nor activates it loses it. */
  lemma {:induction false} ReleasedLists(r: Reg, n: Name, leaving: set<nat>)
    requires Sound(r, leaving) && n in r.owner
    requires var c := r.owner[n].conn; c in r.waits && r.waits[c] == []
    ensures var c, r' := r.owner[n].conn, Released(r, n);
      && c in r.names && n in r.names[c] && c in r'.names && r'.names[c] == Minus(r.names[c], n)
      && |r'.names[c]| < |r.names[c]|
      && c in r'.waits && r'.waits[c] == []
  {
    var c := r.owner[n].conn;
    assert QueueOk(r.queue, r.waits, n) && OwnerOk(r.owner, r.names, n) && NamesOk(r.owner, r.names, c);
    MinusMembers(r.names[c], n);
    if r.queue[n] != [] {
      var p := r.queue[n][0];
      assert p in r.queue[n];
      assert p in r.waits[p.conn];
    }
  }

  // ---------------------------------------------------------------- the registry

  datatype Ret = Done | EPERM | EINVAL | ENOMEM | EALREADY | EEXIST | ESRCH | EADDRINUSE

  /** The name can be taken from its owner: the owner is an activator, or both sides agree to a replacement. */
  ghost predicate Takes(o: Owner, flags: Flags) {
    o.flags.activator || (flags.replaceExisting && o.flags.allowReplacement)
  }

  /** What is announced when c acquires the name. */
  ghost function AcquiredLog(r: Reg, c: nat, n: Name, flags: Flags): seq<Event> {
    if n !in r.owner then r.log + [NameAdd(n, Owner(c, flags))]
    else
      var o := r.owner[n];
      if c in r.activators || !Takes(o, flags) then r.log
      else
        (if o.flags.activator then r.log + [MovedMessages(c, o.conn, 0)] else r.log) +
        [NameChange(n, o, Owner(c, flags))]
  }

  /** What a successful acquisition by c does to the name. */
  ghost predicate Acquired(r: Reg, r': Reg, c: nat, n: Name, flags: Flags, inQueue: bool) {
    (&& n in r'.owner && n in r'.queue
     && (if n !in r.owner then !inQueue && r'.owner == r.owner[n := Owner(c, flags)] && r'.queue == r.queue[n := []]
         else if c in r.activators then !inQueue && r'.owner == r.owner && r'.queue == r.queue
         else if Takes(r.owner[n], flags) then
           !inQueue && r'.owner == r.owner[n := Owner(c, flags)] && Displaced(r, r', n)
         else
           && inQueue && flags.queue && r'.owner == r.owner && n in r.queue
           && r'.queue == r.queue[n := r.queue[n] + [Pending(r.nextPending, flags, c, n)]])
     && (if c in r.activators
         then
           && n !in r.activator && r'.activator == r.activator[n := c]
           && c !in r.activatorOf && r'.activatorOf == r.activatorOf[c := n]
         else r'.activator == r.activator && r'.activatorOf == r.activatorOf)
     && r'.log == AcquiredLog(r, c, n, flags)) == true
  }

  /**
   A successful request in plain terms. A free name is taken. An activator of a name that somebody owns waits
   aside. Others take the name from an activator, with all of its messages, or from an owner that allows it,
   who then queues up if it asked for that; or they queue up themselves.
   */
  ghost predicate Obtained(r: Reg, r': Reg, c: nat, n: Name, flags: Flags, inQueue: bool) {
    (if n !in r.owner then
       && !inQueue && r'.owner == r.owner[n := Owner(c, flags)] && r'.queue == r.queue[n := []]
       && r'.log == r.log + [NameAdd(n, Owner(c, flags))]
     else if c in r.activators then
       && !inQueue && r'.owner == r.owner && r'.queue == r.queue && r'.log == r.log
       && n !in r.activator && r'.activator == r.activator[n := c]
     else
       && n in r.queue
       && var o, q := r.owner[n], r.queue[n];
          if o.flags.activator then
            && !inQueue && r'.owner == r.owner[n := Owner(c, flags)] && r'.queue == r.queue
            && r'.log == r.log + [MovedMessages(c, o.conn, 0), NameChange(n, o, Owner(c, flags))]
          else if flags.replaceExisting && o.flags.allowReplacement then
            && !inQueue && r'.owner == r.owner[n := Owner(c, flags)]
            && r'.log == r.log + [NameChange(n, o, Owner(c, flags))]
            && r'.queue == r.queue[n := if o.flags.queue then q + [Pending(r.nextPending, o.flags, o.conn, n)] else q]
          else
            && inQueue && flags.queue && r'.owner == r.owner && r'.log == r.log
            && r'.queue == r.queue[n := q + [Pending(r.nextPending, flags, c, n)]]) == true
  }

  /** The name is the connection's own already. */
  ghost predicate HasAlready(r: Reg, c: nat, n: Name) {
    n in r.owner && (r.owner[n].conn == c || (c in r.activatorOf && r.activatorOf[c] == n))
  }

  /** Somebody else has the name, or is its activator, and stays that. */
  ghost predicate Busy(r: Reg, c: nat, n: Name, flags: Flags) {
    && n in r.owner && !HasAlready(r, c, n)
    && if c in r.activators then c !in r.activatorOf && n in r.activator else !flags.queue && !Takes(r.owner[n], flags)
  }

  /** A new entry, or a place in the waiting queue for the newcomer or the previous owner. */
  ghost predicate NeedsMemory(r: Reg, c: nat, n: Name, flags: Flags) {
    if n !in r.owner then c !in r.activatorOf
    else
      && c !in r.activators && !HasAlready(r, c, n)
      && if Takes(r.owner[n], flags) then !r.owner[n].flags.activator && r.owner[n].flags.queue else flags.queue
  }

  /** The previous owner waits at the end of the queue if it asked for that. */
  ghost predicate Displaced(r: Reg, r': Reg, n: Name)
    requires n in r.owner
  {
    var o := r.owner[n];
    n in r.queue && r'.queue ==
      if o.flags.queue && !o.flags.activator
      then r.queue[n := r.queue[n] + [Pending(r.nextPending, o.flags, o.conn, n)]]
      else r.queue
  }

  lemma {:induction false} AttachedAcquires(r: Reg, c: nat, n: Name)
    requires n in r.owner && n in r.queue && c in r.activators && c !in r.activatorOf && n !in r.activator
    ensures Acquired(r, Attached(r, n, c), c, n, ACTIVATOR, false)
  {
  }

  lemma {:induction false} AcquiredMeans(r: Reg, r': Reg, c: nat, n: Name, flags: Flags, inQueue: bool)
    requires Acquired(r, r', c, n, flags, inQueue)
    ensures Obtained(r, r', c, n, flags, inQueue)
  {
  }

  lemma {:induction false} FirstOwner(r: Reg, c: nat, n: Name, flags: Flags, id: nat)
    requires
      && Sound(r, {}) && n !in r.owner && c in r.names && c !in r.activatorOf
      && (flags.activator <==> c in r.activators) && id > 0
    ensures var r' := Created(r, n, Owner(c, flags), id); Sound(r', {}) && Acquired(r, r', c, n, flags, false)
  {
    CreatedSound(r, n, Owner(c, flags), id);
  }

  /** The successful outcomes for an ordinary connection that asks for a name somebody else owns. */
  ghost function Claimed(r: Reg, c: nat, n: Name, flags: Flags): Reg
    requires n in r.owner && n in r.queue
  {
    var o := r.owner[n];
    if o.flags.activator then Passed(Moving(r, c, o.conn, 0), n, Owner(c, flags))
    else if !Takes(o, flags) then Waiting(r, Pending(r.nextPending, flags, c, n))
    else Passed(if o.flags.queue then Waiting(r, Pending(r.nextPending, o.flags, o.conn, n)) else r, n, Owner(c, flags))
  }

  lemma {:induction false} ClaimedSound(r: Reg, c: nat, n: Name, flags: Flags)
    requires
      && Sound(r, {}) && n in r.owner && c in r.names && r.owner[n].conn != c && c !in r.activators && !flags.activator
    ensures n in r.queue && Sound(Claimed(r, c, n, flags), {})
  {
    assert OwnerOk(r.owner, r.names, n) && Flagged(r, n, {});
    var o := r.owner[n];
    if o.flags.activator {
      EscortSound(r, n, Owner(c, flags), 0, {});
    } else if !Takes(o, flags) {
      WaitingSound(r, Pending(r.nextPending, flags, c, n), {});
    } else if o.flags.queue {
      var p := Pending(r.nextPending, o.flags, o.conn, n);
      WaitingSound(r, p, {});
      PassedSound(Waiting(r, p), n, Owner(c, flags), {});
    } else {
      PassedSound(r, n, Owner(c, flags), {});
    }
  }

  lemma {:induction false} ClaimedAcquires(r: Reg, c: nat, n: Name, flags: Flags)
    requires n in r.owner && n in r.queue && c !in r.activators && r.owner[n].conn != c
    requires c !in r.activatorOf && !Busy(r, c, n, flags)
    ensures Acquired(r, Claimed(r, c, n, flags), c, n, flags, !Takes(r.owner[n], flags))
  {
  }

  /** The connection owns nothing, waits for nothing and activates nothing. */
  ghost predicate Absent(r: Reg, c: nat) {
    && (forall n :: n in r.owner ==> r.owner[n].conn != c)
    && (forall n, p :: n in r.queue && p in r.queue[n] ==> p.conn != c)
    && (forall n :: n in r.activator ==> r.activator[n] != c)
  }

  lemma {:induction false} GoneAbsent(r: Reg, c: nat)
    requires Sound(r, {}) && c !in r.names
    ensures Absent(r, c)
  {
    forall n | n in r.owner ensures r.owner[n].conn != c {
      assert OwnerOk(r.owner, r.names, n);
    }
    forall n, p | n in r.queue && p in r.queue[n] ensures p.conn != c {
      assert QueueOk(r.queue, r.waits, n);
    }
    forall n | n in r.activator ensures r.activator[n] != c {
      assert ActivatorOk(r.activator, r.activatorOf, n);
    }
  }

  // ---------------------------------------------------------------- a connection gives up everything

  /** The waiters other than c, in their order. */
  ghost function Rest(q: seq<Pending>, c: nat): seq<Pending> {
    if q == [] then [] else (if q[0].conn == c then [] else [q[0]]) + Rest(q[1..], c)
  }

  lemma {:induction false} RestMinus(q: seq<Pending>, p: Pending)
    ensures Rest(Minus(q, p), p.conn) == Rest(q, p.conn)
    decreases |q|
  {
    if q != [] && q[0] != p {
      RestMinus(q[1..], p);
      var m := Minus(q[1..], p);
      assert ([q[0]] + m)[1..] == m;
    }
  }

  lemma {:induction false} RestAll(q: seq<Pending>, c: nat)
    requires forall p :: p in q ==> p.conn != c
    ensures Rest(q, c) == q
    decreases |q|
  {
    if q != [] {
      RestAll(q[1..], c);
    }
  }

  /** Who has the name once c is gone: the first other waiter inherits from c, else the activator. */
  ghost function NextOwner(r: Reg, c: nat, n: Name): Option<Owner>
    requires n in r.owner && n in r.queue
  {
    var q := Rest(r.queue[n], c);
    if r.owner[n].conn != c then Some(r.owner[n])
    else if q != [] then Some(Owner(q[0].conn, q[0].flags))
    else if n in r.activator && r.activator[n] != c then Some(Owner(r.activator[n], ACTIVATOR))
    else None
  }

  /** Who waits for it then. */
  ghost function NextQueue(r: Reg, c: nat, n: Name): seq<Pending>
    requires n in r.owner && n in r.queue
  {
    var q := Rest(r.queue[n], c);
    if r.owner[n].conn == c && q != [] then q[1..] else q
  }

  ghost predicate PassedOn(r: Reg, r': Reg, c: nat, n: Name)
    requires n in r.owner && n in r.queue
  {
    if NextOwner(r, c, n).None? then n !in r'.owner
    else n in r'.owner && r'.owner[n] == NextOwner(r, c, n).value && n in r'.queue && r'.queue[n] == NextQueue(r, c, n)
  }

  /** Every name went to its heir, and everybody else keeps their names and places. */
  ghost predicate Inherited(r: Reg, r': Reg, c: nat) {
    (&& r'.owner.Keys <= r.owner.Keys
     && (forall n {:trigger PassedOn(r, r', c, n)} :: n in r.owner && n in r.queue ==> PassedOn(r, r', c, n))) == true
  }

  /** Only places of c in waiting queues were given up. */
  ghost predicate SameRest(r: Reg, r': Reg, c: nat) {
    (&& r'.owner == r.owner && r'.queue.Keys == r.queue.Keys
     && (forall n :: n in r.queue ==> Rest(r'.queue[n], c) == Rest(r.queue[n], c))) == true
  }

  lemma {:induction false} UnwaitingRest(r0: Reg, r: Reg, p: Pending)
    requires SameRest(r0, r, p.conn) && p.name in r.queue
    ensures SameRest(r0, Unwaiting(r, p.name, p), p.conn)
  {
    RestMinus(r.queue[p.name], p);
  }

  lemma {:induction false} OnlyOthersWait(r: Reg, c: nat)
    requires Sound(r, {c}) && c in r.waits && r.waits[c] == []
    ensures forall n :: n in r.queue ==> Rest(r.queue[n], c) == r.queue[n]
    ensures forall n, p :: n in r.queue && p in r.queue[n] ==> p.conn != c
  {
    forall n | n in r.queue ensures Rest(r.queue[n], c) == r.queue[n] && forall p :: p in r.queue[n] ==> p.conn != c {
      assert QueueOk(r.queue, r.waits, n);
      RestAll(r.queue[n], c);
    }
  }

  /** The names that still belong to c are as they were, the others passed on. */
  ghost predicate HalfPassed(r0: Reg, r: Reg, c: nat) {
    (&& r.owner.Keys <= r0.owner.Keys && r.activator == r0.activator
     && (forall n {:trigger HalfDone(r0, r, c, n)} :: n in r0.owner && n in r0.queue ==> HalfDone(r0, r, c, n))) == true
  }

  ghost predicate HalfDone(r0: Reg, r: Reg, c: nat, n: Name)
    requires n in r0.owner && n in r0.queue
  {
    if n in r.owner && r.owner[n].conn == c
    then r0.owner[n].conn == c && n in r.queue && r.queue[n] == r0.queue[n]
    else PassedOn(r0, r, c, n)
  }

  lemma {:induction false} NonePassed(r: Reg, c: nat)
    requires Sound(r, {c}) && c in r.waits && r.waits[c] == []
    ensures HalfPassed(r, r, c)
  {
    OnlyOthersWait(r, c);
    forall n | n in r.owner && n in r.queue ensures HalfDone(r, r, c, n) {
    }
  }

  lemma {:induction false} ReleasedQueue(r: Reg, n: Name)
    requires n in r.owner && n in r.queue && n in r.nameId
    ensures var r' := Released(r, n);
      && (Heir(r, n).Some? ==> n in r'.queue && r'.queue[n] == if r.queue[n] == [] then [] else r.queue[n][1..])
      && (forall m :: m != n ==> (m in r'.queue <==> m in r.queue) && (m in r.queue ==> r'.queue[m] == r.queue[m]))
  {
  }

  lemma {:induction false} OneMorePassed(r0: Reg, r: Reg, c: nat, n: Name)
    requires Sound(r0, {c}) && c in r0.waits && r0.waits[c] == [] && Sound(r, {c}) && HalfPassed(r0, r, c)
    requires n in r.owner && r.owner[n].conn == c && n in r0.queue
    ensures n in r.queue && n in r.nameId && HalfPassed(r0, Released(r, n), c)
  {
    var r' := Released(r, n);
    HeirPassed(r0, r, c, n);
    ReleasedHeir(r, n);
    ReleasedQueue(r, n);
    forall m | m in r0.owner && m in r0.queue ensures HalfDone(r0, r', c, m) {
      assert HalfDone(r0, r, c, m);
      if m != n {
        StillHalf(r0, r, r', c, m);
      }
    }
  }

  lemma {:induction false} StillHalf(r0: Reg, r: Reg, r': Reg, c: nat, m: Name)
    requires m in r0.owner && m in r0.queue && HalfDone(r0, r, c, m)
    requires (m in r'.owner <==> m in r.owner) && (m in r.owner ==> r'.owner[m] == r.owner[m])
    requires (m in r'.queue <==> m in r.queue) && (m in r.queue ==> r'.queue[m] == r.queue[m])
    ensures HalfDone(r0, r', c, m)
  {
  }

  lemma {:induction false} HeirPassed(r0: Reg, r: Reg, c: nat, n: Name)
    requires Sound(r0, {c}) && c in r0.waits && r0.waits[c] == [] && Sound(r, {c}) && r.activator == r0.activator
    requires n in r.owner && r.owner[n].conn == c && n in r0.queue && n in r0.owner && HalfDone(r0, r, c, n)
    ensures n in r.queue && n in r.nameId && HalfDone(r0, Released(r, n), c, n)
  {
    ReleasedHeir(r, n);
    ReleasedQueue(r, n);
    assert Rest(r0.queue[n], c) == r0.queue[n] && (r.queue[n] != [] ==> r.queue[n][0].conn != c) by {
      OnlyOthersWait(r0, c);
      assert r.queue[n] != [] ==> r.queue[n][0] in r0.queue[n];
    }
    assert n in r.activator ==> r.activator[n] != c by {
      assert n in r.activator ==> ActivatorOk(r.activator, r.activatorOf, n);
    }
  }

  lemma {:induction false} AllPassed(r0: Reg, r: Reg, c: nat)
    requires HalfPassed(r0, r, c) && Sound(r, {c}) && c in r.names && r.names[c] == []
    ensures Inherited(r0, r, c)
  {
    forall n | n in r0.owner && n in r0.queue ensures PassedOn(r0, r, c, n) {
      assert HalfDone(r0, r, c, n);
      assert n in r.owner ==> OwnerOk(r.owner, r.names, n);
    }
  }

  /** The link and the places of c itself have no part in who inherits. */
  lemma {:induction false} InheritedSince(r: Reg, r0: Reg, r': Reg, c: nat)
    requires Sound(r, {}) && SameRest(r, r0, c) && Inherited(r0, r', c)
    requires r0.activator == if c in r.activatorOf then r.activator - {r.activatorOf[c]} else r.activator
    ensures Inherited(r, r', c)
  {
    forall n | n in r.owner && n in r.queue ensures PassedOn(r, r', c, n) {
      assert PassedOn(r0, r', c, n);
      assert n in r.activator ==> ActivatorOk(r.activator, r.activatorOf, n);
      assert c in r.activatorOf ==> ActivatorOfOk(r.activator, r.activatorOf, c);
    }
  }

  lemma {:induction false} GoneInherited(r: Reg, r': Reg, c: nat)
    requires Inherited(r, r', c)
    ensures Inherited(r, Gone(r', c), c)
  {
    forall n | n in r.owner && n in r.queue ensures PassedOn(r, Gone(r', c), c, n) {
      assert PassedOn(r, r', c, n);
    }
  }

  lemma {:induction false} RestIs(q: seq<Pending>, c: nat)
    ensures forall p :: p in Rest(q, c) <==> p in q && p.conn != c
    decreases |q|
  {
    if q != [] {
      RestIs(q[1..], c);
      assert q == [q[0]] + q[1..];
    }
  }

  lemma {:induction false} RestNone(q: seq<Pending>, c: nat)
    requires forall p :: p in q ==> p.conn == c
    ensures Rest(q, c) == []
    decreases |q|
  {
    if q != [] {
      RestNone(q[1..], c);
    }
  }

  lemma {:induction false} RestFirst(q: seq<Pending>, c: nat, k: nat)
    requires k < |q| && q[k].conn != c && forall j :: 0 <= j < k ==> q[j].conn == c
    ensures Rest(q, c) == [q[k]] + Rest(q[k + 1..], c)
    decreases k
  {
    if k > 0 {
      assert forall j :: 0 <= j < |q| - 1 ==> q[1..][j] == q[j + 1];
      RestFirst(q[1..], c, k - 1);
      assert q[1..][k..] == q[k + 1..];
    }
  }

  /** When c goes, the names of others stay with them, and so do the places of everybody else. */
  lemma {:induction false} OthersKeep(r: Reg, r': Reg, c: nat, n: Name)
    requires Inherited(r, r', c) && n in r.owner && n in r.queue && r.owner[n].conn != c
    ensures n in r'.owner && r'.owner[n] == r.owner[n] && n in r'.queue
    ensures forall p :: p in r'.queue[n] <==> p in r.queue[n] && p.conn != c
  {
    assert PassedOn(r, r', c, n);
    RestIs(r.queue[n], c);
  }

  /** A name of c goes to whoever waits longest besides c; those behind go on waiting. */
  lemma {:induction false} WaiterInherits(r: Reg, r': Reg, c: nat, n: Name, k: nat)
    requires Inherited(r, r', c) && n in r.owner && n in r.queue && r.owner[n].conn == c
    requires k < |r.queue[n]| && r.queue[n][k].conn != c && forall j :: 0 <= j < k ==> r.queue[n][j].conn == c
    ensures n in r'.owner && r'.owner[n] == Owner(r.queue[n][k].conn, r.queue[n][k].flags) && n in r'.queue
    ensures forall p :: p in r'.queue[n] <==> p in r.queue[n][k + 1..] && p.conn != c
  {
    assert PassedOn(r, r', c, n);
    RestFirst(r.queue[n], c, k);
    RestIs(r.queue[n][k + 1..], c);
  }

  /** If nobody else waits it goes to the activator, or is gone if there is none but c. */
  lemma {:induction false} ActivatorInherits(r: Reg, r': Reg, c: nat, n: Name)
    requires Inherited(r, r', c) && n in r.owner && n in r.queue && r.owner[n].conn == c
    requires forall p :: p in r.queue[n] ==> p.conn == c
    ensures n in r'.owner <==> n in r.activator && r.activator[n] != c
    ensures n in r'.owner ==> r'.owner[n] == Owner(r.activator[n], Flags(false, false, false, true))
  {
    assert PassedOn(r, r', c, n);
    RestNone(r.queue[n], c);
  }

  // ---------------------------------------------------------------- an activator that cannot connect

  /** kdbus_name_release_all follows the link of an activator without asking whether it has one. */
  ghost predicate CanRelease(r: Reg, c: nat) {
    c in r.activators ==> c in r.activatorOf
  }

  /** Whether a connection gets on the bus: the announcement succeeds, and an activator gets its name. */
  ghost predicate Connects(r: Reg, isActivator: bool, announced: bool, name: Option<Name>, allowed: bool, oom: bool) {
    && announced
    && (isActivator ==> name.Some? && allowed && if name.value in r.owner then name.value !in r.activator else !oom)
  }

  /**
   One input that fails: the second activator for a name. The registry is consistent, but
   releasing the names of that activator is not possible.
   */
  lemma {:induction false} SecondActivator(n: Name)
    ensures var o := Owner(1, ACTIVATOR);
      var r := Created(Connected(Reg(map[], map[], map[], map[], map[], map[], map[], {}, 0, []), 1, true), n, o, 1);
      && Sound(r, {}) && !Connects(r, true, true, Some(n), true, false)
      && Sound(Connected(r, 2, true), {}) && !CanRelease(Connected(r, 2, true), 2)
  {
    var r0 := Reg(map[], map[], map[], map[], map[], map[], map[], {}, 0, []);
    ConnectedSound(r0, 1, true);
    CreatedSound(Connected(r0, 1, true), n, Owner(1, ACTIVATOR), 1);
    ConnectedSound(Created(Connected(r0, 1, true), n, Owner(1, ACTIVATOR), 1), 2, true);
  }

  // ---------------------------------------------------------------- the registry class

  lemma {:induction false} NotYetKnown(r: Reg, c: nat)
    requires Sound(r, {}) && c !in r.names
    ensures c !in r.activatorOf && forall n :: n in r.owner ==> r.owner[n].conn != c
  {
    GoneAbsent(r, c);
  }

  class Registry {
    var owner: map<Name, Owner>
    var queue: map<Name, seq<Pending>>
    var activator: map<Name, nat>
    var nameId: map<Name, nat>
    var nameSeqLast: nat
    var names: map<nat, seq<Name>>
    var waits: map<nat, seq<Pending>>
    var activatorOf: map<nat, Name>
    var activators: set<nat>
    var nextPending: nat
    var log: seq<Event>

    ghost function Now(): Reg
      reads this
    {
      Reg(owner, queue, activator, nameId, names, waits, activatorOf, activators, nextPending, log)
    }

    ghost predicate Valid()
      reads this
    {
      Sound(Now(), {})
    }

    constructor ()
      ensures Valid() && owner == map[] && names == map[] && log == []
    {
      owner, queue, activator, nameId, nameSeqLast := map[], map[], map[], map[], 0;
      names, waits, activatorOf, activators, nextPending, log := map[], map[], map[], {}, 0, [];
    }

    /** A connection joins the bus; `isActivator` is its type. */
    method Join(c: nat, isActivator: bool)
      requires Valid() && c !in names && c !in activators
      modifies this
      ensures Valid() && Now() == Connected(old(Now()), c, isActivator)
    {
      ConnectedSound(Now(), c, isActivator);
      names, waits := names[c := []], waits[c := []];
      if isActivator {
        activators := activators + {c};
      }
    }

    /**
     kdbus_conn_connect. When it fails, kdbus_conn_disconnect goes on to kdbus_name_release_all,
     which is safe for an activator exactly if the connection succeeded.
     */
    method Connect(c: nat, isActivator: bool, announced: bool, name: Option<Name>, allowed: bool, oom: bool)
      returns (ok: bool)
      requires Valid() && c !in names && c !in activators
      modifies this
      ensures Valid() && c in names
      ensures ok <==> Connects(old(Now()), isActivator, announced, name, allowed, oom)
      ensures ok <==>
        && announced
        && (isActivator ==>
              name.Some? && allowed && if name.value in old(owner) then name.value !in old(activator) else !oom)
      ensures CanRelease(Now(), c) <==> ok || !isActivator
      ensures !ok || !isActivator ==> Now() == Connected(old(Now()), c, isActivator)
      ensures ok && isActivator ==> Acquired(Connected(old(Now()), c, true), Now(), c, name.value, ACTIVATOR, false)
    {
      NotYetKnown(Now(), c);
      Join(c, isActivator);
      ok := announced;
      if announced && isActivator {
        if name.None? {
          return false;
        }
        ok := Activate(c, name.value, allowed, oom);
      }
    }

    /** An activator that owns nothing yet acquires its name. */
    method Activate(c: nat, n: Name, allowed: bool, oom: bool) returns (ok: bool)
      requires Valid() && c in names && c in activators && c !in activatorOf && (n in owner ==> owner[n].conn != c)
      modifies this
      ensures Valid() && c in names && activators == old(activators)
      ensures ok <==> allowed && if n in old(owner) then n !in old(activator) else !oom
      ensures if ok then Acquired(old(Now()), Now(), c, n, ACTIVATOR, false) else Now() == old(Now())
    {
      var ret, _ := Acquire(c, n, ACTIVATOR, allowed, oom);
      ok := ret == Done;
    }

    method SetOwner(n: Name, c: nat, flags: Flags)
      requires c in names
      modifies this`owner, this`names
      ensures owner == old(owner)[n := Owner(c, flags)] && names == old(names)[c := old(names)[c] + [n]]
    {
      owner, names := owner[n := Owner(c, flags)], names[c := names[c] + [n]];
    }

    method RemoveOwner(n: Name)
      requires n in owner && owner[n].conn in names
      modifies this`owner, this`names
      ensures owner == old(owner) - {n}
      ensures var c := old(owner)[n].conn; names == old(names)[c := Minus(old(names)[c], n)]
    {
      var c := owner[n].conn;
      names := names[c := Minus(names[c], n)];
      owner := owner - {n};
    }

    /** kdbus_name_entry_replace_owner, which does nothing if the connection owns the name already. */
    method ReplaceOwner(n: Name, c: nat, flags: Flags)
      requires n in owner && owner[n].conn in names && c in names
      modifies this`owner, this`names, this`log
      ensures Now() == if c == old(owner)[n].conn then old(Now()) else Passed(old(Now()), n, Owner(c, flags))
      ensures c != old(owner)[n].conn ==>
        && owner == old(owner)[n := Owner(c, flags)]
        && log == old(log) + [NameChange(n, old(owner)[n], Owner(c, flags))]
    {
      if c == owner[n].conn {
        return;
      }
      log := log + [NameChange(n, owner[n], Owner(c, flags))];
      RemoveOwner(n);
      SetOwner(n, c, flags);
      assert owner == old(owner)[n := Owner(c, flags)];
    }

    method PendingNew(n: Name, c: nat, flags: Flags)
      requires n in queue && c in waits
      modifies this`queue, this`waits, this`nextPending
      ensures Now() == Waiting(old(Now()), Pending(old(nextPending), flags, c, n))
    {
      var p := Pending(nextPending, flags, c, n);
      nextPending := nextPending + 1;
      waits, queue := waits[c := waits[c] + [p]], queue[n := queue[n] + [p]];
    }

    method PendingFree(p: Pending)
      requires p.name in queue && p.conn in waits
      modifies this`queue, this`waits
      ensures Now() == Unwaiting(old(Now()), p.name, p)
    {
      queue, waits := queue[p.name := Minus(queue[p.name], p)], waits[p.conn := Minus(waits[p.conn], p)];
    }

    method ReleaseUnlocked(n: Name, ghost leaving: set<nat>)
      requires Sound(Now(), leaving) && n in owner && (owner[n].flags.activator ==> owner[n].conn in leaving)
      modifies this`owner, this`queue, this`nameId, this`names, this`waits, this`log
      ensures n in old(queue) && n in old(nameId) && Now() == Released(old(Now()), n)
      ensures Sound(Now(), leaving)
    {
      ghost var r := Now();
      assert OwnerOk(owner, names, n) && QueueOk(queue, waits, n);
      if queue[n] != [] {
        var p := queue[n][0];
        assert p in queue[n];
        ReplaceOwner(n, p.conn, p.flags);
        PendingFree(p);
      } else if n in activator && activator[n] != owner[n].conn {
        assert ActivatorOk(activator, activatorOf, n);
        log := log + [MovedMessages(activator[n], owner[n].conn, nameId[n])];
        ReplaceOwner(n, activator[n], ACTIVATOR);
      } else {
        log := log + [NameRemove(n, owner[n])];
        RemoveOwner(n);
        queue, nameId := queue - {n}, nameId - {n};
      }
      assert Now() == Released(r, n);
      ReleasedSound(r, n, leaving);
    }

    /** kdbus_name_release by an ordinary connection. */
    method Release(c: nat, n: Name) returns (ret: Ret)
      requires Valid() && c in names && c !in activators
      modifies this`owner, this`queue, this`nameId, this`names, this`waits, this`log
      ensures Valid()
      ensures ret == ESRCH <==> n !in old(owner)
      ensures n in old(owner) && old(owner)[n].conn == c ==>
        ret == Done && n in old(queue) && n in old(nameId) && Now() == Released(old(Now()), n)
      ensures n in old(owner) && old(owner)[n].conn != c ==>
        n in old(queue) && ret == (if WaiterOf(old(queue)[n], c).Some? then Done else EADDRINUSE)
      ensures ret == Done && old(owner)[n].conn != c ==>
        && n in old(queue) && WaiterOf(old(queue)[n], c).Some?
        && Now() == Unwaiting(old(Now()), n, WaiterOf(old(queue)[n], c).value)
      ensures ret != Done ==> Now() == old(Now())
      ensures ret == EADDRINUSE <==>
        n in old(owner) && old(owner)[n].conn != c && n in old(queue) && forall p :: p in old(queue)[n] ==> p.conn != c
      ensures ret == Done && old(owner)[n].conn != c ==>
        && owner == old(owner) && log == old(log) && n in old(queue)
        && exists k :: FirstOf(old(queue)[n], c, k)
             && queue == old(queue)[n := old(queue)[n][..k] + old(queue)[n][k + 1..]]
      ensures ret == Done && old(owner)[n].conn == c ==> HandedOn(old(Now()), Now(), n)
    {
      if n !in owner {
        return ESRCH;
      }
      assert Flagged(Now(), n, {}) && QueueOk(queue, waits, n);
      if owner[n].conn == c {
        ReleasedMeans(Now(), n);
        ReleaseUnlocked(n, {});
        return Done;
      }
      ret := EADDRINUSE;
      WaiterIs(queue[n], c);
      var p := FindWaiter(queue[n], c);
      if p.Some? {
        UnwaitingSound(Now(), p.value, {});
        PendingFree(p.value);
        ret := Done;
      }
    }

    /**
     kdbus_name_acquire. `allowed` is the verdict of the policy, `oom` the outcome of an
     allocation. Activators ask with the activator flag alone, ordinary connections without it.
     */
    method Acquire(c: nat, n: Name, flags: Flags, allowed: bool, oom: bool) returns (ret: Ret, inQueue: bool)
      requires Valid() && c in names && (if c in activators then flags == ACTIVATOR else !flags.activator)
      modifies this`owner, this`queue, this`nameId, this`nameSeqLast, this`names, this`waits, this`nextPending,
        this`activator, this`activatorOf, this`log
      ensures Valid() && c in names
      ensures ret == Done ==> Acquired(old(Now()), Now(), c, n, flags, inQueue)
      ensures ret == Done ==> Obtained(old(Now()), Now(), c, n, flags, inQueue)
      ensures ret == Done && n !in old(owner) ==>
        nameSeqLast == old(nameSeqLast) + 1 && nameId == old(nameId)[n := nameSeqLast]
      ensures ret != Done ==> Now() == old(Now())
      ensures ret == EPERM <==> !allowed
      ensures ret == ENOMEM <==>
        && allowed && oom
        && if n !in old(owner) then c !in old(activatorOf)
           else
             && c !in old(activators) && old(owner)[n].conn != c && !old(owner)[n].flags.activator
             && if flags.replaceExisting && old(owner)[n].flags.allowReplacement then old(owner)[n].flags.queue
                else flags.queue
      ensures ret != ESRCH && ret != EADDRINUSE
      ensures ret == EALREADY <==>
        && allowed && n in old(owner)
        && (old(owner)[n].conn == c || (c in old(activatorOf) && old(activatorOf)[c] == n))
      ensures ret == EINVAL <==>
        && allowed && c in old(activatorOf)
        && (n in old(owner) ==> old(owner)[n].conn != c && old(activatorOf)[c] != n)
      ensures ret == EEXIST <==>
        && allowed && n in old(owner) && old(owner)[n].conn != c
        && if c in old(activators) then c !in old(activatorOf) && n in old(activator)
           else
             && !flags.queue && !old(owner)[n].flags.activator
             && !(flags.replaceExisting && old(owner)[n].flags.allowReplacement)
    {
      ret, inQueue := Arbitrate(c, n, flags, allowed, oom);
      if ret == Done {
        AcquiredMeans(old(Now()), Now(), c, n, flags, inQueue);
      }
    }

    method Arbitrate(c: nat, n: Name, flags: Flags, allowed: bool, oom: bool) returns (ret: Ret, inQueue: bool)
      requires Valid() && c in names && (if c in activators then flags == ACTIVATOR else !flags.activator)
      modifies this`owner, this`queue, this`nameId, this`nameSeqLast, this`names, this`waits, this`nextPending,
        this`activator, this`activatorOf, this`log
      ensures Valid() && c in names
      ensures ret == Done ==> Acquired(old(Now()), Now(), c, n, flags, inQueue)
      ensures ret == Done && n !in old(owner) ==>
        nameSeqLast == old(nameSeqLast) + 1 && nameId == old(nameId)[n := nameSeqLast]
      ensures ret != Done ==> Now() == old(Now())
      ensures ret == EPERM <==> !allowed
      ensures ret == ENOMEM <==> allowed && oom && NeedsMemory(old(Now()), c, n, flags)
      ensures ret != ESRCH && ret != EADDRINUSE
      ensures ret == EALREADY <==> allowed && HasAlready(old(Now()), c, n)
      ensures ret == EEXIST <==> allowed && Busy(old(Now()), c, n, flags)
      ensures ret == EINVAL <==> allowed && c in old(activatorOf) && !HasAlready(old(Now()), c, n)
    {
      inQueue := false;
      if !allowed {
        return EPERM, false;
      }
      if n !in owner {
        ret := ClaimNew(c, n, flags, oom);
        return ret, false;
      }
      if owner[n].conn == c || (c in activatorOf && activatorOf[c] == n) {
        return EALREADY, false;
      }
      if c in activators {
        ret := Attach(c, n);
        return ret, false;
      }
      ClaimedSound(Now(), c, n, flags);
      if flags.queue || Takes(owner[n], flags) {
        ClaimedAcquires(Now(), c, n, flags);
      }
      ret, inQueue := Claim(c, n, flags, oom);
    }

    /** Nobody has the name yet. */
    method ClaimNew(c: nat, n: Name, flags: Flags, oom: bool) returns (ret: Ret)
      requires Valid() && n !in owner && c in names && (flags.activator <==> c in activators)
      modifies this`owner, this`queue, this`nameId, this`nameSeqLast, this`names, this`activator, this`activatorOf,
        this`log
      ensures Valid() && ret == if c in old(activatorOf) then EINVAL else if oom then ENOMEM else Done
      ensures if ret == Done then Acquired(old(Now()), Now(), c, n, flags, false) else Now() == old(Now())
      ensures ret == Done ==> nameSeqLast == old(nameSeqLast) + 1 && nameId == old(nameId)[n := nameSeqLast]
    {
      if c !in activatorOf {
        FirstOwner(Now(), c, n, flags, nameSeqLast + 1);
      }
      ret := TryCreate(c, n, flags, oom);
    }

    method TryCreate(c: nat, n: Name, flags: Flags, oom: bool) returns (ret: Ret)
      requires c in names
      modifies this`owner, this`queue, this`nameId, this`nameSeqLast, this`names, this`activator, this`activatorOf,
        this`log
      ensures ret == if c in old(activatorOf) then EINVAL else if oom then ENOMEM else Done
      ensures Now() == if ret == Done then Created(old(Now()), n, Owner(c, flags), old(nameSeqLast) + 1) else old(Now())
      ensures ret == Done ==> nameSeqLast == old(nameSeqLast) + 1 && nameId == old(nameId)[n := nameSeqLast]
    {
      if c in activatorOf {
        return EINVAL;
      }
      if oom {
        return ENOMEM;
      }
      Create(n, c, flags);
      return Done;
    }

    /** An activator asks for a name somebody else owns: it gets the link, not the name. */
    method Attach(c: nat, n: Name) returns (ret: Ret)
      requires Valid() && n in owner && c in names && c in activators
      modifies this`activator, this`activatorOf
      ensures Valid() && ret == if c in old(activatorOf) then EINVAL else if n in old(activator) then EEXIST else Done
      ensures if ret == Done then Acquired(old(Now()), Now(), c, n, ACTIVATOR, false) else Now() == old(Now())
    {
      if c in activatorOf {
        return EINVAL;
      }
      if n in activator {
        return EEXIST;
      }
      AttachedSound(Now(), n, c);
      AttachedAcquires(Now(), c, n);
      activator, activatorOf := activator[n := c], activatorOf[c := n];
      return Done;
    }

    method EntryNew(n: Name)
      modifies this`queue, this`nameId, this`nameSeqLast
      ensures
        && nameSeqLast == old(nameSeqLast) + 1 && queue == old(queue)[n := []]
        && nameId == old(nameId)[n := nameSeqLast]
    {
      nameSeqLast := nameSeqLast + 1;
      nameId, queue := nameId[n := nameSeqLast], queue[n := []];
    }

    method LinkActivator(n: Name, c: nat)
      modifies this`activator, this`activatorOf
      ensures activator == if c in activators then old(activator)[n := c] else old(activator)
      ensures activatorOf == if c in activators then old(activatorOf)[c := n] else old(activatorOf)
    {
      if c in activators {
        activator, activatorOf := activator[n := c], activatorOf[c := n];
      }
    }

    method Create(n: Name, c: nat, flags: Flags)
      requires c in names
      modifies this`owner, this`queue, this`nameId, this`nameSeqLast, this`names, this`activator, this`activatorOf,
        this`log
      ensures nameSeqLast == old(nameSeqLast) + 1 && Now() == Created(old(Now()), n, Owner(c, flags), nameSeqLast)
    {
      EntryNew(n);
      LinkActivator(n, c);
      SetOwner(n, c, flags);
      log := log + [NameAdd(n, Owner(c, flags))];
    }

    /** An ordinary connection asks for a name somebody else owns. */
    method Claim(c: nat, n: Name, flags: Flags, oom: bool) returns (ret: Ret, inQueue: bool)
      requires Valid() && n in owner && c in names && owner[n].conn != c && c !in activators && !flags.activator
      modifies this`owner, this`queue, this`names, this`waits, this`nextPending, this`log
      ensures ret == (if oom && NeedsMemory(old(Now()), c, n, flags) then ENOMEM
                      else if Busy(old(Now()), c, n, flags) then EEXIST else Done)
      ensures ret == Done ==>
        inQueue == !Takes(old(owner)[n], flags) && n in old(queue) && Now() == Claimed(old(Now()), c, n, flags)
      ensures ret != Done ==> Now() == old(Now())
    {
      assert OwnerOk(owner, names, n) && Flagged(Now(), n, {});
      if owner[n].flags.activator {
        log := log + [MovedMessages(c, activator[n], 0)];
        ReplaceOwner(n, c, flags);
        return Done, false;
      }
      if flags.replaceExisting && owner[n].flags.allowReplacement {
        if owner[n].flags.queue {
          if oom {
            return ENOMEM, false;
          }
          PendingNew(n, owner[n].conn, owner[n].flags);
        }
        ReplaceOwner(n, c, flags);
        return Done, false;
      }
      if !flags.queue {
        return EEXIST, false;
      }
      if oom {
        return ENOMEM, false;
      }
      PendingNew(n, c, flags);
      return Done, true;
    }

    /**
     kdbus_name_release_all, for a connection that is about to go. Its own places in waiting
     queues and its activator link are given up first, so that every name it releases goes to
     somebody else.
     */
    method ReleaseAll(c: nat)
      requires Valid() && c in names && CanRelease(Now(), c)
      modifies this
      ensures Valid() && c !in names && Absent(Now(), c)
      ensures Inherited(old(Now()), Now(), c)
    {
      ghost var r := Now();
      GiveUp(c);
      GoneSound(Now(), c);
      GoneInherited(r, Now(), c);
      names, waits := names - {c}, waits - {c};
      GoneAbsent(Now(), c);
    }

    method GiveUp(c: nat)
      requires Valid() && c in names && CanRelease(Now(), c)
      modifies this`owner, this`queue, this`nameId, this`names, this`waits, this`activator, this`activatorOf, this`log
      ensures Sound(Now(), {c}) && c in names && c in waits && names[c] == [] && waits[c] == [] && c !in activatorOf
      ensures Inherited(old(Now()), Now(), c)
    {
      ghost var r := Now();
      CutLink(c);
      DropWaits(c);
      ghost var r0 := Now();
      DropNames(c);
      InheritedSince(r, r0, Now(), c);
    }

    method CutLink(c: nat)
      requires Valid() && c in names && CanRelease(Now(), c)
      modifies this`activator, this`activatorOf
      ensures Sound(Now(), {c}) && c in waits && c !in activatorOf
      ensures activator == if c in old(activatorOf) then old(activator) - {old(activatorOf)[c]} else old(activator)
    {
      if c in activators {
        DetachedSound(Now(), c);
        activator, activatorOf := activator - {activatorOf[c]}, activatorOf - {c};
      } else {
        LeavingSound(Now(), c);
      }
    }

    method DropWaits(c: nat)
      requires Sound(Now(), {c}) && c in waits
      modifies this`queue, this`waits
      ensures Sound(Now(), {c}) && c in waits && waits[c] == [] && SameRest(old(Now()), Now(), c)
    {
      ghost var r := Now();
      while waits[c] != []
        invariant Sound(Now(), {c}) && c in waits && SameRest(r, Now(), c)
        decreases |waits[c]|
      {
        var p := waits[c][0];
        assert WaitsOk(queue, waits, c) && p in waits[c];
        UnwaitingSound(Now(), p, {c});
        UnwaitingRest(r, Now(), p);
        MinusMembers(waits[c], p);
        PendingFree(p);
      }
    }

    method DropNames(c: nat)
      requires Sound(Now(), {c}) && c in names && c in waits && waits[c] == []
      modifies this`owner, this`queue, this`nameId, this`names, this`waits, this`log
      ensures Sound(Now(), {c}) && c in names && c in waits && names[c] == [] && waits[c] == []
      ensures Inherited(old(Now()), Now(), c)
    {
      ghost var r := Now();
      NonePassed(r, c);
      while names[c] != []
        invariant Sound(Now(), {c}) && c in names && c in waits && waits[c] == [] && HalfPassed(r, Now(), c)
        decreases |names[c]|
      {
        var n := names[c][0];
        assert NamesOk(owner, names, c) && n in names[c];
        assert Flagged(Now(), n, {c});
        OneMorePassed(r, Now(), c, n);
        ReleasedLists(Now(), n, {c});
        ReleaseUnlocked(n, {c});
      }
      AllPassed(r, Now(), c);
    }
  }

  /** The connection's first place in a waiting queue. */
  ghost function WaiterOf(q: seq<Pending>, c: nat): Option<Pending> {
    if q == [] then None else if q[0].conn == c then Some(q[0]) else WaiterOf(q[1..], c)
  }

  /** No earlier place of the queue belongs to c. */
  ghost predicate FirstOf(q: seq<Pending>, c: nat, k: int) {
    0 <= k < |q| && q[k].conn == c && forall j :: 0 <= j < k ==> q[j].conn != c
  }

  /** Who waits has a first place; giving it up moves those behind it up by one. */
  lemma {:induction false} WaiterIs(q: seq<Pending>, c: nat)
    ensures WaiterOf(q, c).None? <==> forall p :: p in q ==> p.conn != c
    ensures WaiterOf(q, c).Some? ==>
      exists k :: FirstOf(q, c, k) && Minus(q, WaiterOf(q, c).value) == q[..k] + q[k + 1..]
    decreases |q|
  {
    if q != [] && q[0].conn != c {
      WaiterIs(q[1..], c);
      assert q == [q[0]] + q[1..];
    }
    if WaiterOf(q, c).Some? {
      var k := WaiterAt(q, c);
      MinusAt(q, k);
    }
  }

  lemma {:induction false} WaiterAt(q: seq<Pending>, c: nat) returns (k: nat)
    requires WaiterOf(q, c).Some?
    ensures FirstOf(q, c, k) && WaiterOf(q, c) == Some(q[k])
    decreases |q|
  {
    if q[0].conn == c {
      k := 0;
    } else {
      var m := WaiterAt(q[1..], c);
      assert forall j :: 0 <= j < |q| - 1 ==> q[1..][j] == q[j + 1];
      k := m + 1;
    }
  }

  lemma {:induction false} MinusAt(q: seq<Pending>, k: nat)
    requires k < |q| && forall j :: 0 <= j < k ==> q[j].conn != q[k].conn
    ensures Minus(q, q[k]) == q[..k] + q[k + 1..]
    decreases k
  {
    if k == 0 {
      assert q[..0] + q[1..] == q[1..];
    } else {
      var rest := q[1..];
      assert forall j :: 0 <= j < |rest| ==> rest[j] == q[j + 1];
      MinusAt(rest, k - 1);
      assert [q[0]] + (rest[..k - 1] + rest[k..]) == q[..k] + q[k + 1..];
    }
  }

  method FindWaiter(q: seq<Pending>, c: nat) returns (p: Option<Pending>)
    ensures
      && p == WaiterOf(q, c) && (p.Some? ==> p.value in q && p.value.conn == c)
      && (p.None? ==> forall x :: x in q ==> x.conn != c)
    ensures p.Some? ==>
      exists k :: 0 <= k < |q| && q[k] == p.value && q[k].conn == c && forall j :: 0 <= j < k ==> q[j].conn != c
  {
    var i := 0;
    while i < |q|
      invariant 0 <= i <= |q| && WaiterOf(q, c) == WaiterOf(q[i..], c) && forall k :: 0 <= k < i ==> q[k].conn != c
    {
      if q[i].conn == c {
        return Some(q[i]);
      }
      i := i + 1;
    }
    return None;
  }
}
