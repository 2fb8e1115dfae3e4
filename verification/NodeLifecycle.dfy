/**
 Node lifecycle as an interleaved protocol.

 Any number of threads link, activate, acquire, release and deactivate nodes of one
 hierarchy. Each step below is one critical section or one atomic operation of the
 implementation; a deactivating call carries a program counter that moves through the
 back-tracking loop. `active` is the biased counter itself, and the object reference
 counter is the number of elements of `refs`. The fields under "history" record facts that
 the counters only encode; guards read them only to name a reference its owner gives back.
 */
module NodeLifecycle {
  import opened Common

  const INT_MIN: int := -0x8000_0000
  const BIAS: int := INT_MIN + 5
  const RELEASE_DIRECT: int := BIAS - 1
  const RELEASE: int := BIAS - 2
  const DRAINED: int := BIAS - 3
  const NEW: int := BIAS - 4

  type NodeId = int
  type ThreadId = int

  /** Who holds an active reference: a task working on the node, or a link call on its parent. */
  datatype Holder = Task(key: nat) | LinkCall(tid: ThreadId)

  /** Who holds an object reference. */
  datatype Ref = External(key: nat) | Activation | Pin(tid: ThreadId) | ChildOf(child: NodeId)

  datatype Node = Node(
    active: int,
    refs: set<Ref>,
    parent: Option<NodeId>,
    linked: bool,                   // member of the parent's child tree
    rank: nat,                      // position of (hash, name) in the child ordering
    // history
    holders: set<Holder>,
    depth: nat,
    activated: bool,
    releaser: Option<ThreadId>,
    cbStarted: nat,
    cbDone: nat,
    actRefDrops: nat,
    settled: bool)                  // the releaser is through with the activation reference

  datatype Pc =
    | Mark(pos: NodeId)
    | AwaitRefs(pos: NodeId)
    | Inspect(pos: NodeId)
    | CallCb(pos: NodeId, vPost: int)
    | InCb(pos: NodeId, vPost: int)
    | Erase(pos: NodeId, vPost: int)
    | Drain(pos: NodeId, vPost: int)
    | DropRef(pos: NodeId, vPost: int)
    | AwaitDrained(pos: NodeId)
    | Ascend(pos: NodeId)
    | Returned(pos: NodeId)

  /** One call of kdbus_node_deactivate; `key` names the object reference of its caller. */
  datatype Call = Call(root: NodeId, key: nat, pc: Pc)

  datatype LinkPc = Insert | Unlock | Finished

  /** One call of kdbus_node_link that acquired its parent. */
  datatype LinkOp = LinkOp(child: NodeId, parent: NodeId, rank: nat, pc: LinkPc)

  datatype State = State(nodes: map<NodeId, Node>, calls: map<ThreadId, Call>, links: map<ThreadId, LinkOp>)

  const Empty := State(map[], map[], map[])

  // ---------------------------------------------------------------- views

  ghost predicate IsChild(s: State, c: NodeId, p: NodeId) {
    c in s.nodes && s.nodes[c].parent == Some(p) && s.nodes[c].linked
  }

  /** rb_first of the child tree of p. */
  ghost predicate IsFirstChild(s: State, c: NodeId, p: NodeId) {
    IsChild(s, c, p) && forall d :: IsChild(s, d, p) ==> s.nodes[c].rank <= s.nodes[d].rank
  }

  ghost predicate NameTaken(s: State, p: NodeId, rank: nat) {
    exists d :: IsChild(s, d, p) && s.nodes[d].rank == rank
  }

  ghost predicate Running(s: State, t: ThreadId) {
    t in s.calls && !s.calls[t].pc.Returned?
  }

  ghost predicate At(s: State, t: ThreadId) {
    Running(s, t) && s.calls[t].pc.pos in s.nodes
  }

  /** Some running deactivate call relies on the reference `key` of its caller. */
  ghost predicate CallerRefInUse(s: State, n: NodeId, key: nat) {
    exists t :: Running(s, t) && s.calls[t].root == n && s.calls[t].key == key
  }

  ghost predicate BeingDeactivated(s: State, n: NodeId) {
    exists t :: Running(s, t) && s.calls[t].root == n
  }

  ghost predicate Live(s: State, n: NodeId) {
    n in s.nodes && s.nodes[n].refs != {}
  }

  ghost predicate Linking(s: State, t: ThreadId, pc: LinkPc) {
    t in s.links && s.links[t].pc == pc && s.links[t].child in s.nodes && s.links[t].parent in s.nodes
  }

  ghost function SetNode(s: State, n: NodeId, x: Node): State {
    s.(nodes := s.nodes[n := x])
  }

  ghost function Goto(s: State, t: ThreadId, pc: Pc): State
    requires t in s.calls
  {
    s.(calls := s.calls[t := s.calls[t].(pc := pc)])
  }

  ghost function Pos(s: State, t: ThreadId): Node
    requires At(s, t)
  {
    s.nodes[s.calls[t].pc.pos]
  }

  // ---------------------------------------------------------------- invariant

  /** The counter encodes state and number of active references; callbacks follow the state. */
  ghost predicate NodeOk(x: Node) {
    && (|| (0 <= x.active < -BIAS && x.activated && x.active == |x.holders|)
        || (BIAS <= x.active < 0 && x.activated && x.active == BIAS + |x.holders|)
        || ((x.active == RELEASE_DIRECT || x.active == NEW) && !x.activated && x.holders == {})
        || ((x.active == RELEASE || x.active == DRAINED) && x.holders == {}))
    && (if x.active == RELEASE then
          x.releaser.Some? && x.cbDone <= x.cbStarted <= 1 && (x.linked || x.parent.None? || x.cbDone == 1)
        else if x.active == DRAINED then x.releaser.Some? && x.cbStarted == 1 && x.cbDone == 1 && !x.linked
        else x.releaser.None? && x.cbStarted == 0 && x.cbDone == 0 && (x.linked || x.parent.None?))
    && (x.linked ==> x.parent.Some?)
    && (x.refs == {} ==> x.active == DRAINED || (x.active == NEW && x.parent.None?))
    && (Activation in x.refs <==> x.activated && x.actRefDrops == 0)
    && (x.settled ==> x.active == DRAINED)
    && x.actRefDrops == (if x.settled && x.activated then 1 else 0)
  }

  /** The edge from n to its parent, and the references n's children hold on n. */
  ghost predicate EdgeOk(s: State, n: NodeId)
    requires n in s.nodes
  {
    var x := s.nodes[n];
    && (x.parent.Some? ==>
        && x.parent.value in s.nodes
        && var p := s.nodes[x.parent.value];
        && p.activated && x.depth == p.depth + 1
        && (x.linked ==> p.active != RELEASE && p.active != DRAINED)
        && (x.refs != {} ==> ChildOf(n) in p.refs))
    && (forall c :: ChildOf(c) in x.refs ==> c in s.nodes && s.nodes[c].parent == Some(n))
  }

  ghost predicate Pinned(s: State, t: ThreadId, n: NodeId) {
    n in s.nodes && Pin(t) in s.nodes[n].refs
  }

  /** A running call pins exactly the path from below its root down to its position. */
  ghost predicate PathOk(s: State, t: ThreadId, root: NodeId, pos: NodeId) {
    && root in s.nodes && pos in s.nodes
    && (pos == root || Pinned(s, t, pos))
    && (forall n {:trigger Pinned(s, t, n)} :: Pinned(s, t, n) ==>
          && s.nodes[root].depth < s.nodes[n].depth <= s.nodes[pos].depth
          && s.nodes[n].parent.Some?
          && (s.nodes[n].parent.value == root ||
              (s.nodes[n].parent.value in s.nodes && Pin(t) in s.nodes[s.nodes[n].parent.value].refs)))
    && (forall n, m {:trigger Pinned(s, t, n), Pinned(s, t, m)} ::
          Pinned(s, t, n) && Pinned(s, t, m) && s.nodes[n].depth == s.nodes[m].depth ==> n == m)
  }

  ghost predicate PcOk(t: ThreadId, pc: Pc, x: Node) {
    match pc
    case Mark(_) => true
    case AwaitRefs(_) => x.active < 0 && x.active != NEW
    case Inspect(_) => x.active <= BIAS && x.active != NEW
    case CallCb(_, v) =>
      x.active == RELEASE && x.releaser == Some(t) && ((v == BIAS) <==> x.activated) && x.cbStarted == 0
    case InCb(_, v) =>
      && x.active == RELEASE && x.releaser == Some(t) && ((v == BIAS) <==> x.activated)
      && x.cbStarted == 1 && x.cbDone == 0
    case Erase(_, v) => x.active == RELEASE && x.releaser == Some(t) && ((v == BIAS) <==> x.activated) && x.cbDone == 1
    case Drain(_, v) =>
      x.active == RELEASE && x.releaser == Some(t) && ((v == BIAS) <==> x.activated) && x.cbDone == 1 && !x.linked
    case DropRef(_, v) => x.active == DRAINED && x.releaser == Some(t) && ((v == BIAS) <==> x.activated) && !x.settled
    case AwaitDrained(_) => x.active == RELEASE || x.active == DRAINED
    case Ascend(_) => x.active == DRAINED
    case Returned(_) => x.active == DRAINED
  }

  ghost predicate CallOk(s: State, t: ThreadId)
    requires t in s.calls
  {
    var c := s.calls[t];
    && PathOk(s, t, c.root, c.pc.pos)
    && PcOk(t, c.pc, s.nodes[c.pc.pos])
    && (if c.pc.Returned? then c.pc.pos == c.root else External(c.key) in s.nodes[c.root].refs)
  }

  /** The thread that claimed a node is busy releasing it until it dealt with the activation reference. */
  ghost predicate ReleaserOk(s: State, n: NodeId)
    requires n in s.nodes
  {
    var r := s.nodes[n].releaser;
    r.Some? ==> r.value in s.calls && (s.nodes[n].settled || AtRelease(s.calls[r.value].pc, n))
  }

  ghost predicate AtRelease(pc: Pc, n: NodeId) {
    (pc.CallCb? || pc.InCb? || pc.Erase? || pc.Drain? || pc.DropRef?) && pc.pos == n
  }

  ghost predicate LinkOk(s: State, t: ThreadId)
    requires t in s.links
  {
    s.links[t].pc.Finished? || (s.links[t].parent in s.nodes && LinkCall(t) in s.nodes[s.links[t].parent].holders)
  }

  ghost predicate Inv(s: State) {
    && (forall n {:trigger NodeOk(s.nodes[n])} :: n in s.nodes ==> NodeOk(s.nodes[n]))
    && (forall n {:trigger EdgeOk(s, n)} :: n in s.nodes ==> EdgeOk(s, n))
    && (forall t {:trigger CallOk(s, t)} :: t in s.calls ==> CallOk(s, t))
    && (forall t {:trigger LinkOk(s, t)} :: t in s.links ==> LinkOk(s, t))
    && (forall n {:trigger ReleaserOk(s, n)} :: n in s.nodes ==> ReleaserOk(s, n))
    && (forall n, t {:trigger Pinned(s, t, n)} :: Pinned(s, t, n) ==> t in s.calls)
    && (forall c, d, p {:trigger IsChild(s, c, p), IsChild(s, d, p)} ::
          IsChild(s, c, p) && IsChild(s, d, p) && s.nodes[c].rank == s.nodes[d].rank ==> c == d)
  }

  // ---------------------------------------------------------------- frames

  ghost predicate StablePath(u: ThreadId, x: Node, y: Node) {
    x.depth == y.depth && (x.parent.Some? ==> y.parent == x.parent) && (Pin(u) in x.refs <==> Pin(u) in y.refs)
  }

  /** What a call of thread u may rely on while other threads change a node from x to y. */
  ghost predicate StableFor(u: ThreadId, x: Node, y: Node) {
    && StablePath(u, x, y)
    && (x.active < 0 && x.active != NEW ==> y.active < 0 && y.active != NEW)
    && (x.active <= BIAS && x.active != NEW ==> y.active <= BIAS && y.active != NEW)
    && (x.active == RELEASE ==> y.active == RELEASE || y.active == DRAINED)
    && (x.active == DRAINED ==> y.active == DRAINED && y.releaser == x.releaser)
    && (x.releaser == Some(u) ==>
        && y.releaser == x.releaser && y.active == x.active && y.activated == x.activated && y.cbStarted == x.cbStarted
        && y.cbDone == x.cbDone && (x.linked || !y.linked) && y.settled == x.settled)
    && (x.active == RELEASE ==> y.releaser == x.releaser)
  }

  /** What the child of a node may rely on while the node changes from x to y. */
  ghost predicate StableParent(c: NodeId, linked: bool, live: bool, x: Node, y: Node) {
    && x.depth == y.depth && (x.activated ==> y.activated)
    && (linked && x.active != RELEASE && x.active != DRAINED ==> y.active != RELEASE && y.active != DRAINED)
    && (live && ChildOf(c) in x.refs ==> ChildOf(c) in y.refs)
  }

  lemma FramePath(s: State, s': State, u: ThreadId, root: NodeId, pos: NodeId)
    requires PathOk(s, u, root, pos)
    requires forall n ::
      n in s.nodes && (n == root || Pinned(s, u, n)) ==> n in s'.nodes && StablePath(u, s.nodes[n], s'.nodes[n])
    requires forall n :: Pinned(s', u, n) ==> Pinned(s, u, n)
    ensures PathOk(s', u, root, pos)
  {
    assert pos == root || Pinned(s, u, pos);
    forall n | Pinned(s', u, n)
      ensures s'.nodes[root].depth < s'.nodes[n].depth <= s'.nodes[pos].depth
      ensures s'.nodes[n].parent.Some? && (s'.nodes[n].parent.value == root || Pinned(s', u, s'.nodes[n].parent.value))
      ensures s'.nodes[n].depth == s.nodes[n].depth
    {
      assert Pinned(s, u, n);
      var q := s.nodes[n].parent.value;
      assert q == root || Pinned(s, u, q);
    }
  }

  lemma FrameCall(s: State, s': State, u: ThreadId)
    requires u in s.calls && u in s'.calls && s'.calls[u] == s.calls[u] && CallOk(s, u)
    requires forall n ::
      n in s.nodes && (n == s.calls[u].root || Pinned(s, u, n)) ==>
        n in s'.nodes && StableFor(u, s.nodes[n], s'.nodes[n])
    requires forall n :: Pinned(s', u, n) ==> Pinned(s, u, n)
    requires !s.calls[u].pc.Returned? ==>
      s.calls[u].root in s'.nodes && External(s.calls[u].key) in s'.nodes[s.calls[u].root].refs
    ensures CallOk(s', u)
  {
    var c := s.calls[u];
    FramePath(s, s', u, c.root, c.pc.pos);
    assert c.pc.pos == c.root || Pinned(s, u, c.pc.pos);
    assert StableFor(u, s.nodes[c.pc.pos], s'.nodes[c.pc.pos]);
  }

  lemma FrameEdge(s: State, s': State, n: NodeId)
    requires n in s.nodes && n in s'.nodes && EdgeOk(s, n)
    requires s'.nodes[n].parent == s.nodes[n].parent && s'.nodes[n].depth == s.nodes[n].depth
    requires s'.nodes[n].linked ==> s.nodes[n].linked
    requires s'.nodes[n].refs != {} ==> s.nodes[n].refs != {}
    requires forall c :: ChildOf(c) in s'.nodes[n].refs ==> ChildOf(c) in s.nodes[n].refs
    requires s.nodes[n].parent.Some? ==>
      var p := s.nodes[n].parent.value;
      p in s'.nodes && StableParent(n, s'.nodes[n].linked, s'.nodes[n].refs != {}, s.nodes[p], s'.nodes[p])
    requires forall c ::
      c in s.nodes ==> c in s'.nodes && (s.nodes[c].parent.Some? ==> s'.nodes[c].parent == s.nodes[c].parent)
    ensures EdgeOk(s', n)
  {
  }

  // `== true` keeps the verifier from taking the predicate apart wherever it is to be proved.
  /** A step of the calls in `who` that changes one node, from x to y, in a way every other call tolerates. */
  ghost predicate OneNode(s: State, s': State, who: set<ThreadId>, n: NodeId, y: Node) {
    (&& n in s.nodes && s'.nodes == s.nodes[n := y]
     && NodeOk(y)
     && (forall u :: u in s.calls && u !in who ==> u in s'.calls && s'.calls[u] == s.calls[u])
     && (forall u :: u in s.calls && u !in who ==> StableFor(u, s.nodes[n], y))
     && (forall u :: Running(s, u) && u !in who && s.calls[u].root == n ==> External(s.calls[u].key) in y.refs)
     && (forall u :: u in s'.calls ==> u in s.calls)
     && (forall u :: u !in who ==> (Pin(u) in y.refs <==> Pin(u) in s.nodes[n].refs))
     && (forall u :: u in who ==> u in s.calls && u in s'.calls)
     && y.parent == s.nodes[n].parent && y.depth == s.nodes[n].depth && y.rank == s.nodes[n].rank
     && (y.linked ==> s.nodes[n].linked)
     && (s.nodes[n].refs == {} ==> y.refs == {})
     && (s.nodes[n].activated ==> y.activated)
     && (forall c :: ChildOf(c) in y.refs ==> ChildOf(c) in s.nodes[n].refs)
     && (forall c :: c in s.nodes && s.nodes[c].parent == Some(n) ==>
           StableParent(c, s.nodes[c].linked, s.nodes[c].refs != {}, s.nodes[n], y))
     && (y.releaser == s.nodes[n].releaser || (y.releaser.Some? && y.releaser.value in who))
     && (y.releaser.Some? && y.releaser.value !in who ==> y.settled == s.nodes[n].settled)) == true
  }

  lemma KeepEdges(s: State, s': State, who: set<ThreadId>, n: NodeId, y: Node)
    requires Inv(s) && OneNode(s, s', who, n, y)
    ensures forall m :: m in s'.nodes ==> NodeOk(s'.nodes[m]) && EdgeOk(s', m)
  {
    forall m | m in s'.nodes ensures NodeOk(s'.nodes[m]) && EdgeOk(s', m) {
      assert NodeOk(s.nodes[m]) && EdgeOk(s, m);
      FrameEdge(s, s', m);
    }
  }

  lemma KeepOtherCall(s: State, s': State, who: set<ThreadId>, n: NodeId, y: Node, u: ThreadId)
    requires Inv(s) && OneNode(s, s', who, n, y) && u in s.calls && u !in who
    ensures u in s'.calls && CallOk(s', u)
  {
    assert CallOk(s, u);
    forall m | m in s.nodes ensures m in s'.nodes && StableFor(u, s.nodes[m], s'.nodes[m]) {
    }
    forall m | Pinned(s', u, m) ensures Pinned(s, u, m) {
    }
    assert Running(s, u) || s.calls[u].pc.Returned?;
    FrameCall(s, s', u);
  }

  lemma KeepReleasers(s: State, s': State, who: set<ThreadId>, n: NodeId, y: Node, m: NodeId)
    requires Inv(s) && OneNode(s, s', who, n, y) && m in s'.nodes
    requires s'.nodes[m].releaser.Some? ==> s'.nodes[m].releaser.value !in who
    ensures ReleaserOk(s', m)
  {
    assert ReleaserOk(s, m);
    if s'.nodes[m].releaser.Some? {
      var r := s'.nodes[m].releaser.value;
      assert s.nodes[m].releaser.Some? && s.nodes[m].releaser.value == r;
      assert r in s.calls && r !in who;
    }
  }

  lemma KeepOneNode(s: State, s': State, who: set<ThreadId>, n: NodeId, y: Node)
    requires Inv(s) && OneNode(s, s', who, n, y)
    requires forall u :: u in s'.links ==> LinkOk(s', u)
    requires forall u :: u in who ==> CallOk(s', u)
    requires forall m ::
      m in s'.nodes && s'.nodes[m].releaser.Some? && s'.nodes[m].releaser.value in who ==> ReleaserOk(s', m)
    ensures Inv(s')
  {
    forall m | m in s'.nodes ensures ReleaserOk(s', m) {
      if s'.nodes[m].releaser.Some? ==> s'.nodes[m].releaser.value !in who {
        KeepReleasers(s, s', who, n, y, m);
      }
    }
    KeepEdges(s, s', who, n, y);
    forall u | u in s'.calls ensures CallOk(s', u) {
      if u !in who {
        KeepOtherCall(s, s', who, n, y, u);
      }
    }
    forall m, u | Pinned(s', u, m) ensures u in s'.calls {
      if u !in who { assert Pinned(s, u, m); }
    }
    forall c, d, p | IsChild(s', c, p) && IsChild(s', d, p) && s'.nodes[c].rank == s'.nodes[d].rank ensures c == d {
      assert IsChild(s, c, p) && IsChild(s, d, p);
    }
  }

  // ---------------------------------------------------------------- steps of kdbus_node_deactivate

  /** The statement at pc does not block, and it is not the descent into a child. */
  ghost predicate CanAdvance(s: State, t: ThreadId) {
    && At(s, t)
    && match s.calls[t].pc
       case AwaitRefs(n) => s.nodes[n].active <= BIAS
       case Inspect(n) => forall c :: !IsChild(s, c, n)
       case AwaitDrained(n) => s.nodes[n].active == DRAINED
       case Ascend(n) => n == s.calls[t].root
       case _ => true
  }

  /** What the statement at pc does to the current node x. */
  ghost function NextNode(t: ThreadId, pc: Pc, x: Node): Node {
    match pc
    case Mark(_) =>
      x.(active := if x.active >= 0 then x.active + BIAS else if x.active == NEW then RELEASE_DIRECT else x.active)
    case Inspect(_) =>
      if x.active == BIAS || x.active == RELEASE_DIRECT then x.(active := RELEASE, releaser := Some(t)) else x
    case CallCb(_, _) => x.(cbStarted := x.cbStarted + 1)
    case InCb(_, _) => x.(cbDone := x.cbDone + 1)
    case Erase(_, _) => x.(linked := false)
    case Drain(_, _) => x.(active := DRAINED)
    case DropRef(_, v) =>
      if v == BIAS then x.(refs := x.refs - {Activation}, actRefDrops := x.actRefDrops + 1, settled := true)
      else x.(settled := true)
    case _ => x
  }

  ghost function NextPc(pc: Pc, x: Node): Pc {
    match pc
    case Mark(n) => AwaitRefs(n)
    case AwaitRefs(n) => Inspect(n)
    case Inspect(n) => if x.active == BIAS || x.active == RELEASE_DIRECT then CallCb(n, x.active) else AwaitDrained(n)
    case CallCb(n, v) => InCb(n, v)
    case InCb(n, v) => Erase(n, v)
    case Erase(n, v) => Drain(n, v)
    case Drain(n, v) => DropRef(n, v)
    case DropRef(n, v) => Ascend(n)
    case AwaitDrained(n) => Ascend(n)
    case Ascend(n) => Returned(n)
    case Returned(n) => pc
  }

  ghost function DoAdvance(s: State, t: ThreadId): State
    requires CanAdvance(s, t)
  {
    var pc := s.calls[t].pc;
    Goto(SetNode(s, pc.pos, NextNode(t, pc, Pos(s, t))), t, NextPc(pc, Pos(s, t)))
  }

  ghost predicate CanDescend(s: State, t: ThreadId, c: NodeId) {
    At(s, t) && s.calls[t].pc.Inspect? && IsFirstChild(s, c, s.calls[t].pc.pos)
  }

  ghost function DoDescend(s: State, t: ThreadId, c: NodeId): State
    requires CanDescend(s, t, c)
  {
    Goto(SetNode(s, c, s.nodes[c].(refs := s.nodes[c].refs + {Pin(t)})), t, Mark(c))
  }

  ghost predicate CanAscend(s: State, t: ThreadId) {
    At(s, t) && s.calls[t].pc.Ascend? && s.calls[t].pc.pos != s.calls[t].root && Pos(s, t).parent.Some?
  }

  ghost function DoAscend(s: State, t: ThreadId): State
    requires CanAscend(s, t)
  {
    var x := Pos(s, t);
    Goto(SetNode(s, s.calls[t].pc.pos, x.(refs := x.refs - {Pin(t)})), t, Mark(x.parent.value))
  }

  // ---------------------------------------------------------------- preservation by those steps

  /** A change of t's current node from x to y that every other call tolerates. */
  ghost predicate Tolerable(t: ThreadId, x: Node, y: Node) {
    && NodeOk(y)
    && (forall u :: u != t ==> StableFor(u, x, y))
    && (Pin(t) in y.refs <==> Pin(t) in x.refs)
    && y.parent == x.parent && y.depth == x.depth && y.rank == x.rank
    && (y.linked ==> x.linked) && y.activated == x.activated && y.holders == x.holders
    && (y.refs == x.refs || y.refs == x.refs - {Activation})
    && (y.releaser == x.releaser || y.releaser == Some(t))
    && (y.releaser != Some(t) ==> y.settled == x.settled)
  }

  /** One statement on one node: the counter protocol, for every program point and every counter value. */
  lemma LocalStep(t: ThreadId, pc: Pc, x: Node)
    requires NodeOk(x) && PcOk(t, pc, x) && x.refs != {}
    requires pc.AwaitRefs? ==> x.active <= BIAS
    requires pc.AwaitDrained? ==> x.active == DRAINED
    ensures Tolerable(t, x, NextNode(t, pc, x))
    ensures PcOk(t, NextPc(pc, x), NextNode(t, pc, x))
  {
  }

  lemma KeepAdvance(s: State, t: ThreadId)
    requires Inv(s) && CanAdvance(s, t)
    ensures Inv(DoAdvance(s, t))
  {
    assert CallOk(s, t);
    OwnPath(s, t);
    OwnReleases(s, t);
    AdvanceLinks(s, t);
    AdvanceTolerated(s, t);
    KeepOneNode(s, DoAdvance(s, t), {t}, s.calls[t].pc.pos, NextNode(t, s.calls[t].pc, Pos(s, t)));
  }

  lemma AdvanceLinks(s: State, t: ThreadId)
    requires Inv(s) && CanAdvance(s, t)
    ensures var s' := DoAdvance(s, t); forall u :: u in s'.links ==> LinkOk(s', u)
  {
    var s' := DoAdvance(s, t);
    assert CallOk(s, t) && NodeOk(Pos(s, t));
    LocalStep(t, s.calls[t].pc, Pos(s, t));
    forall u | u in s'.links ensures LinkOk(s', u) {
      assert LinkOk(s, u);
    }
  }

  lemma AdvanceTolerated(s: State, t: ThreadId)
    requires Inv(s) && CanAdvance(s, t)
    ensures OneNode(s, DoAdvance(s, t), {t}, s.calls[t].pc.pos, NextNode(t, s.calls[t].pc, Pos(s, t)))
  {
    var pc, x := s.calls[t].pc, Pos(s, t);
    assert CallOk(s, t) && NodeOk(x);
    LocalStep(t, pc, x);
    ChildrenTolerate(s, pc.pos, NextNode(t, pc, x));
    CallersRef(s, pc.pos);
  }

  lemma OwnPath(s: State, t: ThreadId)
    requires Inv(s) && CanAdvance(s, t)
    ensures CallOk(DoAdvance(s, t), t)
  {
    assert CallOk(s, t) && NodeOk(Pos(s, t));
    LocalStep(t, s.calls[t].pc, Pos(s, t));
    FramePath(s, DoAdvance(s, t), t, s.calls[t].root, s.calls[t].pc.pos);
  }

  lemma OwnReleases(s: State, t: ThreadId)
    requires Inv(s) && CanAdvance(s, t)
    ensures forall m ::
      m in DoAdvance(s, t).nodes && DoAdvance(s, t).nodes[m].releaser == Some(t) ==> ReleaserOk(DoAdvance(s, t), m)
  {
    var s', n := DoAdvance(s, t), s.calls[t].pc.pos;
    assert CallOk(s, t);
    forall m | m in s'.nodes && s'.nodes[m].releaser == Some(t) ensures ReleaserOk(s', m) {
      assert ReleaserOk(s, m) && NodeOk(s.nodes[m]);
    }
  }

  lemma ChildrenTolerate(s: State, n: NodeId, y: Node)
    requires Inv(s) && n in s.nodes
    requires y.depth == s.nodes[n].depth && (s.nodes[n].activated ==> y.activated)
    requires y.active == RELEASE || y.active == DRAINED ==>
      s.nodes[n].active == RELEASE || s.nodes[n].active == DRAINED || forall c :: !IsChild(s, c, n)
    requires forall c :: c in s.nodes && s.nodes[c].refs != {} && ChildOf(c) in s.nodes[n].refs ==> ChildOf(c) in y.refs
    ensures forall c :: c in s.nodes && s.nodes[c].parent == Some(n) ==>
      StableParent(c, s.nodes[c].linked, s.nodes[c].refs != {}, s.nodes[n], y)
  {
    forall c | c in s.nodes && s.nodes[c].parent == Some(n)
      ensures StableParent(c, s.nodes[c].linked, s.nodes[c].refs != {}, s.nodes[n], y)
    {
      assert EdgeOk(s, c);
      assert s.nodes[c].linked ==> IsChild(s, c, n);
    }
  }

  lemma CallersRef(s: State, n: NodeId)
    requires Inv(s) && n in s.nodes
    ensures forall u :: Running(s, u) && s.calls[u].root == n ==> External(s.calls[u].key) in s.nodes[n].refs
  {
    forall u | Running(s, u) && s.calls[u].root == n ensures External(s.calls[u].key) in s.nodes[n].refs {
      assert CallOk(s, u);
    }
  }

  /** A running call that releases nothing pins or unpins n and moves on. */
  lemma KeepMove(s: State, t: ThreadId, n: NodeId, y: Node, pc: Pc)
    requires Inv(s) && Running(s, t) && n in s.nodes
    requires y == s.nodes[n].(refs := y.refs) && NodeOk(y) && s.nodes[n].refs != {}
    requires y.refs == s.nodes[n].refs + {Pin(t)} || y.refs == s.nodes[n].refs - {Pin(t)}
    requires forall m :: !AtRelease(s.calls[t].pc, m)
    requires CallOk(Goto(SetNode(s, n, y), t, pc), t)
    ensures Inv(Goto(SetNode(s, n, y), t, pc))
  {
    var s' := Goto(SetNode(s, n, y), t, pc);
    MoveTolerated(s, t, n, y, pc);
    forall u | u in s'.links ensures LinkOk(s', u) {
      assert LinkOk(s, u);
    }
    forall m | m in s'.nodes && s'.nodes[m].releaser == Some(t) ensures ReleaserOk(s', m) {
      assert ReleaserOk(s, m);
    }
    KeepOneNode(s, s', {t}, n, y);
  }

  lemma MoveTolerated(s: State, t: ThreadId, n: NodeId, y: Node, pc: Pc)
    requires Inv(s) && Running(s, t) && n in s.nodes
    requires y == s.nodes[n].(refs := y.refs) && NodeOk(y) && s.nodes[n].refs != {}
    requires y.refs == s.nodes[n].refs + {Pin(t)} || y.refs == s.nodes[n].refs - {Pin(t)}
    ensures OneNode(s, Goto(SetNode(s, n, y), t, pc), {t}, n, y)
  {
    PinTolerated(t, s.nodes[n], y);
    ChildrenTolerate(s, n, y);
    CallersRef(s, n);
  }

  lemma PinTolerated(t: ThreadId, x: Node, y: Node)
    requires y == x.(refs := y.refs) && (y.refs == x.refs + {Pin(t)} || y.refs == x.refs - {Pin(t)})
    ensures forall u :: u != t ==> StableFor(u, x, y)
  {
  }

  lemma KeepDescend(s: State, t: ThreadId, c: NodeId)
    requires Inv(s) && CanDescend(s, t, c)
    ensures Inv(DoDescend(s, t, c))
  {
    var x := s.nodes[c];
    assert CallOk(s, t) && NodeOk(x) && EdgeOk(s, c) && !Pinned(s, t, c);
    DescendPath(s, t, c);
    KeepMove(s, t, c, x.(refs := x.refs + {Pin(t)}), Mark(c));
  }

  lemma DescendPath(s: State, t: ThreadId, c: NodeId)
    requires Inv(s) && CanDescend(s, t, c) && !Pinned(s, t, c)
    ensures CallOk(DoDescend(s, t, c), t)
  {
    var s' := DoDescend(s, t, c);
    var root, pos := s.calls[t].root, s.calls[t].pc.pos;
    assert CallOk(s, t) && EdgeOk(s, c);
    assert c != root by {
      assert pos == root || Pinned(s, t, pos);
    }
    forall n | Pinned(s', t, n) ensures n == c || Pinned(s, t, n) {
    }
    forall n | Pinned(s', t, n)
      ensures s'.nodes[root].depth < s'.nodes[n].depth <= s'.nodes[c].depth
      ensures s'.nodes[n].parent.Some? && (s'.nodes[n].parent.value == root || Pinned(s', t, s'.nodes[n].parent.value))
    {
      assert pos == root || Pinned(s, t, pos);
      if n != c {
        assert Pinned(s, t, n);
      }
    }
  }

  lemma KeepAscend(s: State, t: ThreadId)
    requires Inv(s) && CanAscend(s, t)
    ensures Inv(DoAscend(s, t))
  {
    var x := Pos(s, t);
    assert CallOk(s, t) && NodeOk(x);
    AscendPath(s, t);
    KeepMove(s, t, s.calls[t].pc.pos, x.(refs := x.refs - {Pin(t)}), Mark(x.parent.value));
  }

  lemma AscendPath(s: State, t: ThreadId)
    requires Inv(s) && CanAscend(s, t)
    ensures CallOk(DoAscend(s, t), t)
  {
    var s' := DoAscend(s, t);
    var root, pos := s.calls[t].root, s.calls[t].pc.pos;
    assert CallOk(s, t) && EdgeOk(s, pos) && Pinned(s, t, pos);
    var up := s.nodes[pos].parent.value;
    assert up == root || Pinned(s, t, up);
    forall n | Pinned(s', t, n)
      ensures s'.nodes[root].depth < s'.nodes[n].depth <= s'.nodes[up].depth
      ensures s'.nodes[n].parent.Some? && (s'.nodes[n].parent.value == root || Pinned(s', t, s'.nodes[n].parent.value))
    {
      assert Pinned(s, t, n);
      assert n != pos && EdgeOk(s, n);
    }
    forall n, m | Pinned(s', t, n) && Pinned(s', t, m) && s'.nodes[n].depth == s'.nodes[m].depth ensures n == m {
      assert Pinned(s, t, n) && Pinned(s, t, m);
    }
  }

  // ---------------------------------------------------------------- steps of the other operations

  /** What one of the other operations does to a single node. */
  datatype Touch = AddRef(key: nat) | DropRefTo(r: Ref) | SetActive | Get(h: Holder) | Put(h: Holder)

  ghost predicate CanTouch(s: State, n: NodeId, op: Touch) {
    && n in s.nodes
    && var x := s.nodes[n];
       match op
       case AddRef(key) => x.refs != {} && External(key) !in x.refs
       case DropRefTo(External(key)) =>
         // a linked or activated node must be deactivated before its last reference goes
         && External(key) in x.refs && !CallerRefInUse(s, n, key)
         && (x.refs != {External(key)} || x.active == DRAINED || (x.active == NEW && x.parent.None?))
       case DropRefTo(ChildOf(c)) => ChildOf(c) in x.refs && c in s.nodes && s.nodes[c].refs == {}
       case DropRefTo(_) => false
       case SetActive => x.refs != {} && x.active == NEW
       // atomic_inc_unless_negative; fewer than -BIAS references are ever held at once
       case Get(h) => x.refs != {} && x.active >= 0 && h !in x.holders && |x.holders| + 1 < -BIAS
       case Put(h) => h in x.holders
  }

  ghost function Touched(x: Node, op: Touch): Node {
    match op
    case AddRef(key) => x.(refs := x.refs + {External(key)})
    case DropRefTo(r) => x.(refs := x.refs - {r})
    case SetActive => x.(active := x.active - NEW, refs := x.refs + {Activation}, activated := true)
    case Get(h) => x.(active := x.active + 1, holders := x.holders + {h})
    case Put(h) => x.(active := x.active - 1, holders := x.holders - {h})
  }

  ghost function DoTouch(s: State, n: NodeId, op: Touch): State
    requires CanTouch(s, n, op)
  {
    SetNode(s, n, Touched(s.nodes[n], op))
  }

  ghost function DoInit(s: State, n: NodeId, key: nat): State {
    SetNode(s, n, Node(NEW, {External(key)}, None, false, 0, {}, 0, false, None, 0, 0, 0, false))
  }

  ghost predicate CanLink(s: State, t: ThreadId, n: NodeId, p: NodeId) {
    t !in s.links && n in s.nodes && CanTouch(s, p, Get(LinkCall(t)))
  }

  ghost function DoLink(s: State, t: ThreadId, n: NodeId, p: NodeId, rank: nat): State
    requires CanLink(s, t, n, p)
  {
    DoTouch(s, p, Get(LinkCall(t))).(links := s.links[t := LinkOp(n, p, rank, Insert)])
  }

  /** The owner links a fresh node, once, and nobody else uses the node until then. */
  ghost predicate CanInsert(s: State, t: ThreadId) {
    && Linking(s, t, Insert) && Live(s, s.links[t].child)
    && s.nodes[s.links[t].child].active == NEW && s.nodes[s.links[t].child].parent.None?
    && !BeingDeactivated(s, s.links[t].child)
  }

  ghost function DoInsert(s: State, t: ThreadId): State
    requires CanInsert(s, t)
  {
    var l := s.links[t];
    var s1 := s.(links := s.links[t := l.(pc := Unlock)]);
    if NameTaken(s, l.parent, l.rank) then s1
    else
      var c := s.nodes[l.child].(
        parent := Some(l.parent), linked := true, rank := l.rank, depth := s.nodes[l.parent].depth + 1);
      var p := s.nodes[l.parent].(refs := s.nodes[l.parent].refs + {ChildOf(l.child)});
      SetNode(SetNode(s1, l.child, c), l.parent, p)
  }

  ghost predicate CanLinkEnd(s: State, t: ThreadId) {
    Linking(s, t, Unlock) && CanTouch(s, s.links[t].parent, Put(LinkCall(t)))
  }

  ghost function DoLinkEnd(s: State, t: ThreadId): State
    requires CanLinkEnd(s, t)
  {
    DoTouch(s, s.links[t].parent, Put(LinkCall(t))).(links := s.links[t := s.links[t].(pc := Finished)])
  }

  ghost predicate CanDeactivate(s: State, t: ThreadId, n: NodeId, key: nat) {
    t !in s.calls && Live(s, n) && External(key) in s.nodes[n].refs
  }

  ghost function DoDeactivate(s: State, t: ThreadId, n: NodeId, key: nat): State
    requires CanDeactivate(s, t, n, key)
  {
    s.(calls := s.calls[t := Call(n, key, Mark(n))])
  }

  // ---------------------------------------------------------------- preservation by those steps

  /** Effect of an operation on the node it touches, as seen by every deactivating call. */
  lemma LocalTouch(s: State, n: NodeId, op: Touch)
    requires CanTouch(s, n, op) && NodeOk(s.nodes[n])
    requires op.DropRefTo? && op.r.ChildOf? ==> s.nodes[n].activated
    ensures NodeOk(Touched(s.nodes[n], op))
    ensures forall u :: StableFor(u, s.nodes[n], Touched(s.nodes[n], op))
  {
    TouchNode(s, n, op);
    TouchTolerated(s, n, op);
  }

  lemma TouchTolerated(s: State, n: NodeId, op: Touch)
    requires CanTouch(s, n, op) && NodeOk(s.nodes[n])
    ensures forall u :: StableFor(u, s.nodes[n], Touched(s.nodes[n], op))
  {
    if op.Put? {
      assert s.nodes[n].holders != {};
    }
  }

  lemma TouchNode(s: State, n: NodeId, op: Touch)
    requires CanTouch(s, n, op) && NodeOk(s.nodes[n])
    requires op.DropRefTo? && op.r.ChildOf? ==> s.nodes[n].activated
    ensures NodeOk(Touched(s.nodes[n], op))
  {
    var x := s.nodes[n];
    if op.DropRefTo? {
      assert x.refs == x.refs - {op.r} + {op.r};
      assert x.refs - {op.r} == {} ==> x.refs == {op.r};
      assert x.activated && x.active != DRAINED && op.r != Activation ==> Activation in x.refs - {op.r};
    }
  }

  lemma KeepTouch(s: State, s': State, n: NodeId, op: Touch)
    requires Inv(s) && CanTouch(s, n, op)
    requires s'.nodes == DoTouch(s, n, op).nodes && s'.calls == s.calls
    requires forall u :: u in s'.links ==> LinkOk(s', u)
    ensures Inv(s')
  {
    var x, y := s.nodes[n], Touched(s.nodes[n], op);
    assert NodeOk(x) && EdgeOk(s, n);
    if op.DropRefTo? && op.r.ChildOf? {
      assert EdgeOk(s, op.r.child);
    }
    LocalTouch(s, n, op);
    ChildrenTolerate(s, n, y);
    CallersRef(s, n);
    KeepOneNode(s, s', {}, n, y);
  }

  lemma KeepPlainTouch(s: State, n: NodeId, op: Touch)
    requires Inv(s) && CanTouch(s, n, op) && (op.Put? ==> op.h.Task?)
    ensures Inv(DoTouch(s, n, op))
  {
    var s' := DoTouch(s, n, op);
    forall u | u in s'.links ensures LinkOk(s', u) {
      assert LinkOk(s, u);
    }
    KeepTouch(s, s', n, op);
  }

  lemma KeepLink(s: State, t: ThreadId, n: NodeId, p: NodeId, rank: nat)
    requires Inv(s) && CanLink(s, t, n, p)
    ensures Inv(DoLink(s, t, n, p, rank))
  {
    var s' := DoLink(s, t, n, p, rank);
    forall u | u in s'.links ensures LinkOk(s', u) {
      assert u == t || LinkOk(s, u);
    }
    KeepTouch(s, s', p, Get(LinkCall(t)));
  }

  lemma KeepLinkEnd(s: State, t: ThreadId)
    requires Inv(s) && CanLinkEnd(s, t)
    ensures Inv(DoLinkEnd(s, t))
  {
    var s' := DoLinkEnd(s, t);
    forall u | u in s'.links ensures LinkOk(s', u) {
      assert u == t || LinkOk(s, u);
    }
    KeepTouch(s, s', s.links[t].parent, Put(LinkCall(t)));
  }

  lemma KeepInit(s: State, n: NodeId, key: nat)
    requires Inv(s) && n !in s.nodes
    ensures Inv(DoInit(s, n, key))
  {
    var s' := DoInit(s, n, key);
    forall m | m in s'.nodes ensures NodeOk(s'.nodes[m]) && EdgeOk(s', m) && ReleaserOk(s', m) {
      if m != n {
        assert NodeOk(s.nodes[m]) && EdgeOk(s, m) && ReleaserOk(s, m);
        FrameEdge(s, s', m);
      }
    }
    forall u | u in s'.calls ensures CallOk(s', u) {
      assert CallOk(s, u);
      FrameCall(s, s', u);
    }
    forall u | u in s'.links ensures LinkOk(s', u) {
      assert LinkOk(s, u);
    }
    forall m, u | Pinned(s', u, m) ensures u in s'.calls {
      assert Pinned(s, u, m);
    }
    forall c, d, p | IsChild(s', c, p) && IsChild(s', d, p) && s'.nodes[c].rank == s'.nodes[d].rank ensures c == d {
      assert IsChild(s, c, p) && IsChild(s, d, p);
    }
  }

  lemma KeepDeactivate(s: State, t: ThreadId, n: NodeId, key: nat)
    requires Inv(s) && CanDeactivate(s, t, n, key)
    ensures Inv(DoDeactivate(s, t, n, key))
  {
    var s' := DoDeactivate(s, t, n, key);
    forall m | m in s'.nodes ensures NodeOk(s'.nodes[m]) && EdgeOk(s', m) && ReleaserOk(s', m) {
      assert NodeOk(s.nodes[m]) && EdgeOk(s, m) && ReleaserOk(s, m);
    }
    forall m ensures !Pinned(s', t, m) {
      assert !Pinned(s, t, m);
    }
    forall u | u in s'.calls ensures CallOk(s', u) {
      if u != t {
        assert CallOk(s, u);
        FrameCall(s, s', u);
      }
    }
    forall u | u in s'.links ensures LinkOk(s', u) {
      assert LinkOk(s, u);
    }
    forall m, u | Pinned(s', u, m) ensures u in s'.calls {
      assert Pinned(s, u, m);
    }
    forall c, d, p | IsChild(s', c, p) && IsChild(s', d, p) && s'.nodes[c].rank == s'.nodes[d].rank ensures c == d {
      assert IsChild(s, c, p) && IsChild(s, d, p);
    }
  }

  lemma InsertEdges(s: State, t: ThreadId)
    requires Inv(s) && CanInsert(s, t) && !NameTaken(s, s.links[t].parent, s.links[t].rank)
    ensures var s' := DoInsert(s, t);
      forall m :: m in s'.nodes ==> NodeOk(s'.nodes[m]) && EdgeOk(s', m) && ReleaserOk(s', m)
  {
    var s', c, p := DoInsert(s, t), s.links[t].child, s.links[t].parent;
    assert LinkOk(s, t) && NodeOk(s.nodes[p]) && NodeOk(s.nodes[c]) && EdgeOk(s, p) && EdgeOk(s, c);
    assert c != p && s.nodes[p].activated;
    assert s'.nodes[p].active == s.nodes[p].active && s.nodes[p].active != RELEASE && s.nodes[p].active != DRAINED;
    assert s'.nodes[p].depth == s.nodes[p].depth;
    forall m | m in s'.nodes ensures NodeOk(s'.nodes[m]) && EdgeOk(s', m) && ReleaserOk(s', m) {
      assert NodeOk(s.nodes[m]) && EdgeOk(s, m) && ReleaserOk(s, m);
      assert s.nodes[m].parent != Some(c);
      if m != c && m != p {
        FrameEdge(s, s', m);
      }
    }
  }

  lemma InsertCalls(s: State, t: ThreadId, u: ThreadId)
    requires Inv(s) && CanInsert(s, t) && u in s.calls
    ensures CallOk(DoInsert(s, t), u)
  {
    var s', c, p := DoInsert(s, t), s.links[t].child, s.links[t].parent;
    assert CallOk(s, u) && NodeOk(s.nodes[c]) && !Pinned(s, u, c);
    assert s.calls[u].pc.Returned? || Running(s, u);
    assert s.calls[u].root != c;
    forall m | m in s.nodes && m != c ensures m in s'.nodes && StableFor(u, s.nodes[m], s'.nodes[m]) {
    }
    FrameCall(s, s', u);
  }

  lemma KeepInsert(s: State, t: ThreadId)
    requires Inv(s) && CanInsert(s, t)
    ensures Inv(DoInsert(s, t))
  {
    var s', c, p := DoInsert(s, t), s.links[t].child, s.links[t].parent;
    assert LinkOk(s, t) && NodeOk(s.nodes[p]) && NodeOk(s.nodes[c]) && c != p;
    forall u | u in s'.calls ensures CallOk(s', u) {
      InsertCalls(s, t, u);
    }
    forall u | u in s'.links ensures LinkOk(s', u) {
      assert LinkOk(s, u);
    }
    forall m, u | Pinned(s', u, m) ensures u in s'.calls {
      assert Pinned(s, u, m);
    }
    if NameTaken(s, p, s.links[t].rank) {
      forall m | m in s'.nodes ensures NodeOk(s'.nodes[m]) && EdgeOk(s', m) && ReleaserOk(s', m) {
        assert NodeOk(s.nodes[m]) && EdgeOk(s, m) && ReleaserOk(s, m);
      }
    } else {
      InsertEdges(s, t);
    }
    forall a, b, q | IsChild(s', a, q) && IsChild(s', b, q) && s'.nodes[a].rank == s'.nodes[b].rank ensures a == b {
      assert a == c || IsChild(s, a, q);
      assert b == c || IsChild(s, b, q);
    }
  }

  // ---------------------------------------------------------------- runs

  datatype Step =
    | Init(n: NodeId, key: nat)
    | Other(n: NodeId, op: Touch)                   // ref, unref, free, activate, acquire, release
    | LinkBegin(t: ThreadId, n: NodeId, p: NodeId, rank: nat)
    | LinkInsert(t: ThreadId)
    | LinkEnd(t: ThreadId)
    | Deactivate(t: ThreadId, n: NodeId, key: nat)
    | Advance(t: ThreadId)                          // the call of t executes its next statement
    | Descend(t: ThreadId, n: NodeId)
    | Back(t: ThreadId)

  ghost predicate Enabled(s: State, step: Step) {
    match step
    case Init(n, key) => n !in s.nodes
    case Other(n, op) => CanTouch(s, n, op) && ((op.Get? || op.Put?) ==> op.h.Task?)
    case LinkBegin(t, n, p, rank) => CanLink(s, t, n, p)
    case LinkInsert(t) => CanInsert(s, t)
    case LinkEnd(t) => CanLinkEnd(s, t)
    case Deactivate(t, n, key) => CanDeactivate(s, t, n, key)
    case Advance(t) => CanAdvance(s, t)
    case Descend(t, c) => CanDescend(s, t, c)
    case Back(t) => CanAscend(s, t)
  }

  ghost function Apply(s: State, step: Step): State
    requires Enabled(s, step)
  {
    match step
    case Init(n, key) => DoInit(s, n, key)
    case Other(n, op) => DoTouch(s, n, op)
    case LinkBegin(t, n, p, rank) => DoLink(s, t, n, p, rank)
    case LinkInsert(t) => DoInsert(s, t)
    case LinkEnd(t) => DoLinkEnd(s, t)
    case Deactivate(t, n, key) => DoDeactivate(s, t, n, key)
    case Advance(t) => DoAdvance(s, t)
    case Descend(t, c) => DoDescend(s, t, c)
    case Back(t) => DoAscend(s, t)
  }

  /** Every step is enabled in the state the steps before it produced. */
  ghost predicate IsRun(s: State, steps: seq<Step>)
    decreases |steps|
  {
    steps == [] || (Enabled(s, steps[0]) && IsRun(Apply(s, steps[0]), steps[1..]))
  }

  ghost function After(s: State, steps: seq<Step>): State
    requires IsRun(s, steps)
    decreases |steps|
  {
    if steps == [] then s else After(Apply(s, steps[0]), steps[1..])
  }

  lemma KeepStep(s: State, step: Step)
    requires Inv(s) && Enabled(s, step)
    ensures Inv(Apply(s, step))
  {
    match step
    case Init(n, key) => KeepInit(s, n, key);
    case Other(n, op) => KeepPlainTouch(s, n, op);
    case LinkBegin(t, n, p, rank) => KeepLink(s, t, n, p, rank);
    case LinkInsert(t) => KeepInsert(s, t);
    case LinkEnd(t) => KeepLinkEnd(s, t);
    case Deactivate(t, n, key) => KeepDeactivate(s, t, n, key);
    case Advance(t) => KeepAdvance(s, t);
    case Descend(t, c) => KeepDescend(s, t, c);
    case Back(t) => KeepAscend(s, t);
  }

  lemma {:induction false} RunKeepsInv(s: State, steps: seq<Step>)
    requires Inv(s) && IsRun(s, steps)
    ensures Inv(After(s, steps))
    decreases |steps|
  {
    if steps != [] {
      KeepStep(s, steps[0]);
      RunKeepsInv(Apply(s, steps[0]), steps[1..]);
    }
  }

  // ---------------------------------------------------------------- guarantees over every run

  ghost predicate Reachable(s: State) {
    exists steps :: IsRun(Empty, steps) && s == After(Empty, steps)
  }

  lemma ReachableInv(s: State)
    requires Reachable(s)
    ensures Inv(s)
  {
    var steps :| IsRun(Empty, steps) && s == After(Empty, steps);
    RunKeepsInv(Empty, steps);
  }

  ghost predicate EntersCallback(s: State, t: ThreadId, n: NodeId) {
    At(s, t) && s.calls[t].pc.CallCb? && s.calls[t].pc.pos == n
  }

  /**
   The callback of a node never runs twice; when it is entered, no active reference is held
   and the callback of every node ever linked below it has finished. As long as an active
   reference is held the callback has not started.
   */
  lemma ReleaseCallback(s: State, n: NodeId)
    requires Reachable(s) && n in s.nodes
    ensures s.nodes[n].cbDone <= s.nodes[n].cbStarted <= 1
    ensures s.nodes[n].holders != {} ==> s.nodes[n].cbStarted == 0
    ensures forall t :: EntersCallback(s, t, n) ==>
      && s.nodes[n].cbStarted == 0 && s.nodes[n].holders == {}
      && forall c :: c in s.nodes && s.nodes[c].parent == Some(n) ==> s.nodes[c].cbDone == 1
  {
    ReachableInv(s);
    assert NodeOk(s.nodes[n]);
    forall t | EntersCallback(s, t, n)
      ensures s.nodes[n].cbStarted == 0 && s.nodes[n].holders == {}
      ensures forall c :: c in s.nodes && s.nodes[c].parent == Some(n) ==> s.nodes[c].cbDone == 1
    {
      assert CallOk(s, t);
      ChildrenDone(s, n);
    }
  }

  lemma ChildrenDone(s: State, n: NodeId)
    requires Inv(s) && n in s.nodes && (s.nodes[n].active == RELEASE || s.nodes[n].active == DRAINED)
    ensures forall c :: c in s.nodes && s.nodes[c].parent == Some(n) ==> s.nodes[c].cbDone == 1
  {
    forall c | c in s.nodes && s.nodes[c].parent == Some(n) ensures s.nodes[c].cbDone == 1 {
      assert EdgeOk(s, c) && NodeOk(s.nodes[c]);
    }
  }

  /** n is root or lies below it; links point to nodes of smaller depth in every reachable state. */
  ghost predicate Below(s: State, n: NodeId, root: NodeId)
    decreases if n in s.nodes then s.nodes[n].depth else 0
  {
    && n in s.nodes
    && (n == root ||
        (s.nodes[n].parent.Some? && s.nodes[n].parent.value in s.nodes &&
         s.nodes[s.nodes[n].parent.value].depth < s.nodes[n].depth && Below(s, s.nodes[n].parent.value, root)))
  }

  lemma {:induction false} SubtreeDone(s: State, n: NodeId, root: NodeId)
    requires Inv(s) && root in s.nodes && Below(s, n, root) && s.nodes[root].active == DRAINED
    ensures s.nodes[n].cbStarted == 1 && s.nodes[n].cbDone == 1
    decreases s.nodes[n].depth
  {
    assert NodeOk(s.nodes[n]) && EdgeOk(s, n);
    if n != root {
      var p := s.nodes[n].parent.value;
      SubtreeDone(s, p, root);
      assert NodeOk(s.nodes[p]);
      ChildrenDone(s, p);
    }
  }

  /** When deactivate returns, its node is drained and the callback of every node below it ran exactly once. */
  lemma DeactivateReturned(s: State, t: ThreadId, n: NodeId)
    requires Reachable(s) && t in s.calls && s.calls[t].pc.Returned? && Below(s, n, s.calls[t].root)
    ensures s.calls[t].root in s.nodes && s.nodes[s.calls[t].root].active == DRAINED
    ensures s.nodes[n].cbStarted == 1 && s.nodes[n].cbDone == 1
  {
    ReachableInv(s);
    assert CallOk(s, t);
    SubtreeDone(s, n, s.calls[t].root);
  }

  /** The call of t is not done with the release of n. */
  ghost predicate Releasing(s: State, t: ThreadId, n: NodeId) {
    t in s.calls && AtRelease(s.calls[t].pc, n)
  }

  /**
   Activation takes one reference; it is dropped once, by the releaser, if and only if the node was activated,
   and that has happened in every drained node whose releaser moved on.
   */
  lemma ActivationReference(s: State, n: NodeId)
    requires Reachable(s) && n in s.nodes
    ensures Activation in s.nodes[n].refs <==> s.nodes[n].activated && s.nodes[n].actRefDrops == 0
    ensures s.nodes[n].actRefDrops <= 1
    ensures s.nodes[n].actRefDrops == 1 ==> s.nodes[n].activated && s.nodes[n].active == DRAINED
    ensures s.nodes[n].settled ==> s.nodes[n].actRefDrops == if s.nodes[n].activated then 1 else 0
    ensures s.nodes[n].active == DRAINED ==>
      s.nodes[n].settled || (s.nodes[n].releaser.Some? && Releasing(s, s.nodes[n].releaser.value, n))
  {
    ReachableInv(s);
    assert NodeOk(s.nodes[n]) && ReleaserOk(s, n);
  }

  ghost predicate ParentLive(s: State, n: NodeId) {
    n in s.nodes && (s.nodes[n].parent.Some? ==> Live(s, s.nodes[n].parent.value))
  }

  /** No operation in flight touches a freed node, and a freed node is drained unless it was never linked. */
  lemma NoUseAfterFree(s: State)
    requires Reachable(s)
    ensures forall t :: Running(s, t) ==> Live(s, s.calls[t].pc.pos) && ParentLive(s, s.calls[t].pc.pos)
    ensures forall t :: t in s.links && !s.links[t].pc.Finished? ==> Live(s, s.links[t].parent)
    ensures forall n :: n in s.nodes && s.nodes[n].holders != {} ==> Live(s, n)
    ensures forall n :: n in s.nodes && s.nodes[n].linked ==> Live(s, n)
    ensures forall n :: n in s.nodes && !Live(s, n) ==>
      s.nodes[n].active == DRAINED || (s.nodes[n].active == NEW && s.nodes[n].parent.None?)
  {
    ReachableInv(s);
    forall n | n in s.nodes
      ensures s.nodes[n].holders != {} ==> Live(s, n)
      ensures s.nodes[n].linked ==> Live(s, n)
      ensures !Live(s, n) ==> s.nodes[n].active == DRAINED || (s.nodes[n].active == NEW && s.nodes[n].parent.None?)
    {
      assert NodeOk(s.nodes[n]);
    }
    forall t | Running(s, t) ensures Live(s, s.calls[t].pc.pos) && ParentLive(s, s.calls[t].pc.pos) {
      assert CallOk(s, t);
      assert EdgeOk(s, s.calls[t].pc.pos);
    }
    forall t | t in s.links && !s.links[t].pc.Finished? ensures Live(s, s.links[t].parent) {
      assert LinkOk(s, t);
    }
  }

  /** Once deactivated, a node is never again active: no step lets a new active reference appear. */
  lemma DeactivatedForGood(s: State, step: Step, n: NodeId)
    requires Reachable(s) && Enabled(s, step) && n in s.nodes
    requires s.nodes[n].active < 0 && s.nodes[n].active != NEW
    ensures n in Apply(s, step).nodes && Down(s.nodes[n], Apply(s, step).nodes[n])
  {
    ReachableInv(s);
    assert NodeOk(s.nodes[n]);
    match step {
      case Init(_, _) =>
      case Other(m, op) => TouchedDown(s, m, op, n);
      case LinkBegin(t, _, p, _) => TouchedDown(s, p, Get(LinkCall(t)), n);
      case LinkInsert(_) =>
      case LinkEnd(t) => TouchedDown(s, s.links[t].parent, Put(LinkCall(t)), n);
      case Deactivate(_, _, _) =>
      case Advance(t) =>
        assert CallOk(s, t);
        if s.calls[t].pc.pos == n {
          AdvancedDown(t, s.calls[t].pc, Pos(s, t));
        }
      case Descend(_, _) =>
      case Back(_) =>
    }
  }

  /** Deactivated, with no more holders of active references than before. */
  ghost predicate Down(x: Node, y: Node) {
    (y.active < 0 && y.active != NEW && y.holders <= x.holders) == true
  }

  lemma TouchedDown(s: State, m: NodeId, op: Touch, n: NodeId)
    requires Inv(s) && CanTouch(s, m, op) && n in s.nodes && s.nodes[n].active < 0 && s.nodes[n].active != NEW
    ensures Down(s.nodes[n], DoTouch(s, m, op).nodes[n])
  {
    assert NodeOk(s.nodes[m]);
    if op.Put? {
      assert s.nodes[m].holders != {};
    }
  }

  lemma AdvancedDown(t: ThreadId, pc: Pc, x: Node)
    requires NodeOk(x) && PcOk(t, pc, x) && x.active < 0 && x.active != NEW
    ensures Down(x, NextNode(t, pc, x))
  {
  }

  // ---------------------------------------------------------------- effects and progress

  lemma {:induction false} RunExtends(s: State, steps: seq<Step>, step: Step)
    requires IsRun(s, steps) && Enabled(After(s, steps), step)
    ensures IsRun(s, steps + [step]) && After(s, steps + [step]) == Apply(After(s, steps), step)
    decreases |steps|
  {
    if steps == [] {
      assert steps + [step] == [step] && [step][1..] == [];
      assert IsRun(Apply(s, step), []);
    } else {
      assert (steps + [step])[1..] == steps[1..] + [step];
      RunExtends(Apply(s, steps[0]), steps[1..], step);
    }
  }

  lemma Extend(s: State, step: Step)
    requires Reachable(s) && Enabled(s, step)
    ensures Reachable(Apply(s, step))
  {
    var steps :| IsRun(Empty, steps) && s == After(Empty, steps);
    RunExtends(Empty, steps, step);
  }

  /**
   The critical section of link: a free name makes the node a member of the parent's children, which
   takes a reference to the parent; a name that a linked child bears leaves every node as it was.
   */
  lemma LinkInserts(s: State, t: ThreadId, c: NodeId, p: NodeId, rank: nat)
    requires Reachable(s) && Enabled(s, LinkInsert(t)) && s.links[t] == LinkOp(c, p, rank, Insert)
    ensures var s' := Apply(s, LinkInsert(t));
      && s'.calls == s.calls && s'.links == s.links[t := LinkOp(c, p, rank, Unlock)]
      && s'.nodes.Keys == s.nodes.Keys && c != p && s.nodes[p].holders != {}
      && if exists d :: d in s.nodes && s.nodes[d].linked && s.nodes[d].parent == Some(p) && s.nodes[d].rank == rank
         then s'.nodes == s.nodes
         else
           && s'.nodes[c].linked && s'.nodes[c].parent == Some(p) && s'.nodes[c].rank == rank
           && s'.nodes[c].active == NEW && s'.nodes[c].refs == s.nodes[c].refs
           && s'.nodes[p].refs == s.nodes[p].refs + {ChildOf(c)} && ChildOf(c) !in s.nodes[p].refs
           && s'.nodes[p] == s.nodes[p].(refs := s'.nodes[p].refs)
           && forall n :: n in s.nodes && n != c && n != p ==> s'.nodes[n] == s.nodes[n]
  {
    ReachableInv(s);
    assert LinkOk(s, t) && NodeOk(s.nodes[p]) && NodeOk(s.nodes[c]) && EdgeOk(s, p);
    if d :| d in s.nodes && s.nodes[d].linked && s.nodes[d].parent == Some(p) && s.nodes[d].rank == rank {
      assert IsChild(s, d, p);
    }
  }

  /** Acquire succeeds exactly on an active node; link and release go with it, and nothing else of a node changes. */
  lemma OperationEffects(s: State, n: NodeId, op: Touch)
    requires Reachable(s) && Enabled(s, Other(n, op))
    ensures var x, s' := s.nodes[n], Apply(s, Other(n, op));
      && s'.calls == s.calls && s'.links == s.links && s'.nodes.Keys == s.nodes.Keys
      && (forall m :: m in s.nodes && m != n ==> s'.nodes[m] == s.nodes[m])
      && var y := s'.nodes[n];
         match op
         case AddRef(key) => External(key) !in x.refs && y == x.(refs := x.refs + {External(key)})
         case DropRefTo(r) => r in x.refs && y == x.(refs := x.refs - {r})
         case SetActive =>
           && x.active == NEW && Activation !in x.refs
           && y == x.(active := 0, refs := x.refs + {Activation}, activated := true)
         case Get(h) => x.active >= 0 && h !in x.holders && y == x.(active := x.active + 1, holders := x.holders + {h})
         case Put(h) => h in x.holders && y == x.(active := x.active - 1, holders := x.holders - {h})
  {
    ReachableInv(s);
    assert NodeOk(s.nodes[n]);
  }

  /** What the holder of a reference may do; an active reference is to be had exactly on an active node. */
  lemma OperationsPossible(s: State, n: NodeId, key: nat, t: ThreadId)
    requires Reachable(s) && n in s.nodes
    ensures s.nodes[n].refs != {} && External(key) !in s.nodes[n].refs ==> Enabled(s, Other(n, AddRef(key)))
    ensures
      (&& External(key) in s.nodes[n].refs && (s.nodes[n].activated || s.nodes[n].active == DRAINED)
       && forall u :: u in s.calls && s.calls[u].root == n ==> s.calls[u].pc.Returned?) ==>
      Enabled(s, Other(n, DropRefTo(External(key))))
    ensures forall c :: c in s.nodes && ChildOf(c) in s.nodes[n].refs && s.nodes[c].refs == {} ==>
      Enabled(s, Other(n, DropRefTo(ChildOf(c))))
    ensures Enabled(s, Other(n, SetActive)) <==> s.nodes[n].refs != {} && s.nodes[n].active == NEW
    ensures Task(key) !in s.nodes[n].holders && |s.nodes[n].holders| + 1 < 0x7FFF_FFFB ==>
      (Enabled(s, Other(n, Get(Task(key)))) <==> s.nodes[n].active >= 0)
    ensures Enabled(s, Other(n, Put(Task(key)))) <==> Task(key) in s.nodes[n].holders
    ensures t !in s.calls && External(key) in s.nodes[n].refs ==> Enabled(s, Deactivate(t, n, key))
  {
    ReachableInv(s);
    assert NodeOk(s.nodes[n]);
  }

  /** Linking takes an active reference of the parent for as long as the call lasts. */
  lemma LinkHoldsParent(s: State, t: ThreadId, c: NodeId, p: NodeId, rank: nat)
    requires Reachable(s)
    ensures
      (&& t !in s.links && c in s.nodes && Live(s, p) && s.nodes[p].active >= 0
       && LinkCall(t) !in s.nodes[p].holders && |s.nodes[p].holders| + 1 < 0x7FFF_FFFB) ==>
      Enabled(s, LinkBegin(t, c, p, rank))
    ensures Enabled(s, LinkBegin(t, c, p, rank)) ==>
      var x, s' := s.nodes[p], Apply(s, LinkBegin(t, c, p, rank));
      && s.nodes[p].active >= 0 && s'.calls == s.calls && s'.links == s.links[t := LinkOp(c, p, rank, Insert)]
      && s'.nodes == s.nodes[p := x.(active := x.active + 1, holders := x.holders + {LinkCall(t)})]
    ensures t in s.links && s.links[t] == LinkOp(c, p, rank, Unlock) && c in s.nodes ==>
      && Enabled(s, LinkEnd(t))
      && var x, s' := s.nodes[p], Apply(s, LinkEnd(t));
      && s'.calls == s.calls && s'.links == s.links[t := LinkOp(c, p, rank, Finished)]
      && s'.nodes == s.nodes[p := x.(active := x.active - 1, holders := x.holders - {LinkCall(t)})]
  {
    ReachableInv(s);
    if t in s.links && s.links[t] == LinkOp(c, p, rank, Unlock) {
      assert LinkOk(s, t);
    }
  }

  lemma {:induction false} LowestRank(s: State, children: set<NodeId>, m: NodeId) returns (c: NodeId)
    requires m in children && children <= s.nodes.Keys
    ensures c in children && forall d :: d in children ==> s.nodes[c].rank <= s.nodes[d].rank
    decreases |children|
  {
    c := m;
    if d :| d in children && s.nodes[d].rank < s.nodes[m].rank {
      c := LowestRank(s, children - {m}, d);
    }
  }

  lemma FirstChildExists(s: State, n: NodeId, d: NodeId)
    requires IsChild(s, d, n)
    ensures exists c :: IsFirstChild(s, c, n)
  {
    var children := set c | c in s.nodes && IsChild(s, c, n);
    assert d in children;
    var c := LowestRank(s, children, d);
    assert IsFirstChild(s, c, n);
  }

  /** A node with children has one to descend into, and the descent goes to the smallest of them. */
  lemma DescendsToFirst(s: State, t: ThreadId, n: NodeId, d: NodeId)
    requires Reachable(s) && t in s.calls && s.calls[t].pc == Inspect(n)
    requires d in s.nodes && s.nodes[d].parent == Some(n) && s.nodes[d].linked
    ensures !Enabled(s, Advance(t))
    ensures exists c :: Enabled(s, Descend(t, c))
    ensures forall c :: Enabled(s, Descend(t, c)) ==>
      && c in s.nodes && s.nodes[c].parent == Some(n) && s.nodes[c].linked && s.nodes[c].rank <= s.nodes[d].rank
      && Apply(s, Descend(t, c)).calls == s.calls[t := s.calls[t].(pc := Mark(c))]
  {
    ReachableInv(s);
    assert CallOk(s, t);
    assert IsChild(s, d, n);
    FirstChildExists(s, n, d);
    var c :| IsFirstChild(s, c, n);
    assert Enabled(s, Descend(t, c));
  }

  ghost predicate CanMove(s: State, t: ThreadId) {
    Enabled(s, Advance(t)) || Enabled(s, Back(t)) || exists c :: Enabled(s, Descend(t, c))
  }

  /**
   Deactivation never hangs on its own account. A running call has a next step unless active references
   to its current node are still held, or another call is releasing that node; and that other call has a next step.
   */
  lemma BlockedOnly(s: State, t: ThreadId)
    requires Reachable(s) && Running(s, t) && !CanMove(s, t)
    ensures s.calls[t].pc.pos in s.nodes
    ensures var x := s.nodes[s.calls[t].pc.pos];
      || (s.calls[t].pc.AwaitRefs? && x.active < 0 && x.holders != {})
      || (&& s.calls[t].pc.AwaitDrained? && x.active == RELEASE
          && x.releaser.Some? && x.releaser.value != t && CanMove(s, x.releaser.value))
  {
    ReachableInv(s);
    assert CallOk(s, t);
    var n := s.calls[t].pc.pos;
    assert NodeOk(s.nodes[n]) && ReleaserOk(s, n);
    assert !Enabled(s, Advance(t)) && !Enabled(s, Back(t)) && forall c :: !Enabled(s, Descend(t, c));
    match s.calls[t].pc
    case Inspect(_) =>
      if c :| IsChild(s, c, n) {
        DescendsToFirst(s, t, n, c);
      }
    case AwaitDrained(_) =>
      var r := s.nodes[n].releaser.value;
      assert AtRelease(s.calls[r].pc, n);
      assert Enabled(s, Advance(r));
    case _ =>
  }

  /** The state s with node n in state x and the call of t at pc. */
  ghost function With(s: State, t: ThreadId, n: NodeId, x: Node, pc: Pc): State
    requires t in s.calls
  {
    State(s.nodes[n := x], s.calls[t := s.calls[t].(pc := pc)], s.links)
  }

  ghost predicate Childless(s: State, n: NodeId) {
    forall c :: c in s.nodes && s.nodes[c].parent == Some(n) ==> !s.nodes[c].linked
  }

  lemma Advances(s: State, t: ThreadId, n: NodeId, x: Node, pc: Pc)
    requires t in s.calls && n in s.nodes && pc.pos == n && !pc.Returned? && !pc.Ascend?
    requires Reachable(With(s, t, n, x, pc)) && x.parent == s.nodes[n].parent && (x.linked ==> s.nodes[n].linked)
    requires pc.Inspect? ==> Childless(s, n)
    requires pc.AwaitRefs? ==> x.active <= BIAS
    requires pc.AwaitDrained? ==> x.active == DRAINED
    ensures Reachable(With(s, t, n, NextNode(t, pc, x), NextPc(pc, x)))
  {
    var s1 := With(s, t, n, x, pc);
    assert CanAdvance(s1, t);
    Extend(s1, Advance(t));
    assert DoAdvance(s1, t) == With(s, t, n, NextNode(t, pc, x), NextPc(pc, x));
  }

  ghost function Claimed(x: Node, t: ThreadId): Node {
    x.(active := RELEASE, releaser := Some(t))
  }

  ghost function ClaimedFrom(x: Node): int {
    if x.activated then BIAS else RELEASE_DIRECT
  }

  lemma Claims(s: State, t: ThreadId, n: NodeId)
    requires Reachable(s) && t in s.calls && s.calls[t].pc == Mark(n) && n in s.nodes
    requires s.nodes[n].holders == {} && s.nodes[n].releaser.None? && Childless(s, n)
    ensures Reachable(With(s, t, n, Claimed(s.nodes[n], t), CallCb(n, ClaimedFrom(s.nodes[n]))))
  {
    ReachableInv(s);
    var x := s.nodes[n];
    assert NodeOk(x);
    assert With(s, t, n, x, Mark(n)) == s;
    Advances(s, t, n, x, Mark(n));
    Advances(s, t, n, x.(active := ClaimedFrom(x)), AwaitRefs(n));
    Advances(s, t, n, x.(active := ClaimedFrom(x)), Inspect(n));
  }

  /** A call that nothing holds up releases a childless node: one callback, unlinked, drained, reference dropped. */
  lemma ReleasesLeaf(s: State, t: ThreadId, n: NodeId) returns (y: Node)
    requires Reachable(s) && t in s.calls && s.calls[t].pc == Mark(n) && n in s.nodes
    requires s.nodes[n].holders == {} && s.nodes[n].releaser.None? && Childless(s, n)
    ensures Reachable(With(s, t, n, y, Ascend(n)))
    ensures y == s.nodes[n].(
      active := DRAINED, linked := false, refs := s.nodes[n].refs - {Activation}, releaser := Some(t),
      cbStarted := 1, cbDone := 1, actRefDrops := if s.nodes[n].activated then 1 else 0, settled := true)
  {
    Unreleased(s, n);
    Claims(s, t, n);
    var x, v := s.nodes[n], ClaimedFrom(s.nodes[n]);
    y := Claimed(x, t);
    Advances(s, t, n, y, CallCb(n, v));
    y := y.(cbStarted := 1);
    Advances(s, t, n, y, InCb(n, v));
    y := y.(cbDone := 1);
    Advances(s, t, n, y, Erase(n, v));
    y := y.(linked := false);
    Advances(s, t, n, y, Drain(n, v));
    y := y.(active := DRAINED);
    Advances(s, t, n, y, DropRef(n, v));
    y := NextNode(t, DropRef(n, v), y);
  }

  lemma Unreleased(s: State, n: NodeId)
    requires Reachable(s) && n in s.nodes && s.nodes[n].releaser.None?
    ensures s.nodes[n].cbStarted == s.nodes[n].cbDone == s.nodes[n].actRefDrops == 0
    ensures !s.nodes[n].activated ==> s.nodes[n].refs - {Activation} == s.nodes[n].refs
  {
    ReachableInv(s);
    assert NodeOk(s.nodes[n]);
  }

  ghost predicate NameFree(s: State, p: NodeId, rank: nat) {
    forall d :: d in s.nodes && s.nodes[d].parent == Some(p) && s.nodes[d].linked ==> s.nodes[d].rank != rank
  }

  /** The nodes with c as a child of p under that name. */
  ghost function Joined(m: map<NodeId, Node>, c: NodeId, p: NodeId, rank: nat): map<NodeId, Node>
    requires c in m && p in m
  {
    m[c := m[c].(parent := Some(p), linked := true, rank := rank, depth := m[p].depth + 1)]
     [p := m[p].(refs := m[p].refs + {ChildOf(c)})]
  }

  /** The nodes with one more active reference to p. */
  ghost function Acquired(m: map<NodeId, Node>, p: NodeId, h: Holder): map<NodeId, Node>
    requires p in m
  {
    m[p := m[p].(active := m[p].active + 1, holders := m[p].holders + {h})]
  }

  ghost function Dropped(m: map<NodeId, Node>, p: NodeId, h: Holder): map<NodeId, Node>
    requires p in m
  {
    m[p := m[p].(active := m[p].active - 1, holders := m[p].holders - {h})]
  }

  lemma LinkComposed(m: map<NodeId, Node>, h: Holder, c: NodeId, p: NodeId, rank: nat)
    requires c in m && p in m && c != p && h !in m[p].holders
    ensures Dropped(Joined(Acquired(m, p, h), c, p, rank), p, h) == Joined(m, c, p, rank)
  {
    assert m[p].holders + {h} - {h} == m[p].holders;
  }

  /** A link whose parent is active and whose name is free succeeds, and lets go of the parent again. */
  lemma Links(s: State, t: ThreadId, c: NodeId, p: NodeId, rank: nat) returns (s': State)
    requires Reachable(s) && t !in s.links && Live(s, c) && Live(s, p)
    requires s.nodes[p].active >= 0 && |s.nodes[p].holders| + 1 < 0x7FFF_FFFB && LinkCall(t) !in s.nodes[p].holders
    requires s.nodes[c].active == NEW && s.nodes[c].parent.None? && !BeingDeactivated(s, c) && NameFree(s, p, rank)
    ensures Reachable(s') && s'.calls == s.calls && s'.links == s.links[t := LinkOp(c, p, rank, Finished)]
    ensures s'.nodes == Joined(s.nodes, c, p, rank)
  {
    var s1 := Begins(s, t, c, p, rank);
    var s2 := Inserts(s1, t, c, p, rank);
    s' := Ends(s2, t, c, p, rank);
    LinkComposed(s.nodes, LinkCall(t), c, p, rank);
    assert s'.links == s.links[t := LinkOp(c, p, rank, Finished)];
  }

  lemma Begins(s: State, t: ThreadId, c: NodeId, p: NodeId, rank: nat) returns (s': State)
    requires Reachable(s) && t !in s.links && Live(s, c) && Live(s, p) && c != p
    requires s.nodes[p].active >= 0 && |s.nodes[p].holders| + 1 < 0x7FFF_FFFB && LinkCall(t) !in s.nodes[p].holders
    requires s.nodes[c].active == NEW && s.nodes[c].parent.None? && !BeingDeactivated(s, c) && NameFree(s, p, rank)
    ensures Reachable(s') && s'.calls == s.calls && s'.links == s.links[t := LinkOp(c, p, rank, Insert)]
    ensures s'.nodes == Acquired(s.nodes, p, LinkCall(t))
    ensures Insertable(s', t, c, p, rank)
  {
    Extend(s, LinkBegin(t, c, p, rank));
    s' := Apply(s, LinkBegin(t, c, p, rank));
    assert BeingDeactivated(s', c) ==> BeingDeactivated(s, c) by {
      if u :| Running(s', u) && s'.calls[u].root == c {
        assert Running(s, u);
      }
    }
  }

  /** The link call is about to insert a fresh node under a free name. */
  ghost predicate Insertable(s: State, t: ThreadId, c: NodeId, p: NodeId, rank: nat) {
    (&& t in s.links && s.links[t] == LinkOp(c, p, rank, Insert) && Live(s, c) && p in s.nodes
     && s.nodes[c].active == NEW && s.nodes[c].parent.None? && !BeingDeactivated(s, c) && NameFree(s, p, rank)) == true
  }

  lemma Inserts(s: State, t: ThreadId, c: NodeId, p: NodeId, rank: nat) returns (s': State)
    requires Reachable(s) && Insertable(s, t, c, p, rank)
    ensures c in s.nodes && p in s.nodes && Reachable(s')
    ensures s'.calls == s.calls && s'.links == s.links[t := LinkOp(c, p, rank, Unlock)]
    ensures s'.nodes == Joined(s.nodes, c, p, rank)
  {
    assert !NameTaken(s, p, rank);
    assert CanInsert(s, t);
    Extend(s, LinkInsert(t));
    s' := Apply(s, LinkInsert(t));
  }

  lemma Ends(s: State, t: ThreadId, c: NodeId, p: NodeId, rank: nat) returns (s': State)
    requires Reachable(s) && t in s.links && s.links[t] == LinkOp(c, p, rank, Unlock) && c in s.nodes
    ensures p in s.nodes && Reachable(s') && s'.calls == s.calls
    ensures s'.links == s.links[t := LinkOp(c, p, rank, Finished)]
    ensures s'.nodes == Dropped(s.nodes, p, LinkCall(t))
  {
    LinkHoldsParent(s, t, c, p, rank);
    Extend(s, LinkEnd(t));
    s' := Apply(s, LinkEnd(t));
  }

  /** A new node is neither active nor linked, and its first reference belongs to the caller. */
  lemma Inits(s: State, n: NodeId, key: nat) returns (s': State)
    requires Reachable(s) && n !in s.nodes
    ensures Reachable(s') && s'.calls == s.calls && s'.links == s.links
    ensures s'.nodes == s.nodes[n := Node(NEW, {External(key)}, None, false, 0, {}, 0, false, None, 0, 0, 0, false)]
  {
    Extend(s, Init(n, key));
    s' := Apply(s, Init(n, key));
  }

  lemma Activates(s: State, n: NodeId) returns (s': State)
    requires Reachable(s) && Live(s, n) && s.nodes[n].active == NEW
    ensures Reachable(s') && s'.calls == s.calls && s'.links == s.links
    ensures s'.nodes ==
      s.nodes[n := s.nodes[n].(active := 0, refs := s.nodes[n].refs + {Activation}, activated := true)]
  {
    Extend(s, Other(n, SetActive));
    s' := Apply(s, Other(n, SetActive));
  }

  /** Deactivate starts at its node and, once that is marked and free of active references, enters the first child. */
  lemma Enters(s: State, t: ThreadId, n: NodeId, key: nat, c: NodeId) returns (s': State)
    requires Reachable(s) && t !in s.calls && n in s.nodes && External(key) in s.nodes[n].refs
    requires s.nodes[n].active == 0 && IsFirstChild(s, c, n) && c != n
    ensures Reachable(s') && s'.links == s.links && s'.calls == s.calls[t := Call(n, key, Mark(c))]
    ensures s'.nodes ==
      s.nodes[n := s.nodes[n].(active := BIAS)][c := s.nodes[c].(refs := s.nodes[c].refs + {Pin(t)})]
  {
    var s1 := Starts(s, t, n, key);
    s' := EntersChild(s1, t, n, c);
  }

  lemma Starts(s: State, t: ThreadId, n: NodeId, key: nat) returns (s': State)
    requires Reachable(s) && t !in s.calls && n in s.nodes && External(key) in s.nodes[n].refs
    requires s.nodes[n].active == 0
    ensures Reachable(s') && s'.links == s.links && s'.calls == s.calls[t := Call(n, key, Inspect(n))]
    ensures s'.nodes == s.nodes[n := s.nodes[n].(active := BIAS)]
  {
    Extend(s, Deactivate(t, n, key));
    var x, s1 := s.nodes[n], Apply(s, Deactivate(t, n, key));
    assert s1 == With(s1, t, n, x, Mark(n));
    Advances(s1, t, n, x, Mark(n));
    Advances(s1, t, n, x.(active := BIAS), AwaitRefs(n));
    s' := With(s1, t, n, x.(active := BIAS), Inspect(n));
  }

  lemma EntersChild(s: State, t: ThreadId, n: NodeId, c: NodeId) returns (s': State)
    requires Reachable(s) && t in s.calls && s.calls[t].pc == Inspect(n) && n in s.nodes && c in s.nodes
    requires s.nodes[c].parent == Some(n) && s.nodes[c].linked
    requires forall d :: d in s.nodes && s.nodes[d].parent == Some(n) && s.nodes[d].linked ==>
      s.nodes[c].rank <= s.nodes[d].rank
    ensures Reachable(s') && s'.links == s.links && s'.calls == s.calls[t := s.calls[t].(pc := Mark(c))]
    ensures s'.nodes == s.nodes[c := s.nodes[c].(refs := s.nodes[c].refs + {Pin(t)})]
  {
    assert IsFirstChild(s, c, n);
    Extend(s, Descend(t, c));
    s' := Apply(s, Descend(t, c));
  }

  /** A parent with a linked child, both active. */
  lemma FamilyReachable() returns (s: State)
    ensures Reachable(s) && s.calls == map[] && s.nodes.Keys == {1, 2}
    ensures s.nodes[1].parent == None && s.nodes[1].active == 0 && s.nodes[1].holders == {}
    ensures s.nodes[1].refs == {External(0), Activation, ChildOf(2)} && s.nodes[1].releaser == None
    ensures s.nodes[2].parent == Some(1) && s.nodes[2].linked && s.nodes[2].rank == 4 && s.nodes[2].active == 0
    ensures s.nodes[2].refs == {External(0), Activation} && s.nodes[2].holders == {} && s.nodes[2].releaser == None
    ensures s.nodes[1].depth == 0 && s.nodes[2].depth == 1
  {
    assert IsRun(Empty, []) && After(Empty, []) == Empty;
    s := Inits(Empty, 1, 0);
    s := Activates(s, 1);
    s := Inits(s, 2, 0);
    s := Links(s, 7, 2, 1, 4);
    s := Activates(s, 2);
  }

  /** Deactivating the parent releases the child first, and returns. */
  lemma FamilyReleased() returns (s: State)
    ensures Reachable(s) && 8 in s.calls && s.calls[8] == Call(1, 0, Returned(1)) && Below(s, 2, 1)
    ensures s.nodes.Keys == {1, 2}
    ensures s.nodes[1].active == DRAINED && s.nodes[1].cbDone == 1 && s.nodes[1].refs == {External(0), ChildOf(2)}
    ensures s.nodes[2].active == DRAINED && s.nodes[2].cbDone == 1 && s.nodes[2].refs == {External(0)}
    ensures !s.nodes[2].linked && s.nodes[2].parent == Some(1)
  {
    var f := FamilyReachable();
    assert IsFirstChild(f, 2, 1);
    s := Enters(f, 8, 1, 0, 2);
    s := ReleasesChild(s, 8, 2, 1);
    s := ReleasesRoot(s, 8, 1);
  }

  lemma ReleasesChild(s: State, t: ThreadId, n: NodeId, p: NodeId) returns (s': State)
    requires Reachable(s) && t in s.calls && s.calls[t].pc == Mark(n) && n in s.nodes && n != s.calls[t].root
    requires s.nodes[n].holders == {} && s.nodes[n].releaser.None? && Childless(s, n) && s.nodes[n].parent == Some(p)
    ensures Reachable(s') && s'.links == s.links && s'.calls == s.calls[t := s.calls[t].(pc := Mark(p))]
    ensures s'.nodes == s.nodes[n := s.nodes[n].(
      active := DRAINED, linked := false, refs := s.nodes[n].refs - {Activation} - {Pin(t)}, releaser := Some(t),
      cbStarted := 1, cbDone := 1, actRefDrops := if s.nodes[n].activated then 1 else 0, settled := true)]
  {
    var y := ReleasesLeaf(s, t, n);
    var s1 := With(s, t, n, y, Ascend(n));
    assert Enabled(s1, Back(t));
    Extend(s1, Back(t));
    s' := Apply(s1, Back(t));
  }

  lemma ReleasesRoot(s: State, t: ThreadId, n: NodeId) returns (s': State)
    requires Reachable(s) && t in s.calls && s.calls[t].pc == Mark(n) && n in s.nodes && n == s.calls[t].root
    requires s.nodes[n].holders == {} && s.nodes[n].releaser.None? && Childless(s, n)
    ensures Reachable(s') && s'.links == s.links && s'.calls == s.calls[t := s.calls[t].(pc := Returned(n))]
    ensures s'.nodes == s.nodes[n := s.nodes[n].(
      active := DRAINED, linked := false, refs := s.nodes[n].refs - {Activation}, releaser := Some(t),
      cbStarted := 1, cbDone := 1, actRefDrops := if s.nodes[n].activated then 1 else 0, settled := true)]
  {
    var y := ReleasesLeaf(s, t, n);
    var s1 := With(s, t, n, y, Ascend(n));
    assert Enabled(s1, Advance(t));
    Extend(s1, Advance(t));
    s' := Apply(s1, Advance(t));
  }
}
