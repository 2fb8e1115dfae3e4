/**
 kdbus_node_deactivate run by a single thread on a quiescent subtree: the loop without
 recursion terminates and calls the release callbacks in post-order of the child ordering.
 The concurrent guarantees are in module NodeLifecycle.
 */
module NodeDeactivate {
  import opened Common
  import opened Lists
  import opened NodeLifecycle

  /** A linked subtree: node, whether it is active, and its children in tree order. */
  datatype Tree = Tree(id: NodeId, wasActive: bool, kids: seq<Tree>)

  /** An ancestor the walk has to come back to, with the children it has not visited yet. */
  datatype Frame = Frame(id: NodeId, wasActive: bool, rest: seq<Tree>)

  type Children = map<NodeId, seq<NodeId>>
  type Counters = map<NodeId, int>
  type Parents = map<NodeId, NodeId>

  /** One call of release_cb: the node and its `was_active` argument. */
  type Callback = (NodeId, bool)

  ghost function PostOrder(t: Tree): seq<Callback>
    decreases t, 1
  {
    PostOrders(t.kids) + [(t.id, t.wasActive)]
  }

  ghost function PostOrders(ts: seq<Tree>): seq<Callback>
    decreases ts, 0
  {
    if ts == [] then [] else PostOrder(ts[0]) + PostOrders(ts[1..])
  }

  ghost function Outstanding(ctx: seq<Frame>): seq<Callback> {
    if ctx == [] then []
    else
      var top := ctx[|ctx| - 1];
      PostOrders(top.rest) + [(top.id, top.wasActive)] + Outstanding(ctx[..|ctx| - 1])
  }

  ghost function Ids(ts: seq<Tree>): seq<NodeId> {
    seq(|ts|, i requires 0 <= i < |ts| => ts[i].id)
  }

  ghost predicate Distinct(cs: seq<Callback>) {
    forall i, j :: 0 <= i < j < |cs| ==> cs[i].0 != cs[j].0
  }

  ghost function Names(cs: seq<Callback>): set<NodeId> {
    set i | 0 <= i < |cs| :: cs[i].0
  }

  lemma Split(a: seq<Callback>, b: seq<Callback>)
    ensures Names(a + b) == Names(a) + Names(b)
    ensures Distinct(a + b) <==> Distinct(a) && Distinct(b) && Names(a) !! Names(b)
  {
    var c := a + b;
    forall n | n in Names(a) ensures n in Names(c) {
      var i :| 0 <= i < |a| && a[i].0 == n;
      assert c[i].0 == n;
    }
    forall n | n in Names(b) ensures n in Names(c) {
      var i :| 0 <= i < |b| && b[i].0 == n;
      assert c[|a| + i].0 == n;
    }
    if Distinct(c) {
      forall i, j | 0 <= i < |a| && 0 <= j < |b| ensures a[i].0 != b[j].0 {
        assert c[i] == a[i] && c[|a| + j] == b[j];
      }
      assert Distinct(a) by { assert forall i :: 0 <= i < |a| ==> a[i] == c[i]; }
      assert Distinct(b) by { assert forall i :: 0 <= i < |b| ==> b[i] == c[|a| + i]; }
    }
    if Distinct(a) && Distinct(b) && Names(a) !! Names(b) {
      forall i, j | 0 <= i < j < |c| ensures c[i].0 != c[j].0 {
        if i < |a| <= j {
          assert a[i].0 in Names(a) && b[j - |a|].0 in Names(b);
        }
      }
    }
  }

  /** The maps of the hierarchy describe the quiescent subtree t. */
  ghost predicate Agrees(ch: Children, ac: Counters, pa: Parents, t: Tree)
    decreases t, 1
  {
    && t.id in ac && ac[t.id] == (if t.wasActive then 0 else NEW)
    && KidsAgree(ch, ac, pa, t.id, t.kids)
  }

  ghost predicate KidsAgree(ch: Children, ac: Counters, pa: Parents, id: NodeId, kids: seq<Tree>)
    decreases kids, 0
  {
    && id in ch && ch[id] == Ids(kids)
    && forall i :: 0 <= i < |kids| ==> kids[i].id in pa && pa[kids[i].id] == id && Agrees(ch, ac, pa, kids[i])
  }

  ghost predicate AllAgree(ch: Children, ac: Counters, pa: Parents, ts: seq<Tree>) {
    forall i :: 0 <= i < |ts| ==> Agrees(ch, ac, pa, ts[i])
  }

  lemma One(c: Callback)
    ensures Names([c]) == {c.0}
  {
    assert [c][0] == c;
  }

  lemma KidNames(ts: seq<Tree>, i: nat)
    requires i < |ts|
    ensures Names(PostOrder(ts[i])) <= Names(PostOrders(ts))
  {
    Split(PostOrder(ts[0]), PostOrders(ts[1..]));
    if i > 0 {
      KidNames(ts[1..], i - 1);
    }
  }

  lemma RootName(t: Tree)
    ensures Names(PostOrder(t)) == Names(PostOrders(t.kids)) + {t.id}
  {
    Split(PostOrders(t.kids), [(t.id, t.wasActive)]);
    One((t.id, t.wasActive));
  }

  lemma TopNames(ctx: seq<Frame>)
    requires ctx != []
    ensures var top := ctx[|ctx| - 1];
      Names(Outstanding(ctx)) == Names(PostOrders(top.rest)) + {top.id} + Names(Outstanding(ctx[..|ctx| - 1]))
  {
    var top := ctx[|ctx| - 1];
    Split(PostOrders(top.rest), [(top.id, top.wasActive)]);
    Split(PostOrders(top.rest) + [(top.id, top.wasActive)], Outstanding(ctx[..|ctx| - 1]));
    One((top.id, top.wasActive));
  }

  /** Changing a node that t does not contain leaves t's description intact. */
  lemma {:induction false} AgreesFrame(
    ch: Children, ac: Counters, ch': Children, ac': Counters, pa: Parents, t: Tree, p: set<NodeId>)
    requires Agrees(ch, ac, pa, t)
    requires forall n :: n !in p && n in ch ==> n in ch' && ch'[n] == ch[n]
    requires forall n :: n !in p && n in ac ==> n in ac' && ac'[n] == ac[n]
    requires p !! Names(PostOrder(t))
    ensures Agrees(ch', ac', pa, t)
    decreases t
  {
    RootName(t);
    forall i | 0 <= i < |t.kids| ensures Agrees(ch', ac', pa, t.kids[i]) {
      KidNames(t.kids, i);
      AgreesFrame(ch, ac, ch', ac', pa, t.kids[i], p);
    }
  }

  lemma AllAgreeFrame(
    ch: Children, ac: Counters, ch': Children, ac': Counters, pa: Parents, ts: seq<Tree>, p: set<NodeId>)
    requires AllAgree(ch, ac, pa, ts)
    requires forall n :: n !in p && n in ch ==> n in ch' && ch'[n] == ch[n]
    requires forall n :: n !in p && n in ac ==> n in ac' && ac'[n] == ac[n]
    requires p !! Names(PostOrders(ts))
    ensures AllAgree(ch', ac', pa, ts)
  {
    forall i | 0 <= i < |ts| ensures Agrees(ch', ac', pa, ts[i]) {
      KidNames(ts, i);
      AgreesFrame(ch, ac, ch', ac', pa, ts[i], p);
    }
  }

  /** The frames describe the ancestors of `below`, innermost last; all of them are already marked inactive. */
  ghost predicate Context(ch: Children, ac: Counters, pa: Parents, ctx: seq<Frame>, below: NodeId, root: NodeId)
  {
    if ctx == [] then below == root
    else
      var top := ctx[|ctx| - 1];
      && top.id in ac && ac[top.id] == (if top.wasActive then BIAS else RELEASE_DIRECT)
      && top.id in ch && ch[top.id] == [below] + Ids(top.rest)
      && below in pa && pa[below] == top.id
      && AllAgree(ch, ac, pa, top.rest)
      && (forall i :: 0 <= i < |top.rest| ==> top.rest[i].id in pa && pa[top.rest[i].id] == top.id)
      && Context(ch, ac, pa, ctx[..|ctx| - 1], top.id, root)
  }

  lemma {:induction false} ContextFrame(
    ch: Children, ac: Counters, ch': Children, ac': Counters, pa: Parents, ctx: seq<Frame>, below: NodeId, root: NodeId,
    p: set<NodeId>)
    requires Context(ch, ac, pa, ctx, below, root)
    requires forall n :: n !in p && n in ch ==> n in ch' && ch'[n] == ch[n]
    requires forall n :: n !in p && n in ac ==> n in ac' && ac'[n] == ac[n]
    requires p !! Names(Outstanding(ctx))
    ensures Context(ch', ac', pa, ctx, below, root)
    decreases |ctx|
  {
    if ctx != [] {
      var top, up := ctx[|ctx| - 1], ctx[..|ctx| - 1];
      TopNames(ctx);
      AllAgreeFrame(ch, ac, ch', ac', pa, top.rest, p);
      ContextFrame(ch, ac, ch', ac', pa, up, top.id, root, p);
    }
  }

  function Level(wasActive: bool, marked: bool): int {
    if marked then (if wasActive then BIAS else RELEASE_DIRECT) else if wasActive then 0 else NEW
  }

  /** The walk stands at `focus`, with `ctx` above it; nothing in either has been released yet. */
  ghost predicate Walk(
    ch: Children, ac: Counters, pa: Parents, focus: Tree, ctx: seq<Frame>, root: NodeId, marked: bool)
  {
    && focus.id in ac && ac[focus.id] == Level(focus.wasActive, marked)
    && KidsAgree(ch, ac, pa, focus.id, focus.kids)
    && Context(ch, ac, pa, ctx, focus.id, root)
    && Distinct(Todo(focus, ctx))
  }

  ghost function Todo(focus: Tree, ctx: seq<Frame>): seq<Callback> {
    PostOrder(focus) + Outstanding(ctx)
  }

  lemma MarkStep(ch: Children, ac: Counters, pa: Parents, focus: Tree, ctx: seq<Frame>, root: NodeId, marked: bool)
    requires Walk(ch, ac, pa, focus, ctx, root, marked)
    ensures Walk(ch, ac[focus.id := Level(focus.wasActive, true)], pa, focus, ctx, root, true)
  {
    var ac' := ac[focus.id := Level(focus.wasActive, true)];
    Split(PostOrder(focus), Outstanding(ctx));
    Split(PostOrders(focus.kids), [(focus.id, focus.wasActive)]);
    RootName(focus);
    One((focus.id, focus.wasActive));
    AllAgreeFrame(ch, ac, ch, ac', pa, focus.kids, {focus.id});
    ContextFrame(ch, ac, ch, ac', pa, ctx, focus.id, root, {focus.id});
  }

  lemma DescendTodo(focus: Tree, ctx: seq<Frame>)
    requires focus.kids != []
    ensures Todo(focus.kids[0], ctx + [Frame(focus.id, focus.wasActive, focus.kids[1..])]) == Todo(focus, ctx)
    ensures |PostOrder(focus.kids[0])| < |PostOrder(focus)|
  {
    var top := Frame(focus.id, focus.wasActive, focus.kids[1..]);
    var ctx' := ctx + [top];
    assert ctx'[..|ctx'| - 1] == ctx && ctx'[|ctx'| - 1] == top;
    var a, b, c, d := PostOrder(focus.kids[0]), PostOrders(top.rest), [(top.id, top.wasActive)], Outstanding(ctx);
    assert Outstanding(ctx') == b + c + d;
    assert PostOrder(focus) == (a + b) + c;
    Assoc(a, b, c, d);
  }

  lemma Assoc(a: seq<Callback>, b: seq<Callback>, c: seq<Callback>, d: seq<Callback>)
    ensures a + (b + c + d) == ((a + b) + c) + d
  {
  }

  lemma DescendStep(ch: Children, ac: Counters, pa: Parents, focus: Tree, ctx: seq<Frame>, root: NodeId)
    requires Walk(ch, ac, pa, focus, ctx, root, true) && ch[focus.id] != []
    ensures focus.kids != [] && ch[focus.id][0] == focus.kids[0].id
    ensures var ctx' := ctx + [Frame(focus.id, focus.wasActive, focus.kids[1..])];
      && Walk(ch, ac, pa, focus.kids[0], ctx', root, false)
      && Todo(focus.kids[0], ctx') == Todo(focus, ctx)
      && |PostOrder(focus.kids[0])| < |PostOrder(focus)|
  {
    var top := Frame(focus.id, focus.wasActive, focus.kids[1..]);
    var ctx' := ctx + [top];
    assert ctx'[..|ctx'| - 1] == ctx && ctx'[|ctx'| - 1] == top;
    assert Ids(focus.kids) == [focus.kids[0].id] + Ids(top.rest);
    assert Agrees(ch, ac, pa, focus.kids[0]);
    DescendTodo(focus, ctx);
  }

  lemma ReleaseStep(ch: Children, ac: Counters, pa: Parents, focus: Tree, ctx: seq<Frame>, root: NodeId)
    requires Walk(ch, ac, pa, focus, ctx, root, true) && focus.kids == [] && ctx != []
    ensures focus.id in pa && pa[focus.id] == ctx[|ctx| - 1].id && pa[focus.id] in ch
    ensures var top, up := ctx[|ctx| - 1], ctx[..|ctx| - 1];
      && Walk(ch[top.id := Minus(ch[top.id], focus.id)], ac[focus.id := DRAINED], pa,
              Tree(top.id, top.wasActive, top.rest), up, root, true)
      && Todo(focus, ctx) == [(focus.id, focus.wasActive)] + Todo(Tree(top.id, top.wasActive, top.rest), up)
  {
    var top, up := ctx[|ctx| - 1], ctx[..|ctx| - 1];
    var next := Tree(top.id, top.wasActive, top.rest);
    var ch', ac' := ch[top.id := Minus(ch[top.id], focus.id)], ac[focus.id := DRAINED];
    ReleaseTodo(focus, ctx);
    AllAgreeFrame(ch, ac, ch', ac', pa, top.rest, {focus.id, top.id});
    ContextFrame(ch, ac, ch', ac', pa, up, top.id, root, {focus.id, top.id});
  }

  /** Neither the node just released nor its parent occurs in what stays outstanding besides the parent. */
  lemma ReleaseTodo(focus: Tree, ctx: seq<Frame>)
    requires focus.kids == [] && ctx != [] && Distinct(Todo(focus, ctx))
    ensures var top, up := ctx[|ctx| - 1], ctx[..|ctx| - 1];
      && Todo(focus, ctx) == [(focus.id, focus.wasActive)] + Todo(Tree(top.id, top.wasActive, top.rest), up)
      && Distinct(Todo(Tree(top.id, top.wasActive, top.rest), up))
      && top.id != focus.id
      && {focus.id, top.id} !! Names(PostOrders(top.rest)) && {focus.id, top.id} !! Names(Outstanding(up))
  {
    var top, up := ctx[|ctx| - 1], ctx[..|ctx| - 1];
    var me, rest := [(focus.id, focus.wasActive)], PostOrders(top.rest);
    var it, above := [(top.id, top.wasActive)], Outstanding(up);
    assert PostOrder(focus) == me && Outstanding(ctx) == (rest + it) + above;
    One((focus.id, focus.wasActive));
    One((top.id, top.wasActive));
    Split(me, Outstanding(ctx));
    Split(rest + it, above);
    Split(rest, it);
  }

  lemma {:induction false} RootOutstanding(
    ch: Children, ac: Counters, pa: Parents, ctx: seq<Frame>, below: NodeId, root: NodeId)
    requires Context(ch, ac, pa, ctx, below, root) && ctx != []
    ensures root in Names(Outstanding(ctx))
    decreases |ctx|
  {
    var top, up := ctx[|ctx| - 1], ctx[..|ctx| - 1];
    TopNames(ctx);
    if up != [] { RootOutstanding(ch, ac, pa, up, top.id, root); }
  }

  lemma ReleaseNames(focus: Tree, ctx: seq<Frame>)
    requires focus.kids == [] && ctx != [] && Distinct(Todo(focus, ctx))
    ensures var top, up := ctx[|ctx| - 1], ctx[..|ctx| - 1];
      && Names(Todo(focus, ctx)) == {focus.id} + Names(Todo(Tree(top.id, top.wasActive, top.rest), up))
      && top.id in Names(Todo(focus, ctx)) && top.id != focus.id
  {
    var top, up := ctx[|ctx| - 1], ctx[..|ctx| - 1];
    ReleaseTodo(focus, ctx);
    Split([(focus.id, focus.wasActive)], Todo(Tree(top.id, top.wasActive, top.rest), up));
    One((focus.id, focus.wasActive));
    TopNames(ctx);
    Split(PostOrder(focus), Outstanding(ctx));
  }

  ghost predicate Drained(all: seq<Callback>, todo: seq<Callback>, ch: Children, ac: Counters) {
    forall n :: n in Names(all) - Names(todo) ==> n in ac && ac[n] == DRAINED && n in ch && ch[n] == []
  }

  /** Nodes that are not in `all` keep their counters and children; `except` may lose a child. */
  ghost predicate Untouched(
    all: seq<Callback>, except: set<NodeId>, ch: Children, ac: Counters, ch': Children, ac': Counters)
  {
    && (forall n :: n in ac && n !in Names(all) ==> n in ac' && ac'[n] == ac[n])
    && (forall n :: n in ch && n !in Names(all) && n !in except ==> n in ch' && ch'[n] == ch[n])
  }

  lemma KeptChildren(all: seq<Callback>, ch: Children, ac: Counters, ch': Children, ac': Counters, n: NodeId)
    requires Untouched(all, {}, ch, ac, ch', ac') && n in ch && n !in Names(all)
    ensures n in ch' && ch'[n] == ch[n]
  {
  }

  /** What is known about the nodes already released and the nodes outside the subtree. */
  ghost predicate Books(
    all: seq<Callback>, todo: seq<Callback>, ch0: Children, ac0: Counters, ch: Children, ac: Counters)
  {
    Names(todo) <= Names(all) && Drained(all, todo, ch, ac) && Untouched(all, {}, ch0, ac0, ch, ac)
  }

  /** The walk stands somewhere, and the callbacks made so far followed by those to come are `all`. */
  ghost predicate Progress(
    ch: Children, ac: Counters, pa: Parents, log: seq<Callback>, focus: Tree, ctx: seq<Frame>, marked: bool, t: Tree,
    ch0: Children, ac0: Counters, log0: seq<Callback>)
  {
    (&& Walk(ch, ac, pa, focus, ctx, t.id, marked)
     && Books(PostOrder(t), Todo(focus, ctx), ch0, ac0, ch, ac)
     && log + Todo(focus, ctx) == log0 + PostOrder(t)) == true
  }

  lemma StartProgress(ch: Children, ac: Counters, pa: Parents, log: seq<Callback>, t: Tree)
    requires Agrees(ch, ac, pa, t) && Distinct(PostOrder(t))
    ensures Progress(ch, ac, pa, log, t, [], false, t, ch, ac, log)
  {
    assert Todo(t, []) == PostOrder(t);
  }

  lemma MarkProgress(
    ch: Children, ac: Counters, pa: Parents, log: seq<Callback>, focus: Tree, ctx: seq<Frame>, marked: bool, t: Tree,
    ch0: Children, ac0: Counters, log0: seq<Callback>)
    requires Progress(ch, ac, pa, log, focus, ctx, marked, t, ch0, ac0, log0)
    ensures focus.id in ac && ac[focus.id] == Level(focus.wasActive, marked) && focus.id in ch
    ensures Progress(ch, ac[focus.id := Level(focus.wasActive, true)], pa, log, focus, ctx, true, t, ch0, ac0, log0)
  {
    MarkStep(ch, ac, pa, focus, ctx, t.id, marked);
    RootName(focus);
    Split(PostOrder(focus), Outstanding(ctx));
  }

  lemma DescendProgress(
    ch: Children, ac: Counters, pa: Parents, log: seq<Callback>, focus: Tree, ctx: seq<Frame>, t: Tree, ch0: Children,
    ac0: Counters, log0: seq<Callback>)
    requires Progress(ch, ac, pa, log, focus, ctx, true, t, ch0, ac0, log0) && focus.id in ch && ch[focus.id] != []
    ensures focus.kids != [] && ch[focus.id][0] == focus.kids[0].id
    ensures var ctx' := ctx + [Frame(focus.id, focus.wasActive, focus.kids[1..])];
      && Progress(ch, ac, pa, log, focus.kids[0], ctx', false, t, ch0, ac0, log0)
      && |Todo(focus.kids[0], ctx')| == |Todo(focus, ctx)| && |PostOrder(focus.kids[0])| < |PostOrder(focus)|
  {
    DescendStep(ch, ac, pa, focus, ctx, t.id);
  }

  lemma ReleaseBooks(
    all: seq<Callback>, focus: Tree, ctx: seq<Frame>, ch0: Children, ac0: Counters, ch: Children, ac: Counters,
    kids: seq<NodeId>)
    requires Books(all, Todo(focus, ctx), ch0, ac0, ch, ac)
    requires focus.kids == [] && ctx != [] && Distinct(Todo(focus, ctx)) && focus.id in ch && ch[focus.id] == []
    ensures var top, up := ctx[|ctx| - 1], ctx[..|ctx| - 1];
      Books(all, Todo(Tree(top.id, top.wasActive, top.rest), up), ch0, ac0, ch[top.id := kids], ac[focus.id := DRAINED])
  {
    ReleaseNames(focus, ctx);
    ReleaseTodo(focus, ctx);
    var top, up := ctx[|ctx| - 1], ctx[..|ctx| - 1];
    RootName(Tree(top.id, top.wasActive, top.rest));
    Split(PostOrder(Tree(top.id, top.wasActive, top.rest)), Outstanding(up));
  }

  lemma ReleaseProgress(
    ch: Children, ac: Counters, pa: Parents, log: seq<Callback>, focus: Tree, ctx: seq<Frame>, t: Tree, ch0: Children,
    ac0: Counters, log0: seq<Callback>)
    requires
      && Progress(ch, ac, pa, log, focus, ctx, true, t, ch0, ac0, log0) && focus.id in ch && ch[focus.id] == []
      && focus.id != t.id
    ensures ctx != [] && focus.id in pa && pa[focus.id] == ctx[|ctx| - 1].id && pa[focus.id] in ch
    ensures var top, up := ctx[|ctx| - 1], ctx[..|ctx| - 1];
      Progress(ch[top.id := Minus(ch[top.id], focus.id)], ac[focus.id := DRAINED], pa,
               log + [(focus.id, focus.wasActive)], Tree(top.id, top.wasActive, top.rest), up, true, t, ch0, ac0, log0)
    ensures var top, up := ctx[|ctx| - 1], ctx[..|ctx| - 1];
      |Todo(Tree(top.id, top.wasActive, top.rest), up)| < |Todo(focus, ctx)|
  {
    assert Ids(focus.kids) == [] && focus.kids == [];
    ReleaseStep(ch, ac, pa, focus, ctx, t.id);
    var top, up := ctx[|ctx| - 1], ctx[..|ctx| - 1];
    ReleaseBooks(PostOrder(t), focus, ctx, ch0, ac0, ch, ac, Minus(ch[top.id], focus.id));
    var left := Todo(Tree(top.id, top.wasActive, top.rest), up);
    assert log + [(focus.id, focus.wasActive)] + left == log + ([(focus.id, focus.wasActive)] + left);
  }

  /** The subtree was released in post-order, and nothing outside it changed but the list of the parent. */
  ghost predicate Deactivated(
    ch: Children, ac: Counters, pa: Parents, log: seq<Callback>, t: Tree, ch0: Children, ac0: Counters,
    log0: seq<Callback>)
  {
    && log == log0 + PostOrder(t) && Drained(PostOrder(t), [], ch, ac)
    && Untouched(PostOrder(t), if t.id in pa then {pa[t.id]} else {}, ch0, ac0, ch, ac)
    && (t.id in pa && pa[t.id] in ch0 ==> pa[t.id] in ch && ch[pa[t.id]] == Minus(ch0[pa[t.id]], t.id))
  }

  lemma UnlinkedLast(
    ch: Children, ac: Counters, pa: Parents, log: seq<Callback>, t: Tree, ch0: Children, ac0: Counters,
    log0: seq<Callback>)
    requires
      && log == log0 + PostOrder(t) && Drained(PostOrder(t), [], ch, ac)
      && Untouched(PostOrder(t), {}, ch0, ac0, ch, ac)
    requires t.id in pa ==> pa[t.id] in ch0 && pa[t.id] !in Names(PostOrder(t))
    ensures t.id in pa ==> pa[t.id] in ch
    ensures Deactivated(if t.id in pa then ch[pa[t.id] := Minus(ch[pa[t.id]], t.id)] else ch, ac, pa, log,
                        t, ch0, ac0, log0)
  {
    if t.id in pa {
      KeptChildren(PostOrder(t), ch0, ac0, ch, ac, pa[t.id]);
    }
  }

  lemma LastProgress(
    ch: Children, ac: Counters, pa: Parents, log: seq<Callback>, focus: Tree, ctx: seq<Frame>, t: Tree, ch0: Children,
    ac0: Counters, log0: seq<Callback>)
    requires
      && Progress(ch, ac, pa, log, focus, ctx, true, t, ch0, ac0, log0) && focus.id in ch && ch[focus.id] == []
      && focus.id == t.id
    requires t.id in pa ==> pa[t.id] in ch0 && pa[t.id] !in Names(PostOrder(t))
    ensures t.id in pa ==> pa[t.id] in ch
    ensures Deactivated(if t.id in pa then ch[pa[t.id] := Minus(ch[pa[t.id]], t.id)] else ch, ac[t.id := DRAINED], pa,
                        log + [(t.id, focus.wasActive)], t, ch0, ac0, log0)
  {
    LastRelease(ch, ac, pa, log, focus, ctx, t, ch0, ac0, log0);
    UnlinkedLast(ch, ac[t.id := DRAINED], pa, log + [(t.id, focus.wasActive)], t, ch0, ac0, log0);
  }

  lemma LastRelease(
    ch: Children, ac: Counters, pa: Parents, log: seq<Callback>, focus: Tree, ctx: seq<Frame>, t: Tree, ch0: Children,
    ac0: Counters, log0: seq<Callback>)
    requires
      && Progress(ch, ac, pa, log, focus, ctx, true, t, ch0, ac0, log0) && focus.id in ch && ch[focus.id] == []
      && focus.id == t.id
    ensures log + [(focus.id, focus.wasActive)] == log0 + PostOrder(t)
    ensures Drained(PostOrder(t), [], ch, ac[focus.id := DRAINED])
    ensures Untouched(PostOrder(t), {}, ch0, ac0, ch, ac[focus.id := DRAINED])
  {
    assert Ids(focus.kids) == [] && focus.kids == [];
    RootName(focus);
    Split(PostOrder(focus), Outstanding(ctx));
    assert ctx == [] by {
      if ctx != [] { RootOutstanding(ch, ac, pa, ctx, focus.id, t.id); }
    }
    assert PostOrders(focus.kids) == [] && Outstanding(ctx) == [];
    assert Todo(focus, ctx) == [(focus.id, focus.wasActive)];
    One((focus.id, focus.wasActive));
  }

  // ---------------------------------------------------------------- the order of the callbacks

  ghost predicate Called(cs: seq<Callback>, j: int, n: NodeId) {
    0 <= j < |cs| && cs[j].0 == n
  }

  /** Before the k-th callback came that of n. */
  ghost predicate Earlier(cs: seq<Callback>, k: int, n: NodeId) {
    exists j :: Called(cs, j, n) && j < k
  }

  /** Before the k-th callback came that of m and then that of n. */
  ghost predicate InTurn(cs: seq<Callback>, k: int, m: NodeId, n: NodeId) {
    exists j, l :: Called(cs, j, m) && Called(cs, l, n) && j < l < k
  }

  /** Before the k-th callback came those of the given nodes, in their order. */
  ghost predicate CameBefore(cs: seq<Callback>, k: int, kids: seq<NodeId>) {
    && (forall a :: 0 <= a < |kids| ==> Earlier(cs, k, kids[a]))
    && (forall a, b :: 0 <= a < b < |kids| ==> InTurn(cs, k, kids[a], kids[b]))
  }

  /** Every callback tells whether its node was active, and comes after those of the node's children in their order. */
  ghost predicate ChildrenFirst(cs: seq<Callback>, ch: Children, ac: Counters) {
    forall k :: 0 <= k < |cs| ==>
      && cs[k].0 in ac && (cs[k].1 <==> ac[cs[k].0] == 0)
      && cs[k].0 in ch && CameBefore(cs, k, ch[cs[k].0])
  }

  lemma {:induction false} CameBeforeMore(
    a: seq<Callback>, cs: seq<Callback>, b: seq<Callback>, k: nat, kids: seq<NodeId>)
    requires k < |cs| && CameBefore(cs, k, kids)
    ensures CameBefore(a + cs + b, |a| + k, kids)
  {
    var all := a + cs + b;
    forall j, n | Called(cs, j, n) ensures Called(all, |a| + j, n) {
    }
    forall x | 0 <= x < |kids| ensures Earlier(all, |a| + k, kids[x]) {
      assert Earlier(cs, k, kids[x]);
      var j :| Called(cs, j, kids[x]) && j < k;
      assert Called(all, |a| + j, kids[x]);
    }
    forall x, y | 0 <= x < y < |kids| ensures InTurn(all, |a| + k, kids[x], kids[y]) {
      assert InTurn(cs, k, kids[x], kids[y]);
      var j, l :| Called(cs, j, kids[x]) && Called(cs, l, kids[y]) && j < l < k;
      assert Called(all, |a| + j, kids[x]) && Called(all, |a| + l, kids[y]);
    }
  }

  lemma {:induction false} FirstConcat(a: seq<Callback>, b: seq<Callback>, ch: Children, ac: Counters)
    requires ChildrenFirst(a, ch, ac) && ChildrenFirst(b, ch, ac)
    ensures ChildrenFirst(a + b, ch, ac)
  {
    forall k | 0 <= k < |a + b|
      ensures (a + b)[k].0 in ac && ((a + b)[k].1 <==> ac[(a + b)[k].0] == 0)
      ensures (a + b)[k].0 in ch && CameBefore(a + b, k, ch[(a + b)[k].0])
    {
      if k < |a| {
        CameBeforeMore([], a, b, k, ch[a[k].0]);
        assert [] + a + b == a + b;
      } else {
        CameBeforeMore(a, b, [], k - |a|, ch[b[k - |a|].0]);
        assert a + b + [] == a + b;
      }
    }
  }

  /** Where the callback of the a-th of several trees stands. */
  ghost function PlaceOf(ts: seq<Tree>, a: nat): nat
    requires a < |ts|
    decreases a
  {
    if a == 0 then |PostOrder(ts[0])| - 1 else |PostOrder(ts[0])| + PlaceOf(ts[1..], a - 1)
  }

  lemma {:induction false} PlaceIs(ts: seq<Tree>, a: nat)
    requires a < |ts|
    ensures PlaceOf(ts, a) < |PostOrders(ts)| && PostOrders(ts)[PlaceOf(ts, a)] == (ts[a].id, ts[a].wasActive)
    decreases a
  {
    if a > 0 {
      PlaceIs(ts[1..], a - 1);
    }
  }

  lemma {:induction false} PlacesGrow(ts: seq<Tree>, a: nat, b: nat)
    requires a < b < |ts|
    ensures PlaceOf(ts, a) < PlaceOf(ts, b)
    decreases a
  {
    if a > 0 {
      PlacesGrow(ts[1..], a - 1, b - 1);
    }
  }

  lemma {:induction false} KidsCameBefore(kids: seq<Tree>, last: Callback)
    ensures CameBefore(PostOrders(kids) + [last], |PostOrders(kids)|, Ids(kids))
  {
    var cs, n := PostOrders(kids) + [last], |PostOrders(kids)|;
    forall a | 0 <= a < |kids| ensures Earlier(cs, n, Ids(kids)[a]) {
      PlaceIs(kids, a);
      assert Called(cs, PlaceOf(kids, a), Ids(kids)[a]);
    }
    forall a, b | 0 <= a < b < |kids| ensures InTurn(cs, n, Ids(kids)[a], Ids(kids)[b]) {
      PlaceIs(kids, a);
      PlaceIs(kids, b);
      PlacesGrow(kids, a, b);
      assert Called(cs, PlaceOf(kids, a), Ids(kids)[a]) && Called(cs, PlaceOf(kids, b), Ids(kids)[b]);
    }
  }

  /** The callbacks of a subtree: children before their parent, siblings in the order of the child tree. */
  lemma {:induction false} OrderIs(ch: Children, ac: Counters, pa: Parents, t: Tree)
    requires Agrees(ch, ac, pa, t)
    ensures ChildrenFirst(PostOrder(t), ch, ac)
    decreases t, 1
  {
    OrdersAre(ch, ac, pa, t.kids);
    var a, last := PostOrders(t.kids), (t.id, t.wasActive);
    KidsCameBefore(t.kids, last);
    forall k | 0 <= k < |a + [last]|
      ensures (a + [last])[k].0 in ac && ((a + [last])[k].1 <==> ac[(a + [last])[k].0] == 0)
      ensures (a + [last])[k].0 in ch && CameBefore(a + [last], k, ch[(a + [last])[k].0])
    {
      if k < |a| {
        CameBeforeMore([], a, [last], k, ch[a[k].0]);
        assert [] + a + [last] == a + [last];
      }
    }
  }

  lemma {:induction false} OrdersAre(ch: Children, ac: Counters, pa: Parents, ts: seq<Tree>)
    requires AllAgree(ch, ac, pa, ts)
    ensures ChildrenFirst(PostOrders(ts), ch, ac)
    decreases ts, 0
  {
    if ts != [] {
      OrderIs(ch, ac, pa, ts[0]);
      OrdersAre(ch, ac, pa, ts[1..]);
      FirstConcat(PostOrder(ts[0]), PostOrders(ts[1..]), ch, ac);
    }
  }

  predicate Releasable(v: int) {
    v == BIAS || v == RELEASE_DIRECT
  }

  class Hierarchy {
    var active: Counters
    var children: Children             // child trees in their order
    const parent: Parents
    var released: seq<Callback>        // calls of release_cb, oldest first

    constructor (active: Counters, children: Children, parent: Parents)
      ensures this.active == active && this.children == children && this.parent == parent && released == []
    {
      this.active, this.children, this.parent, this.released := active, children, parent, [];
    }

    /**
     kdbus_node_deactivate. It releases exactly the subtree t, in post-order, unlinks its root and
     leaves every node outside t alone; a node that is drained already is left as it is.
     */
    method Deactivate(node: NodeId, ghost t: Option<Tree>)
      requires if t.Some?
        then Undisturbed(node, t.value)
        else node in active && active[node] == DRAINED && node in children && children[node] == []
      modifies this
      ensures t.Some? ==>
        Deactivated(children, active, parent, released, t.value, old(children), old(active), old(released))
      ensures t.None? ==> children == old(children) && active == old(active) && released == old(released)
      ensures t.Some? ==>
        && old(released) < released && released[|released| - 1].0 == node
        && ChildrenFirst(released[|old(released)|..], old(children), old(active))
    {
      ghost var root := if t.Some? then t.value else Tree(node, false, []);
      if t.Some? {
        StartProgress(children, active, parent, released, root);
        OrderIs(children, active, parent, root);
      }
      var pos := node;
      ghost var focus, ctx, marked, before := root, [], false, children;
      while true
        invariant
          && pos == focus.id && node == root.id
          && (root.id in parent && t.Some? ==> parent[root.id] in before && parent[root.id] !in Names(PostOrder(root)))
        invariant t.Some? ==>
          Progress(children, active, parent, released, focus, ctx, marked, root, before, old(active), old(released))
        invariant t.None? ==> pos == node && children == before && active == old(active) && released == old(released)
        decreases |Todo(focus, ctx)|, |PostOrder(focus)|
      {
        if t.Some? {
          MarkProgress(children, active, parent, released, focus, ctx, marked, root, before, old(active),
            old(released));
        }
        MarkInactive(pos, focus.wasActive, marked);
        marked := true;
        if children[pos] != [] {
          DescendProgress(children, active, parent, released, focus, ctx, root, before, old(active), old(released));
          ctx, focus, marked := ctx + [Frame(pos, focus.wasActive, focus.kids[1..])], focus.kids[0], false;
          pos := children[pos][0];
        } else {
          if t.Some? && pos == node {
            LastProgress(children, active, parent, released, focus, ctx, root, before, old(active), old(released));
          } else if t.Some? {
            ReleaseProgress(children, active, parent, released, focus, ctx, root, before, old(active), old(released));
          }
          ReleaseNode(pos);
          if pos == node {
            break;
          }
          pos := parent[pos];
          ghost var top := ctx[|ctx| - 1];
          focus, ctx := Tree(top.id, top.wasActive, top.rest), ctx[..|ctx| - 1];
        }
      }
    }

    /** A subtree nobody else works on, below a parent that is not part of it. */
    ghost predicate Undisturbed(node: NodeId, t: Tree)
      reads this
    {
      && t.id == node && Agrees(children, active, parent, t) && Distinct(PostOrder(t))
      && (node in parent ==> parent[node] in children && parent[node] !in Names(PostOrder(t)))
    }

    /** The thread that finds a node without children and not released yet calls back, unlinks and drains it. */
    method ReleaseNode(n: NodeId)
      requires n in active && (Releasable(active[n]) && n in parent ==> parent[n] in children)
      modifies this`active, this`children, this`released
      ensures if Releasable(old(active)[n])
        then
          && released == old(released) + [(n, old(active)[n] == BIAS)] && active == old(active)[n := DRAINED]
          && children == (if n in parent then old(children)[parent[n] := Minus(old(children)[parent[n]], n)]
                          else old(children))
        else released == old(released) && active == old(active) && children == old(children)
    {
      var vPost := active[n];
      if vPost == BIAS || vPost == RELEASE_DIRECT {
        released := released + [(n, vPost == BIAS)];
        Unlink(n);
        active := active[n := DRAINED];
      }
    }

    method MarkInactive(n: NodeId, ghost wasActive: bool, ghost marked: bool)
      requires n in active && (active[n] == Level(wasActive, marked) || active[n] == DRAINED)
      modifies this`active
      ensures active == if old(active)[n] == DRAINED then old(active) else old(active)[n := Level(wasActive, true)]
    {
      var vPre := active[n];
      if vPre >= 0 {
        active := active[n := vPre + BIAS];
      } else if vPre == NEW {
        active := active[n := RELEASE_DIRECT];
      }
    }

    /** rb_erase from the parent's child tree, for a node that has a parent. */
    method Unlink(n: NodeId)
      requires n in parent ==> parent[n] in children
      modifies this`children
      ensures children == if n in parent
        then old(children)[parent[n] := Minus(old(children)[parent[n]], n)]
        else old(children)
    {
      if n in parent {
        children := children[parent[n] := Minus(children[parent[n]], n)];
      }
    }
  }
}
