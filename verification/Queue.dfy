/**
 The message queue of a connection: a FIFO list, a tree with one node per priority, a list of
 entries per node, and a cached pointer to the entry of the smallest priority value. As in
 module Pool the tree is kept in order and searched around arbitrary pivots.
 */
module Queue {
  import opened Common
  import opened Lists

  /** A queued message: what the queue, the quota and the takeover of a name look at. */
  datatype Entry = Entry(id: nat, priority: int, nameId: nat, user: nat, size: nat, fds: nat, off: nat)

  /** A tree node: the entries of one priority, oldest first. The first one is linked into the tree. */
  datatype PrioNode = PrioNode(priority: int, entries: seq<Entry>)

  /** The entries of one priority in arrival order. */
  function OfPriority(list: seq<Entry>, p: int): seq<Entry> {
    if list == [] then []
    else (if list[0].priority == p then [list[0]] else []) + OfPriority(list[1..], p)
  }

  /** No older entry of the same priority is queued. */
  ghost predicate Oldest(list: seq<Entry>, e: Entry) {
    var same := OfPriority(list, e.priority);
    same != [] && same[0] == e
  }

  ghost predicate Sorted(tree: seq<PrioNode>) {
    forall i, j :: 0 <= i < j < |tree| ==> tree[i].priority < tree[j].priority
  }

  /** A node holds exactly the queued entries of its priority, and at least one. */
  ghost predicate NodeOk(n: PrioNode, list: seq<Entry>) {
    n.entries != [] && n.entries == OfPriority(list, n.priority)
  }

  ghost predicate AllNodesOk(tree: seq<PrioNode>, list: seq<Entry>) {
    forall k :: 0 <= k < |tree| ==> NodeOk(tree[k], list)
  }

  ghost predicate HasNode(tree: seq<PrioNode>, p: int) {
    exists k :: 0 <= k < |tree| && tree[k].priority == p
  }

  ghost predicate Covers(tree: seq<PrioNode>, list: seq<Entry>) {
    forall i :: 0 <= i < |list| ==> HasNode(tree, list[i].priority)
  }

  /** The tree is the index of the list by priority. */
  ghost predicate Indexes(tree: seq<PrioNode>, list: seq<Entry>) {
    Sorted(tree) && AllNodesOk(tree, list) && Covers(tree, list)
  }

  ghost predicate Distinct(list: seq<Entry>) {
    forall i, j :: 0 <= i < j < |list| ==> list[i].id != list[j].id
  }

  lemma {:induction false} AppendPriority(list: seq<Entry>, e: Entry, p: int)
    ensures OfPriority(list + [e], p) == OfPriority(list, p) + (if e.priority == p then [e] else [])
    decreases |list|
  {
    if list == [] {
      assert list + [e] == [e] && [e][1..] == [];
    } else {
      assert (list + [e])[1..] == list[1..] + [e];
      AppendPriority(list[1..], e, p);
      Grouping(if list[0].priority == p then [list[0]] else [], OfPriority(list[1..], p),
        if e.priority == p then [e] else []);
    }
  }

  lemma {:induction false} Grouping(a: seq<Entry>, b: seq<Entry>, c: seq<Entry>)
    ensures a + (b + c) == a + b + c
  {
  }

  lemma {:induction false} WithoutPriority(list: seq<Entry>, e: Entry, p: int)
    requires Oldest(list, e)
    ensures e in list
    ensures OfPriority(Minus(list, e), p) == if e.priority == p then OfPriority(list, p)[1..] else OfPriority(list, p)
    decreases |list|
  {
    if list[0] != e {
      assert list[0].priority != e.priority;
      WithoutPriority(list[1..], e, p);
      assert Minus(list, e)[1..] == Minus(list[1..], e);
    }
  }

  lemma {:induction false} MemberPriority(list: seq<Entry>, e: Entry)
    requires e in list
    ensures OfPriority(list, e.priority) != []
    decreases |list|
  {
    if list[0] != e {
      MemberPriority(list[1..], e);
    }
  }

  lemma {:induction false} PriorityMember(list: seq<Entry>, p: int)
    ensures forall e :: e in OfPriority(list, p) ==> e in list && e.priority == p
    decreases |list|
  {
    if list != [] {
      PriorityMember(list[1..], p);
    }
  }

  /** The head of the FIFO list is linked into the tree. */
  lemma HeadIsOldest(list: seq<Entry>)
    requires list != []
    ensures Oldest(list, list[0])
  {
  }

  /** The entry stands before every other one of its priority. */
  lemma {:induction false} OldestIsFirst(list: seq<Entry>, e: Entry)
    ensures Oldest(list, e) <==>
      exists k :: 0 <= k < |list| && list[k] == e && forall j :: 0 <= j < k ==> list[j].priority != e.priority
    decreases |list|
  {
    if list != [] && list[0].priority != e.priority {
      var rest := list[1..];
      OldestIsFirst(rest, e);
      assert forall j :: 0 <= j < |rest| ==> rest[j] == list[j + 1];
      if Oldest(list, e) {
        var k :| 0 <= k < |rest| && rest[k] == e && forall j :: 0 <= j < k ==> rest[j].priority != e.priority;
        assert list[k + 1] == e && forall j :: 0 < j < k + 1 ==> list[j] == rest[j - 1];
      }
      forall k | 0 <= k < |list| && list[k] == e && forall j :: 0 <= j < k ==> list[j].priority != e.priority
        ensures Oldest(rest, e)
      {
        assert rest[k - 1] == e;
      }
    } else if list != [] && Oldest(list, e) {
      assert list[0] == e;
    }
  }

  ghost predicate LeastPriority(list: seq<Entry>, e: Entry) {
    forall x :: x in list ==> e.priority <= x.priority
  }

  /** There is nothing to receive. */
  ghost predicate NoneWithin(list: seq<Entry>, usePriority: bool, bound: int) {
    if usePriority then forall e :: e in list ==> bound < e.priority else list == []
  }

  /** Entry e is the oldest of the smallest priority value, or the head of the queue. */
  ghost predicate Chosen(list: seq<Entry>, usePriority: bool, bound: int, e: Entry) {
    && e in list && Oldest(list, e)
    && (if usePriority then e.priority <= bound && LeastPriority(list, e) else e == list[0])
  }

  class MsgQueue {
    var msgList: seq<Entry>
    var tree: seq<PrioNode>
    var highest: Option<Entry>
    var rootBlack: bool                // the colour of the root, if there is one

    /** The tree is an index, and fit for the next insertion, which takes a red root for one with a parent. */
    ghost predicate Valid()
      reads this
    {
      Agree(msgList, tree, highest) && (tree != [] ==> rootBlack)
    }

    constructor ()
      ensures Valid() && msgList == []
    {
      msgList, tree, highest, rootBlack := [], [], None, true;
    }

    /**
     kdbus_queue_peek. By priority it yields the oldest entry of the smallest priority value,
     and nothing exactly when no entry is within the bound; otherwise the head of the list.
     Either way the entry is the tree-resident one of its priority.
     */
    method Peek(bound: int, usePriority: bool) returns (r: Option<Entry>)
      requires Valid()
      ensures r.Some? ==> Chosen(msgList, usePriority, bound, r.value)
      ensures r.None? <==> NoneWithin(msgList, usePriority, bound)
      ensures r.None? <==> if usePriority then forall e :: e in msgList ==> e.priority > bound else msgList == []
      ensures r.Some? && !usePriority ==> msgList != [] && r.value == msgList[0]
      ensures r.Some? && usePriority ==>
        && r.value in msgList && r.value.priority <= bound
        && (forall e :: e in msgList ==> r.value.priority <= e.priority)
        && exists k ::
             && 0 <= k < |msgList| && msgList[k] == r.value
             && forall j :: 0 <= j < k ==> msgList[j].priority > r.value.priority
    {
      if msgList == [] {
        return None;
      }
      MemberPriority(msgList, msgList[0]);
      HeadIsOldest(msgList);
      if usePriority {
        var e := highest.value;
        PriorityMember(msgList, e.priority);
        assert e in OfPriority(msgList, tree[0].priority);
        PriorityMember(msgList, tree[0].priority);
        forall x | x in msgList ensures e.priority <= x.priority {
          MemberPriority(msgList, x);
        }
        if e.priority > bound {
          return None;
        }
        OldestIsFirst(msgList, e);
        return Some(e);
      } else {
        return Some(msgList[0]);
      }
    }

    /** kdbus_queue_entry_link. Balancing leaves the root black, also of a tree with one node. */
    method Link(e: Entry)
      requires Valid() && forall x :: x in msgList ==> x.id != e.id
      modifies this
      ensures Valid() && msgList == old(msgList) + [e]
    {
      var lo, hi, isHighest, at := 0, |tree|, true, -1;
      while lo < hi
        invariant 0 <= lo <= hi <= |tree| && at == -1 && (isHighest <==> lo == 0) && unchanged(this)
        invariant forall k :: 0 <= k < lo ==> tree[k].priority < e.priority
        invariant forall k :: hi <= k < |tree| ==> e.priority < tree[k].priority
        decreases hi - lo
      {
        var m :| lo <= m < hi;
        if e.priority == tree[m].priority {
          at := m;
          break;
        }
        if e.priority < tree[m].priority {
          hi := m;
        } else {
          lo, isHighest := m + 1, false;
        }
      }
      if at >= 0 {
        JoinsNode(msgList, tree, highest, e, at);
        tree := tree[at := PrioNode(e.priority, tree[at].entries + [e])];
      } else {
        GetsNode(msgList, tree, highest, e, lo);
        if isHighest {
          highest := Some(e);
        }
        tree, rootBlack := tree[..lo] + [PrioNode(e.priority, [e])] + tree[lo..], true;
      }
      msgList := msgList + [e];
    }

    /**
     kdbus_queue_entry_unlink. An entry with peers is taken for the one that is linked into the
     tree, and its successor among the peers replaces it there, with a copy of its node. If that
     was never part of a tree and is still zeroed, as `zeroed` tells, the successor becomes the red
     root of a tree without any other node. So exactly the entries in the tree may be unlinked.
     */
    method Unlink(e: Entry, ghost zeroed: bool)
      requires Valid() && e in msgList && (Oldest(msgList, e) || zeroed)
      modifies this
      ensures msgList == Minus(old(msgList), e)
      ensures Valid() <==> Oldest(old(msgList), e)
      ensures !Oldest(old(msgList), e) ==> |tree| == 1 && !rootBlack
    {
      MemberPriority(msgList, e);
      var at, i := FindNode(e);
      var peers := tree[at].entries;
      if i == 0 {
        UnlinkOldest(e, at);
      } else {
        NotFirst(msgList, e, peers, i);
        tree, rootBlack := [PrioNode(e.priority, peers[i + 1..] + peers[..i])], false;
        msgList := Minus(msgList, e);
      }
    }

    /** The entry is the one in the tree. */
    method UnlinkOldest(e: Entry, at: int)
      requires
        && Valid() && Oldest(msgList, e) && 0 <= at < |tree| && tree[at].priority == e.priority
        && tree[at].entries != []
      modifies this`msgList, this`tree, this`highest
      ensures Valid() && msgList == Minus(old(msgList), e)
    {
      if |tree[at].entries| == 1 {
        LosesNode(msgList, tree, highest, e, at);
        if highest == Some(e) {
          highest := if at + 1 < |tree| then Some(tree[at + 1].entries[0]) else None;
        }
        tree := tree[..at] + tree[at + 1..];
      } else {
        LeavesNode(msgList, tree, highest, e, at);
        var next := tree[at].entries[1];
        if highest == Some(e) {
          highest := Some(next);
        }
        tree := tree[at := PrioNode(e.priority, tree[at].entries[1..])];
      }
      msgList := Minus(msgList, e);
    }

    /** The tree node of the entry's priority, and its place among the peers. */
    method FindNode(e: Entry) returns (at: int, i: int)
      requires Valid() && e in msgList
      ensures
        && 0 <= at < |tree| && tree[at].priority == e.priority && 0 <= i < |tree[at].entries|
        && tree[at].entries[i] == e && tree[at].entries == OfPriority(msgList, e.priority)
    {
      assert HasNode(tree, e.priority);
      at :| 0 <= at < |tree| && tree[at].priority == e.priority;
      assert NodeOk(tree[at], msgList);
      InPriority(msgList, e);
      i :| 0 <= i < |tree[at].entries| && tree[at].entries[i] == e;
    }
  }

  // `== true` keeps the verifier from taking the predicate apart wherever it is to be proved.
  ghost predicate Agree(list: seq<Entry>, tree: seq<PrioNode>, highest: Option<Entry>) {
    (&& Indexes(tree, list) && Distinct(list)
     && (tree != [] ==> tree[0].entries != [])
     && highest == FirstIn(tree)) == true
  }

  lemma {:induction false} JoinsNode(list: seq<Entry>, tree: seq<PrioNode>, highest: Option<Entry>, e: Entry, at: int)
    requires Agree(list, tree, highest) && 0 <= at < |tree| && tree[at].priority == e.priority
    requires forall x :: x in list ==> x.id != e.id
    ensures var t := tree[at := PrioNode(e.priority, tree[at].entries + [e])];
      Agree(list + [e], t, highest)
    ensures !Oldest(list + [e], e)
  {
    var t := tree[at := PrioNode(e.priority, tree[at].entries + [e])];
    AddToNode(tree, list, e, at, t);
    DistinctWith(list, e);
    assert NodeOk(tree[at], list) && NodeOk(tree[0], list);
    NotOldest(list, e);
  }

  lemma {:induction false} DistinctWith(list: seq<Entry>, e: Entry)
    requires Distinct(list) && forall x :: x in list ==> x.id != e.id
    ensures Distinct(list + [e])
  {
  }

  lemma {:induction false} NotOldest(list: seq<Entry>, e: Entry)
    requires OfPriority(list, e.priority) != [] && forall x :: x in list ==> x.id != e.id
    ensures !Oldest(list + [e], e)
  {
    AppendPriority(list, e, e.priority);
    PriorityMember(list, e.priority);
    assert OfPriority(list, e.priority)[0] in list;
  }

  lemma {:induction false} GetsNode(list: seq<Entry>, tree: seq<PrioNode>, highest: Option<Entry>, e: Entry, lo: int)
    requires Agree(list, tree, highest) && FitsAt(tree, e.priority, lo)
    requires forall x :: x in list ==> x.id != e.id
    ensures var t := tree[..lo] + [PrioNode(e.priority, [e])] + tree[lo..];
      Agree(list + [e], t, if lo == 0 then Some(e) else highest)
    ensures Oldest(list + [e], e)
  {
    var t := tree[..lo] + [PrioNode(e.priority, [e])] + tree[lo..];
    NewNode(tree, list, e, lo, t);
    NoNode(tree, list, e.priority);
    AppendPriority(list, e, e.priority);
    DistinctWith(list, e);
  }

  lemma {:induction false} LosesNode(list: seq<Entry>, tree: seq<PrioNode>, highest: Option<Entry>, e: Entry, at: int)
    requires Agree(list, tree, highest) && Oldest(list, e) && 0 <= at < |tree| && tree[at].priority == e.priority
    requires |tree[at].entries| == 1
    ensures at + 1 < |tree| ==> tree[at + 1].entries != []
    ensures var next := if at + 1 < |tree| then Some(tree[at + 1].entries[0]) else None;
      Agree(Minus(list, e), tree[..at] + tree[at + 1..], if highest == Some(e) then next else highest)
  {
    var t := tree[..at] + tree[at + 1..];
    DistinctWithout(list, e);
    DropNode(tree, list, e, at, t);
    FirstOf(list, tree[0]);
    assert NodeOk(tree[at], list) && tree[at].entries[0] == e;
    assert at + 1 < |tree| ==> NodeOk(tree[at + 1], list);
    assert t != [] ==> NodeOk(t[0], Minus(list, e));
  }

  lemma {:induction false} LeavesNode(list: seq<Entry>, tree: seq<PrioNode>, highest: Option<Entry>, e: Entry, at: int)
    requires Agree(list, tree, highest) && Oldest(list, e) && 0 <= at < |tree| && tree[at].priority == e.priority
    requires |tree[at].entries| > 1
    ensures var t, next := tree[at := PrioNode(e.priority, tree[at].entries[1..])], tree[at].entries[1];
      Agree(Minus(list, e), t, if highest == Some(e) then Some(next) else highest)
  {
    var t := tree[at := PrioNode(e.priority, tree[at].entries[1..])];
    DistinctWithout(list, e);
    ShrinkNode(tree, list, e, at, t);
    FirstOf(list, tree[0]);
    assert NodeOk(tree[at], list) && tree[at].entries[0] == e;
    assert NodeOk(t[0], Minus(list, e));
  }

  ghost function FirstIn(tree: seq<PrioNode>): Option<Entry> {
    if tree != [] && tree[0].entries != [] then Some(tree[0].entries[0]) else None
  }

  /** An entry is in the tree from some time on until it leaves the queue. */
  lemma {:induction false} OldestStays(list: seq<Entry>, e: Entry, x: Entry)
    requires Oldest(list, e) && x != e
    ensures Oldest(list + [x], e) && (Oldest(list, x) ==> Oldest(Minus(list, x), e))
  {
    AppendPriority(list, x, e.priority);
    if Oldest(list, x) {
      WithoutPriority(list, x, e.priority);
    }
  }

  lemma {:induction false} InPriority(list: seq<Entry>, e: Entry)
    requires e in list
    ensures e in OfPriority(list, e.priority)
    decreases |list|
  {
    if list[0] != e {
      InPriority(list[1..], e);
    }
  }

  lemma {:induction false} DistinctPriority(list: seq<Entry>, p: int)
    requires Distinct(list)
    ensures Distinct(OfPriority(list, p))
    decreases |list|
  {
    if list != [] {
      var o := OfPriority(list[1..], p);
      DistinctPriority(list[1..], p);
      PriorityMember(list[1..], p);
      forall k | 0 <= k < |o| ensures o[k].id != list[0].id {
        assert o[k] in o;
        var j :| 0 <= j < |list[1..]| && list[1..][j] == o[k];
        assert list[j + 1] == o[k];
      }
    }
  }

  lemma {:induction false} NotFirst(list: seq<Entry>, e: Entry, peers: seq<Entry>, i: int)
    requires Distinct(list) && peers == OfPriority(list, e.priority) && 0 < i < |peers| && peers[i] == e
    ensures !Oldest(list, e)
  {
    DistinctPriority(list, e.priority);
    assert peers[0].id != peers[i].id;
  }

  lemma {:induction false} AddToNode(tree: seq<PrioNode>, list: seq<Entry>, e: Entry, at: int, t: seq<PrioNode>)
    requires Indexes(tree, list) && 0 <= at < |tree| && tree[at].priority == e.priority
    requires t == tree[at := PrioNode(e.priority, tree[at].entries + [e])]
    ensures Indexes(t, list + [e])
  {
    forall k | 0 <= k < |t| ensures NodeOk(t[k], list + [e]) {
      assert NodeOk(tree[k], list);
      AppendPriority(list, e, tree[k].priority);
    }
    forall i | 0 <= i < |list + [e]| ensures HasNode(t, (list + [e])[i].priority) {
      if i < |list| {
        var k := NodeOf(tree, list[i].priority);
        assert t[k].priority == list[i].priority;
      } else {
        assert t[at].priority == e.priority;
      }
    }
  }

  lemma {:induction false} FirstOf(list: seq<Entry>, n: PrioNode)
    requires NodeOk(n, list)
    ensures n.entries[0].priority == n.priority
  {
    PriorityMember(list, n.priority);
  }

  lemma NodeOf(tree: seq<PrioNode>, p: int) returns (k: int)
    requires HasNode(tree, p)
    ensures 0 <= k < |tree| && tree[k].priority == p
  {
    k :| 0 <= k < |tree| && tree[k].priority == p;
  }

  ghost predicate FitsAt(tree: seq<PrioNode>, p: int, lo: int) {
    && 0 <= lo <= |tree|
    && (forall k :: 0 <= k < lo ==> tree[k].priority < p)
    && (forall k :: lo <= k < |tree| ==> p < tree[k].priority)
  }

  /** Without a node for a priority there is no entry of it. */
  lemma {:induction false} NoNode(tree: seq<PrioNode>, list: seq<Entry>, p: int)
    requires Covers(tree, list) && !HasNode(tree, p)
    ensures OfPriority(list, p) == []
    decreases |list|
  {
    if list != [] {
      assert HasNode(tree, list[0].priority);
      assert forall i :: 0 <= i < |list[1..]| ==> list[1..][i] == list[i + 1];
      NoNode(tree, list[1..], p);
    }
  }

  lemma {:induction false} NewNode(tree: seq<PrioNode>, list: seq<Entry>, e: Entry, lo: int, t: seq<PrioNode>)
    requires Indexes(tree, list) && FitsAt(tree, e.priority, lo)
    requires t == tree[..lo] + [PrioNode(e.priority, [e])] + tree[lo..]
    ensures Indexes(t, list + [e])
  {
    NoNode(tree, list, e.priority);
    forall k | 0 <= k < |t| ensures NodeOk(t[k], list + [e]) {
      PlacedNode(tree, PrioNode(e.priority, [e]), lo, k);
      AppendPriority(list, e, t[k].priority);
      assert k != lo ==> NodeOk(tree[if k < lo then k else k - 1], list);
    }
    NewNodeSorted(tree, PrioNode(e.priority, [e]), lo, t);
    NewNodeCovers(tree, list, e, lo, t);
  }

  lemma {:induction false} PlacedNode(tree: seq<PrioNode>, n: PrioNode, lo: int, k: int)
    requires 0 <= lo <= |tree| && 0 <= k <= |tree|
    ensures (tree[..lo] + [n] + tree[lo..])[k] == if k < lo then tree[k] else if k == lo then n else tree[k - 1]
  {
  }

  lemma {:induction false} NewNodeSorted(tree: seq<PrioNode>, n: PrioNode, lo: int, t: seq<PrioNode>)
    requires Sorted(tree) && FitsAt(tree, n.priority, lo) && t == tree[..lo] + [n] + tree[lo..]
    ensures Sorted(t)
  {
    forall i, j | 0 <= i < j < |t| ensures t[i].priority < t[j].priority {
      PlacedNode(tree, n, lo, i);
      PlacedNode(tree, n, lo, j);
    }
  }

  lemma {:induction false} NewNodeCovers(tree: seq<PrioNode>, list: seq<Entry>, e: Entry, lo: int, t: seq<PrioNode>)
    requires Covers(tree, list) && 0 <= lo <= |tree| && t == tree[..lo] + [PrioNode(e.priority, [e])] + tree[lo..]
    ensures Covers(t, list + [e])
  {
    forall i | 0 <= i < |list + [e]| ensures HasNode(t, (list + [e])[i].priority) {
      if i < |list| {
        var k := NodeOf(tree, list[i].priority);
        assert t[if k < lo then k else k + 1].priority == list[i].priority;
      } else {
        assert t[lo].priority == e.priority;
      }
    }
  }

  lemma {:induction false} ShrinkNode(tree: seq<PrioNode>, list: seq<Entry>, e: Entry, at: int, t: seq<PrioNode>)
    requires Indexes(tree, list) && Oldest(list, e) && 0 <= at < |tree| && tree[at].priority == e.priority
    requires |tree[at].entries| > 1 && t == tree[at := PrioNode(e.priority, tree[at].entries[1..])]
    ensures Indexes(t, Minus(list, e))
  {
    var list' := Minus(list, e);
    forall k | 0 <= k < |t| ensures NodeOk(t[k], list') {
      assert NodeOk(tree[k], list);
      WithoutPriority(list, e, tree[k].priority);
    }
    forall i | 0 <= i < |list'| ensures HasNode(t, list'[i].priority) {
      KeepsMembers(list, e);
      assert list'[i] in list;
      var k := NodeOf(tree, list'[i].priority);
      assert t[k].priority == list'[i].priority;
    }
  }

  lemma {:induction false} DropNode(tree: seq<PrioNode>, list: seq<Entry>, e: Entry, at: int, t: seq<PrioNode>)
    requires Indexes(tree, list) && Oldest(list, e) && 0 <= at < |tree| && tree[at].priority == e.priority
    requires |tree[at].entries| == 1 && t == tree[..at] + tree[at + 1..]
    ensures Indexes(t, Minus(list, e))
  {
    forall k | 0 <= k < |t| ensures NodeOk(t[k], Minus(list, e)) {
      KeptNode(tree, at, k);
      assert NodeOk(tree[if k < at then k else k + 1], list);
      assert t[k].priority != e.priority;
      WithoutPriority(list, e, t[k].priority);
    }
    DropSorted(tree, at, t);
    assert NodeOk(tree[at], list);
    WithoutPriority(list, e, e.priority);
    DropCovers(tree, list, e, at, t);
  }

  lemma {:induction false} KeptNode(tree: seq<PrioNode>, at: int, k: int)
    requires 0 <= at < |tree| && 0 <= k < |tree| - 1
    ensures (tree[..at] + tree[at + 1..])[k] == tree[if k < at then k else k + 1]
  {
  }

  lemma {:induction false} DropSorted(tree: seq<PrioNode>, at: int, t: seq<PrioNode>)
    requires Sorted(tree) && 0 <= at < |tree| && t == tree[..at] + tree[at + 1..]
    ensures Sorted(t)
  {
    forall i, j | 0 <= i < j < |t| ensures t[i].priority < t[j].priority {
      KeptNode(tree, at, i);
      KeptNode(tree, at, j);
    }
  }

  lemma {:induction false} DropCovers(tree: seq<PrioNode>, list: seq<Entry>, e: Entry, at: int, t: seq<PrioNode>)
    requires Covers(tree, list) && 0 <= at < |tree| && tree[at].priority == e.priority
    requires t == tree[..at] + tree[at + 1..]
    requires OfPriority(Minus(list, e), e.priority) == []
    ensures Covers(t, Minus(list, e))
  {
    var list' := Minus(list, e);
    forall i | 0 <= i < |list'| ensures HasNode(t, list'[i].priority) {
      KeepsMembers(list, e);
      assert list'[i] in list;
      MemberPriority(list', list'[i]);
      var k := NodeOf(tree, list'[i].priority);
      KeptNode(tree, at, if k < at then k else k - 1);
    }
  }

  lemma {:induction false} KeepsMembers(list: seq<Entry>, e: Entry)
    ensures forall x :: x in Minus(list, e) ==> x in list
  {
    forall x | x in Minus(list, e) ensures x in list {
      MinusIn(list, e, x);
    }
  }

  lemma {:induction false} DistinctWithout(list: seq<Entry>, e: Entry)
    requires Distinct(list)
    ensures Distinct(Minus(list, e))
    decreases |list|
  {
    if list != [] && list[0] != e {
      var w := Minus(list[1..], e);
      DistinctWithout(list[1..], e);
      KeepsMembers(list[1..], e);
      forall k | 0 <= k < |w| ensures w[k].id != list[0].id {
        assert w[k] in list[1..];
      }
    }
  }

  // ---------------------------------------------------------------- draining by name

  ghost predicate Matches(e: Entry, nameId: nat) {
    nameId == 0 || e.nameId == nameId
  }

  /** The entries a walk for that name takes away, in list order. */
  ghost function Movers(list: seq<Entry>, nameId: nat): seq<Entry> {
    if list == [] then []
    else
      var before, last := list[..|list| - 1], list[|list| - 1];
      Movers(before, nameId) + if Matches(last, nameId) then [last] else []
  }

  /** The entries it leaves behind. */
  ghost function Stayers(list: seq<Entry>, nameId: nat): seq<Entry> {
    if list == [] then []
    else
      var before, last := list[..|list| - 1], list[|list| - 1];
      Stayers(before, nameId) + if Matches(last, nameId) then [] else [last]
  }

  /** Without a filter everything goes; with one, exactly what was sent to that name does. */
  lemma {:induction false} MoversAre(list: seq<Entry>, nameId: nat)
    ensures forall e :: e in Movers(list, nameId) <==> e in list && (nameId == 0 || e.nameId == nameId)
    ensures forall e :: e in Stayers(list, nameId) <==> e in list && nameId != 0 && e.nameId != nameId
    decreases |list|
  {
    if list != [] {
      var before, last := list[..|list| - 1], list[|list| - 1];
      MoversAre(before, nameId);
      assert list == before + [last];
    }
  }

  /** Walking `rest` in order, every matching entry is the oldest of its priority when it is unlinked. */
  ghost predicate DrainUnlinksOldest(kept: seq<Entry>, rest: seq<Entry>, nameId: nat)
    decreases |rest|
  {
    rest == [] ||
    if Matches(rest[0], nameId) then Oldest(kept + rest, rest[0]) && DrainUnlinksOldest(kept, rest[1..], nameId)
    else DrainUnlinksOldest(kept + [rest[0]], rest[1..], nameId)
  }

  /** No entry that stays precedes a moving entry of its own priority. */
  ghost predicate StayersBehind(list: seq<Entry>, nameId: nat) {
    forall i, j :: 0 <= i < j < |list| && !Matches(list[i], nameId) && Matches(list[j], nameId) ==>
      list[i].priority != list[j].priority
  }

  ghost predicate NoneOf(list: seq<Entry>, p: int) {
    forall i :: 0 <= i < |list| ==> list[i].priority != p
  }

  /** None of the entries set aside shares its priority with a moving entry still ahead. */
  ghost predicate Apart(kept: seq<Entry>, rest: seq<Entry>, nameId: nat) {
    forall j :: 0 <= j < |rest| && Matches(rest[j], nameId) ==> NoneOf(kept, rest[j].priority)
  }

  lemma {:induction false} OldestBehind(kept: seq<Entry>, rest: seq<Entry>)
    requires rest != [] && rest[0] !in kept
    ensures Oldest(kept + rest, rest[0]) <==> NoneOf(kept, rest[0].priority)
    decreases |kept|
  {
    if kept == [] {
      assert kept + rest == rest;
    } else {
      assert (kept + rest)[1..] == kept[1..] + rest;
      OldestBehind(kept[1..], rest);
      var p := rest[0].priority;
      assert NoneOf(kept, p) <==> kept[0].priority != p && NoneOf(kept[1..], p) by {
        assert forall i :: 0 <= i < |kept[1..]| ==> kept[1..][i] == kept[i + 1];
      }
    }
  }

  lemma {:induction false} DistinctSplit(kept: seq<Entry>, rest: seq<Entry>)
    requires Distinct(kept + rest) && rest != []
    ensures rest[0] !in kept && Distinct(kept + rest[1..])
  {
    var all, fewer, n := kept + rest, kept + rest[1..], |kept|;
    assert all[n] == rest[0] && forall i :: 0 <= i < n ==> all[i] == kept[i];
    forall i, j | 0 <= i < j < |fewer| ensures fewer[i].id != fewer[j].id {
      assert fewer[i] == all[if i < n then i else i + 1] && fewer[j] == all[if j < n then j else j + 1];
    }
  }

  lemma {:induction false} DrainExactly(kept: seq<Entry>, rest: seq<Entry>, nameId: nat)
    requires Distinct(kept + rest)
    ensures DrainUnlinksOldest(kept, rest, nameId) <==> Apart(kept, rest, nameId) && StayersBehind(rest, nameId)
    decreases |rest|
  {
    if rest != [] {
      var e, tail := rest[0], rest[1..];
      assert forall i :: 0 <= i < |tail| ==> tail[i] == rest[i + 1];
      DistinctSplit(kept, rest);
      if Matches(e, nameId) {
        OldestBehind(kept, rest);
        DrainExactly(kept, tail, nameId);
      } else {
        assert kept + [e] + tail == kept + rest;
        DrainExactly(kept + [e], tail, nameId);
        ApartMore(kept, e, tail, nameId);
      }
    }
  }

  lemma {:induction false} ApartMore(kept: seq<Entry>, e: Entry, rest: seq<Entry>, nameId: nat)
    ensures Apart(kept + [e], rest, nameId) <==>
      && Apart(kept, rest, nameId)
      && forall j :: 0 <= j < |rest| && Matches(rest[j], nameId) ==> rest[j].priority != e.priority
  {
    forall j | 0 <= j < |rest|
      ensures NoneOf(kept + [e], rest[j].priority) <==>
        NoneOf(kept, rest[j].priority) && rest[j].priority != e.priority
    {
      assert (kept + [e])[|kept|] == e;
      assert forall i :: 0 <= i < |kept| ==> (kept + [e])[i] == kept[i];
    }
  }

  /**
   The walk of kdbus_conn_move_messages unlinks only entries that are in the tree, and so keeps the
   index, exactly if no entry that stays precedes a moving entry of its own priority; always so
   when it moves everything.
   */
  lemma {:induction false} DrainKeepsIndex(list: seq<Entry>, nameId: nat)
    requires Distinct(list)
    ensures DrainUnlinksOldest([], list, nameId) <==> StayersBehind(list, nameId)
    ensures nameId == 0 ==> StayersBehind(list, nameId)
  {
    assert [] + list == list;
    DrainExactly([], list, nameId);
  }

  /** A walk that does not: of two messages of one priority the first one stays. */
  lemma {:induction false} FilteredDrainBreaks()
    ensures !DrainUnlinksOldest([], [Entry(0, 0, 1, 0, 8, 0, 0), Entry(1, 0, 2, 0, 8, 0, 8)], 2)
  {
    var list := [Entry(0, 0, 1, 0, 8, 0, 0), Entry(1, 0, 2, 0, 8, 0, 8)];
    DrainKeepsIndex(list, 2);
    assert !Matches(list[0], 2) && Matches(list[1], 2) && list[0].priority == list[1].priority;
  }
}
