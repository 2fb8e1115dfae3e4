/**
 The receive buffer of a connection: a best-fit slice allocator with splitting and
 two-sided coalescing. A red-black tree is kept as the sequence of its nodes in tree order;
 a descent narrows a window of that sequence around an arbitrary pivot, which covers every
 shape the balancing may produce.
 */
module Pool {
  import opened Common
  import opened Lists

  datatype Slice = Slice(off: nat, size: nat, free: bool, accounted: bool, refKernel: bool, refUser: bool)

  /** The part of a slice its tree node is found by. */
  datatype Range = Range(off: nat, size: nat)

  datatype AllocResult = Allocated(off: nat) | AllocFailed(error: AllocError)
  datatype AllocError = EINVAL | EXFULL | ENOMEM

  // ---------------------------------------------------------------- layouts

  /** The slices cover [lo, hi) without gap or overlap, in non-empty multiples of 8 bytes. */
  ghost predicate Tiles(ss: seq<Slice>, lo: nat, hi: nat) {
    if ss == [] then lo == hi
    else ss[0].off == lo && 0 < ss[0].size && ss[0].size % 8 == 0 && Tiles(ss[1..], lo + ss[0].size, hi)
  }

  ghost predicate NoAdjacentFree(ss: seq<Slice>) {
    forall i :: 0 <= i && i + 1 < |ss| ==> !(ss[i].free && ss[i + 1].free)
  }

  ghost predicate RefsOk(ss: seq<Slice>) {
    forall i :: 0 <= i < |ss| ==> (ss[i].free <==> !ss[i].refKernel && !ss[i].refUser)
  }

  /** A pool layout in canonical form. */
  ghost predicate Layout(ss: seq<Slice>, size: nat) {
    Tiles(ss, 0, size) && NoAdjacentFree(ss) && RefsOk(ss)
  }

  /** Bytes accounted to the incoming queue: slices the kernel holds for queued messages. */
  ghost function Accounted(ss: seq<Slice>): nat {
    if ss == [] then 0
    else (if ss[0].accounted && ss[0].refKernel then ss[0].size else 0) + Accounted(ss[1..])
  }

  ghost function FreeBag(ss: seq<Slice>): multiset<Range> {
    if ss == [] then multiset{}
    else (if ss[0].free then multiset{Range(ss[0].off, ss[0].size)} else multiset{}) + FreeBag(ss[1..])
  }

  /** The allocated ranges in address order. */
  ghost function Busy(ss: seq<Slice>): seq<Range> {
    if ss == [] then [] else (if ss[0].free then [] else [Range(ss[0].off, ss[0].size)]) + Busy(ss[1..])
  }

  /** What user space can observe of a layout. */
  ghost function Shape(ss: seq<Slice>): seq<(nat, nat, bool)> {
    seq(|ss|, i requires 0 <= i < |ss| => (ss[i].off, ss[i].size, ss[i].free))
  }

  ghost function EndOf(ss: seq<Slice>, lo: nat): nat {
    if ss == [] then lo else EndOf(ss[1..], lo + ss[0].size)
  }

  lemma {:induction false} ConcatTiles(a: seq<Slice>, b: seq<Slice>, lo: nat, hi: nat)
    ensures Tiles(a + b, lo, hi) <==> Tiles(a, lo, EndOf(a, lo)) && Tiles(b, EndOf(a, lo), hi)
    decreases |a|
  {
    if a == [] {
      assert a + b == b;
    } else {
      assert (a + b)[1..] == a[1..] + b;
      ConcatTiles(a[1..], b, lo + a[0].size, hi);
    }
  }

  lemma {:induction false} ConcatAccounted(a: seq<Slice>, b: seq<Slice>)
    ensures Accounted(a + b) == Accounted(a) + Accounted(b)
    decreases |a|
  {
    if a == [] {
      assert a + b == b;
    } else {
      assert (a + b)[1..] == a[1..] + b;
      ConcatAccounted(a[1..], b);
    }
  }

  lemma {:induction false} ConcatFree(a: seq<Slice>, b: seq<Slice>)
    ensures FreeBag(a + b) == FreeBag(a) + FreeBag(b)
    decreases |a|
  {
    if a == [] {
      assert a + b == b;
    } else {
      assert (a + b)[1..] == a[1..] + b;
      ConcatFree(a[1..], b);
    }
  }

  lemma {:induction false} ConcatBusy(a: seq<Slice>, b: seq<Slice>)
    ensures Busy(a + b) == Busy(a) + Busy(b)
    decreases |a|
  {
    if a == [] {
      assert a + b == b;
    } else {
      assert (a + b)[1..] == a[1..] + b;
      ConcatBusy(a[1..], b);
      assert Busy(a) + Busy(b) == (if a[0].free then [] else [Range(a[0].off, a[0].size)]) + (Busy(a[1..]) + Busy(b));
    }
  }

  // A layout in which m stands between a and b.
  lemma {:induction false} SplicedAccounted(a: seq<Slice>, m: seq<Slice>, b: seq<Slice>)
    ensures Accounted(a + m + b) == Accounted(a) + Accounted(m) + Accounted(b)
  {
    ConcatAccounted(a + m, b);
    ConcatAccounted(a, m);
  }

  lemma {:induction false} SplicedFree(a: seq<Slice>, m: seq<Slice>, b: seq<Slice>)
    ensures FreeBag(a + m + b) == FreeBag(a) + FreeBag(m) + FreeBag(b)
  {
    ConcatFree(a + m, b);
    ConcatFree(a, m);
  }

  lemma {:induction false} SplicedBusy(a: seq<Slice>, m: seq<Slice>, b: seq<Slice>)
    ensures Busy(a + m + b) == Busy(a) + Busy(m) + Busy(b)
  {
    ConcatBusy(a + m, b);
    ConcatBusy(a, m);
  }

  lemma {:induction false} SplicedTiles(
    a: seq<Slice>, m: seq<Slice>, b: seq<Slice>, lo: nat, mid: nat, end: nat, hi: nat)
    requires Tiles(a, lo, mid) && Tiles(m, mid, end) && Tiles(b, end, hi)
    ensures Tiles(a + m + b, lo, hi)
  {
    EndBound(a, lo, mid);
    EndBound(m, mid, end);
    ConcatTiles(a, m, lo, end);
    EndBound(a + m, lo, end);
    ConcatTiles(a + m, b, lo, hi);
  }

  /** Cutting a layout before and after the slices i .. j. */
  lemma {:induction false} CutTiles(ss: seq<Slice>, i: nat, j: nat, lo: nat, hi: nat)
    requires Tiles(ss, lo, hi) && i <= j <= |ss|
    ensures var mid, end := EndOf(ss[..i], lo), EndOf(ss[..j], lo);
      Tiles(ss[..i], lo, mid) && Tiles(ss[i..j], mid, end) && Tiles(ss[j..], end, hi) && lo <= mid <= end <= hi
  {
    assert ss == ss[..j] + ss[j..] && ss[..j] == ss[..i] + ss[i..j];
    ConcatTiles(ss[..j], ss[j..], lo, hi);
    ConcatTiles(ss[..i], ss[i..j], lo, EndOf(ss[..j], lo));
    EndBound(ss[..i], lo, EndOf(ss[..i], lo));
    EndBound(ss[i..j], EndOf(ss[..i], lo), EndOf(ss[..j], lo));
    EndBound(ss[j..], EndOf(ss[..j], lo), hi);
  }

  lemma EndBound(ss: seq<Slice>, lo: nat, hi: nat)
    requires Tiles(ss, lo, hi)
    ensures lo <= hi && EndOf(ss, lo) == hi && (ss != [] ==> lo < hi)
  {
  }

  // ---------------------------------------------------------------- canonicity

  lemma BusyBounds(ss: seq<Slice>, lo: nat, hi: nat)
    requires Tiles(ss, lo, hi)
    ensures forall k ::
      0 <= k < |Busy(ss)| ==> lo <= Busy(ss)[k].off && Busy(ss)[k].off + Busy(ss)[k].size <= hi && 0 < Busy(ss)[k].size
  {
    if ss != [] {
      BusyBounds(ss[1..], lo + ss[0].size, hi);
      EndBound(ss[1..], lo + ss[0].size, hi);
    }
  }

  /** A canonical layout is determined by its allocated ranges: the free slices are the maximal gaps. */
  lemma {:induction false} CanonicalUnique(a: seq<Slice>, b: seq<Slice>, lo: nat, hi: nat)
    requires Tiles(a, lo, hi) && Tiles(b, lo, hi) && NoAdjacentFree(a) && NoAdjacentFree(b)
    requires Busy(a) == Busy(b)
    ensures Shape(a) == Shape(b)
    decreases |a|
  {
    if a == [] || b == [] {
      EndBound(a, lo, hi);
      EndBound(b, lo, hi);
    } else {
      SameHead(a, b, lo, hi);
      CanonicalUnique(a[1..], b[1..], lo + a[0].size, hi);
      assert Shape(a) == [(a[0].off, a[0].size, a[0].free)] + Shape(a[1..]);
      assert Shape(b) == [(b[0].off, b[0].size, b[0].free)] + Shape(b[1..]);
    }
  }

  lemma {:induction false} SameHead(a: seq<Slice>, b: seq<Slice>, lo: nat, hi: nat)
    requires Tiles(a, lo, hi) && Tiles(b, lo, hi) && NoAdjacentFree(a) && NoAdjacentFree(b)
    requires a != [] && b != [] && Busy(a) == Busy(b)
    ensures a[0].free == b[0].free && a[0].size == b[0].size && Busy(a[1..]) == Busy(b[1..])
  {
    FirstGap(a, lo, hi);
    FirstGap(b, lo, hi);
    if !a[0].free {
      assert Busy(a[1..]) == Busy(a)[1..] && Busy(b[1..]) == Busy(b)[1..];
    } else {
      assert Busy(a) == Busy(a[1..]) && Busy(b) == Busy(b[1..]);
    }
  }

  /** A leading free slice reaches exactly to the first allocated byte. */
  lemma {:induction false} FirstGap(ss: seq<Slice>, lo: nat, hi: nat)
    requires Tiles(ss, lo, hi) && NoAdjacentFree(ss) && ss != []
    ensures ss[0].free ==> ss[0].size == (if Busy(ss) == [] then hi else Busy(ss)[0].off) - lo
    ensures !ss[0].free ==> Busy(ss) != [] && Busy(ss)[0] == Range(lo, ss[0].size)
    ensures ss[0].free && Busy(ss) != [] ==> lo < Busy(ss)[0].off
  {
    assert |ss| == 1 ==> ss[1..] == [];
    if ss[0].free && |ss| > 1 {
      assert !ss[1].free;
      assert Busy(ss[1..])[0] == Range(ss[1].off, ss[1].size);
    }
  }

  // ---------------------------------------------------------------- allocation on layouts

  /** Slice i is free, large enough for n bytes, and no smaller free slice is. */
  ghost predicate BestFit(ss: seq<Slice>, i: nat, n: nat) {
    && i < |ss| && ss[i].free && n <= ss[i].size
    && forall j :: 0 <= j < |ss| && ss[j].free && n <= ss[j].size ==> ss[i].size <= ss[j].size
  }

  function Remainder(s: Slice, n: nat): seq<Slice>
    requires n <= s.size
  {
    if n < s.size then [Slice(s.off + n, s.size - n, true, false, false, false)] else []
  }

  function Carved(s: Slice, n: nat, accounted: bool): seq<Slice>
    requires n <= s.size
  {
    [s.(size := n, free := false, refKernel := true, accounted := accounted)] + Remainder(s, n)
  }

  /** Take n bytes from the front of free slice i. */
  function Carve(ss: seq<Slice>, i: nat, n: nat, accounted: bool): seq<Slice>
    requires i < |ss| && n <= ss[i].size
  {
    ss[..i] + Carved(ss[i], n, accounted) + ss[i + 1..]
  }

  lemma {:induction false} CarvedTiles(s: Slice, n: nat, accounted: bool)
    requires 0 < n <= s.size && n % 8 == 0 && s.size % 8 == 0
    ensures Tiles(Carved(s, n, accounted), s.off, s.off + s.size)
  {
    var m := Carved(s, n, accounted);
    assert m[1..] == Remainder(s, n);
    assert n < s.size ==> m[1..][1..] == [];
  }

  lemma {:induction false} CarveLayout(ss: seq<Slice>, i: nat, n: nat, accounted: bool, size: nat)
    requires Layout(ss, size) && i < |ss| && ss[i].free && 0 < n <= ss[i].size && n % 8 == 0
    ensures Layout(Carve(ss, i, n, accounted), size)
  {
    var a, m, b := ss[..i], Carved(ss[i], n, accounted), ss[i + 1..];
    CutTiles(ss, i, i + 1, 0, size);
    assert ss[i..i + 1] == [ss[i]];
    CarvedTiles(ss[i], n, accounted);
    SplicedTiles(a, m, b, 0, ss[i].off, ss[i].off + ss[i].size, size);
    CarveNeighbours(ss, i, n, accounted);
  }

  lemma {:induction false} CarveAccounted(ss: seq<Slice>, i: nat, n: nat, accounted: bool)
    requires RefsOk(ss) && i < |ss| && ss[i].free && n <= ss[i].size
    ensures Accounted(Carve(ss, i, n, accounted)) == Accounted(ss) + (if accounted then n else 0)
  {
    assert ss == ss[..i] + [ss[i]] + ss[i + 1..];
    SplicedAccounted(ss[..i], [ss[i]], ss[i + 1..]);
    SplicedAccounted(ss[..i], Carved(ss[i], n, accounted), ss[i + 1..]);
    CarvedCounts(ss[i], n, accounted);
  }

  lemma {:induction false} CarveBusy(ss: seq<Slice>, i: nat, n: nat, accounted: bool)
    requires RefsOk(ss) && i < |ss| && ss[i].free && n <= ss[i].size
    ensures Busy(ss) == Busy(ss[..i]) + Busy(ss[i + 1..])
    ensures Busy(Carve(ss, i, n, accounted)) == Busy(ss[..i]) + [Range(ss[i].off, n)] + Busy(ss[i + 1..])
  {
    assert ss == ss[..i] + [ss[i]] + ss[i + 1..];
    SplicedBusy(ss[..i], [ss[i]], ss[i + 1..]);
    SplicedBusy(ss[..i], Carved(ss[i], n, accounted), ss[i + 1..]);
    CarvedCounts(ss[i], n, accounted);
    assert Busy(ss[..i]) + [] == Busy(ss[..i]);
  }

  lemma {:induction false} CarveFree(ss: seq<Slice>, i: nat, n: nat, accounted: bool)
    requires i < |ss| && n <= ss[i].size
    ensures FreeBag([ss[i]]) <= FreeBag(ss)
    ensures FreeBag(Carve(ss, i, n, accounted)) == FreeBag(ss) - FreeBag([ss[i]]) + FreeBag(Carved(ss[i], n, accounted))
  {
    var a, x, b, y := ss[..i], [ss[i]], ss[i + 1..], Carved(ss[i], n, accounted);
    assert ss == a + x + b;
    SplicedFree(a, x, b);
    SplicedFree(a, y, b);
    BagSwap(FreeBag(a), FreeBag(x), FreeBag(b), FreeBag(y));
  }

  lemma {:induction false} BagSwap(a: multiset<Range>, x: multiset<Range>, b: multiset<Range>, y: multiset<Range>)
    ensures a + x + b - x + y == a + y + b && x <= a + x + b
  {
  }

  lemma {:induction false} CarvedCounts(s: Slice, n: nat, accounted: bool)
    requires s.free && !s.refKernel && n <= s.size
    ensures Accounted([s]) == 0 && Accounted(Carved(s, n, accounted)) == (if accounted then n else 0)
    ensures Busy([s]) == [] && Busy(Carved(s, n, accounted)) == [Range(s.off, n)]
    ensures FreeBag([s]) == multiset{Range(s.off, s.size)}
    ensures FreeBag(Carved(s, n, accounted)) == if n < s.size
      then multiset{Range(s.off + n, s.size - n)}
      else multiset{}
  {
    var m := Carved(s, n, accounted);
    assert m[1..] == Remainder(s, n);
    assert n < s.size ==> m[1..][1..] == [];
  }

  lemma {:induction false} CarveNeighbours(ss: seq<Slice>, i: nat, n: nat, accounted: bool)
    requires NoAdjacentFree(ss) && RefsOk(ss) && i < |ss| && ss[i].free && n <= ss[i].size
    ensures NoAdjacentFree(Carve(ss, i, n, accounted)) && RefsOk(Carve(ss, i, n, accounted))
  {
    var ss' := Carve(ss, i, n, accounted);
    var d := |Remainder(ss[i], n)|;
    var s := ss[i].(size := n, free := false, refKernel := true, accounted := accounted);
    forall k | 0 <= k < |ss'|
      ensures ss'[k] ==
        if k < i then ss[k] else if k == i then s
        else if k == i + 1 && d == 1 then Remainder(ss[i], n)[0] else ss[k - d]
    {
    }
  }

  // ---------------------------------------------------------------- release on layouts

  ghost predicate FreeNext(ss: seq<Slice>, i: nat)
    requires i < |ss|
  {
    i + 1 < |ss| && ss[i + 1].free
  }

  ghost predicate FreePrev(ss: seq<Slice>, i: nat)
    requires i < |ss|
  {
    0 < i && ss[i - 1].free
  }

  /** The slices lo .. hi that become one when slice i is freed. */
  ghost function First(ss: seq<Slice>, i: nat): (lo: nat)
    requires i < |ss|
    ensures lo <= i
  {
    if FreePrev(ss, i) then i - 1 else i
  }

  ghost function Last(ss: seq<Slice>, i: nat): (hi: nat)
    requires i < |ss|
    ensures i < hi <= |ss|
  {
    if FreeNext(ss, i) then i + 2 else i + 1
  }

  /** Slice i becomes free and merges with its free neighbours. */
  ghost function Coalesce(ss: seq<Slice>, i: nat): seq<Slice>
    requires i < |ss|
  {
    ss[..First(ss, i)] + [Merged(ss, i)] + ss[Last(ss, i)..]
  }

  ghost function Merged(ss: seq<Slice>, i: nat): Slice
    requires i < |ss|
  {
    var size := ss[i].size + (if FreeNext(ss, i) then ss[i + 1].size else 0);
    if FreePrev(ss, i) then ss[i - 1].(size := ss[i - 1].size + size, free := true)
    else ss[i].(size := size, free := true)
  }

  ghost predicate Releasable(ss: seq<Slice>, i: nat) {
    && i < |ss| && !ss[i].free && !ss[i].refKernel && !ss[i].refUser
    && forall k :: 0 <= k < |ss| && k != i ==> (ss[k].free <==> !ss[k].refKernel && !ss[k].refUser)
  }

  lemma {:induction false} CoalesceLayout(ss: seq<Slice>, i: nat, size: nat)
    requires Tiles(ss, 0, size) && NoAdjacentFree(ss) && Releasable(ss, i)
    ensures Layout(Coalesce(ss, i), size)
  {
    var lo, hi, m := First(ss, i), Last(ss, i), Merged(ss, i);
    CutTiles(ss, lo, hi, 0, size);
    var mid, end := EndOf(ss[..lo], 0), EndOf(ss[..hi], 0);
    MergedTile(ss, i, mid, end);
    SplicedTiles(ss[..lo], [m], ss[hi..], 0, mid, end, size);
    CoalesceNeighbours(ss, i);
  }

  lemma {:induction false} CoalesceNeighbours(ss: seq<Slice>, i: nat)
    requires NoAdjacentFree(ss) && Releasable(ss, i)
    ensures NoAdjacentFree(Coalesce(ss, i)) && RefsOk(Coalesce(ss, i))
  {
    var lo, hi, m, ss' := First(ss, i), Last(ss, i), Merged(ss, i), Coalesce(ss, i);
    forall k | 0 <= k < |ss'| ensures ss'[k] == (if k < lo then ss[k] else if k == lo then m else ss[k + hi - lo - 1]) {
    }
  }

  lemma {:induction false} MergedTile(ss: seq<Slice>, i: nat, mid: nat, end: nat)
    requires i < |ss| && Tiles(ss[First(ss, i)..Last(ss, i)], mid, end)
    ensures Tiles([Merged(ss, i)], mid, end)
  {
    var lo, hi := First(ss, i), Last(ss, i);
    var t := ss[lo..hi];
    var m := [Merged(ss, i)];
    assert m[1..] == [];
    assert Tiles(t[1..], mid + t[0].size, end);
    if hi - lo == 1 {
      assert t[1..] == [];
    } else {
      assert t[1..][0] == ss[lo + 1];
      assert Tiles(t[1..][1..], mid + t[0].size + ss[lo + 1].size, end);
      if hi - lo == 2 {
        assert t[1..][1..] == [];
      } else {
        assert t[1..][1..][0] == ss[lo + 2] && t[1..][1..][1..] == [];
        assert Tiles(t[1..][1..][1..], mid + t[0].size + ss[lo + 1].size + ss[lo + 2].size, end);
      }
    }
  }

  lemma {:induction false} MergedCounts(ss: seq<Slice>, i: nat)
    requires Releasable(ss, i)
    ensures var t := ss[First(ss, i)..Last(ss, i)];
      && Accounted(t) == 0 && Accounted([Merged(ss, i)]) == 0
      && Busy(t) == [Range(ss[i].off, ss[i].size)] && Busy([Merged(ss, i)]) == []
      && FreeBag([Merged(ss, i)]) == multiset{Range(Merged(ss, i).off, Merged(ss, i).size)}
      && FreeBag(t) == FreeBag(Prev(ss, i)) + FreeBag(Next(ss, i))
  {
    var p, q, x := Prev(ss, i), Next(ss, i), [ss[i]];
    assert ss[First(ss, i)..Last(ss, i)] == p + x + q;
    Single(ss[i]);
    Single(Merged(ss, i));
    NeighbourCounts(ss, i);
    MiddleCounts(p, x, q);
  }

  /** A slice in use between slices that are not. */
  lemma {:induction false} MiddleCounts(p: seq<Slice>, x: seq<Slice>, q: seq<Slice>)
    requires Busy(p) == [] && Busy(q) == [] && Accounted(p) == 0 && Accounted(q) == 0 && FreeBag(x) == multiset{}
    ensures
      && Accounted(p + x + q) == Accounted(x) && Busy(p + x + q) == Busy(x)
      && FreeBag(p + x + q) == FreeBag(p) + FreeBag(q)
  {
    SplicedAccounted(p, x, q);
    SplicedBusy(p, x, q);
    SplicedFree(p, x, q);
    BagNeighbours(FreeBag(p), FreeBag(q));
    assert [] + Busy(x) + [] == Busy(x);
  }

  /** The free neighbours, if any, as lists of one slice. */
  ghost function Prev(ss: seq<Slice>, i: nat): seq<Slice>
    requires i < |ss|
  {
    if FreePrev(ss, i) then [ss[i - 1]] else []
  }

  ghost function Next(ss: seq<Slice>, i: nat): seq<Slice>
    requires i < |ss|
  {
    if FreeNext(ss, i) then [ss[i + 1]] else []
  }

  lemma {:induction false} NeighbourCounts(ss: seq<Slice>, i: nat)
    requires Releasable(ss, i)
    ensures
      && Accounted(Prev(ss, i)) == 0 && Accounted(Next(ss, i)) == 0 && Busy(Prev(ss, i)) == []
      && Busy(Next(ss, i)) == []
    ensures FreeBag(Prev(ss, i)) == if FreePrev(ss, i)
      then multiset{Range(ss[i - 1].off, ss[i - 1].size)}
      else multiset{}
    ensures FreeBag(Next(ss, i)) == if FreeNext(ss, i)
      then multiset{Range(ss[i + 1].off, ss[i + 1].size)}
      else multiset{}
  {
    if FreePrev(ss, i) { Single(ss[i - 1]); }
    if FreeNext(ss, i) { Single(ss[i + 1]); }
  }

  lemma {:induction false} BagNeighbours(p: multiset<Range>, q: multiset<Range>)
    ensures p + multiset{} + q == p + q
  {
  }

  lemma {:induction false} Single(s: Slice)
    ensures Accounted([s]) == if s.accounted && s.refKernel then s.size else 0
    ensures Busy([s]) == if s.free then [] else [Range(s.off, s.size)]
    ensures FreeBag([s]) == if s.free then multiset{Range(s.off, s.size)} else multiset{}
  {
    assert [s][1..] == [];
  }

  /** Releasing a slice removes its range and nothing else from the allocated ones. */
  lemma {:induction false} CoalesceBusy(ss: seq<Slice>, i: nat)
    requires Releasable(ss, i)
    ensures Accounted(Coalesce(ss, i)) == Accounted(ss)
    ensures var a, b := Busy(ss[..First(ss, i)]), Busy(ss[Last(ss, i)..]);
      Busy(ss) == a + [Range(ss[i].off, ss[i].size)] + b && Busy(Coalesce(ss, i)) == a + b
  {
    var lo, hi := First(ss, i), Last(ss, i);
    assert ss == ss[..lo] + ss[lo..hi] + ss[hi..];
    MergedCounts(ss, i);
    SplicedAccounted(ss[..lo], ss[lo..hi], ss[hi..]);
    SplicedAccounted(ss[..lo], [Merged(ss, i)], ss[hi..]);
    SplicedBusy(ss[..lo], ss[lo..hi], ss[hi..]);
    SplicedBusy(ss[..lo], [Merged(ss, i)], ss[hi..]);
    assert Busy(ss[..lo]) + [] == Busy(ss[..lo]);
  }

  lemma {:induction false} CoalesceFree(ss: seq<Slice>, i: nat)
    requires Releasable(ss, i)
    ensures FreeBag(Coalesce(ss, i)) == FreeBag(ss) - FreeBag(ss[First(ss, i)..Last(ss, i)])
      + multiset{Range(Merged(ss, i).off, Merged(ss, i).size)}
    ensures FreeBag(ss[First(ss, i)..Last(ss, i)]) <= FreeBag(ss)
  {
    var lo, hi := First(ss, i), Last(ss, i);
    assert ss == ss[..lo] + ss[lo..hi] + ss[hi..];
    MergedCounts(ss, i);
    SplicedFree(ss[..lo], ss[lo..hi], ss[hi..]);
    SplicedFree(ss[..lo], [Merged(ss, i)], ss[hi..]);
    BagSwap(FreeBag(ss[..lo]), FreeBag(ss[lo..hi]), FreeBag(ss[hi..]), FreeBag([Merged(ss, i)]));
  }

  /** Allocating and then releasing the slice restores the layout. */
  lemma {:induction false} AllocReleaseRestores(ss: seq<Slice>, i: nat, n: nat, accounted: bool, size: nat)
    requires Layout(ss, size) && i < |ss| && ss[i].free && 0 < n <= ss[i].size && n % 8 == 0
    ensures var ss1 := Carve(ss, i, n, accounted);
      var ss2 := ss1[i := ss1[i].(refKernel := false)];
      Releasable(ss2, i) && Shape(Coalesce(ss2, i)) == Shape(ss)
  {
    var ss1 := Carve(ss, i, n, accounted);
    var ss2 := ss1[i := ss1[i].(refKernel := false)];
    CarveLayout(ss, i, n, accounted, size);
    assert ss1[..i] == ss[..i] && ss1[i] == Carved(ss[i], n, accounted)[0];
    SameTiles(ss1, ss2, 0, size);
    assert NoAdjacentFree(ss2);
    CoalesceLayout(ss2, i, size);
    CoalesceBusy(ss2, i);
    CarveBusy(ss, i, n, accounted);
    BusyWithout(ss, i, n, accounted);
    CanonicalUnique(Coalesce(ss2, i), ss, 0, size);
  }

  lemma {:induction false} BusyWithout(ss: seq<Slice>, i: nat, n: nat, accounted: bool)
    requires RefsOk(ss) && i < |ss| && ss[i].free && n <= ss[i].size
    requires Releasable(Carve(ss, i, n, accounted)[i := Carve(ss, i, n, accounted)[i].(refKernel := false)], i)
    ensures var ss1 := Carve(ss, i, n, accounted);
      var ss2 := ss1[i := ss1[i].(refKernel := false)];
      Busy(Coalesce(ss2, i)) == Busy(ss)
  {
    var ss1 := Carve(ss, i, n, accounted);
    var ss2 := ss1[i := ss1[i].(refKernel := false)];
    assert ss2[..i] == ss[..i] && ss2[i + 1..] == Remainder(ss[i], n) + ss[i + 1..];
    BusyTail(ss, i, n);
    CarveBusy(ss, i, n, accounted);
    CoalesceBusy(ss2, i);
    FreeEdges(ss2, i);
  }

  lemma {:induction false} BusyTail(ss: seq<Slice>, i: nat, n: nat)
    requires i < |ss| && n <= ss[i].size
    ensures Busy(Remainder(ss[i], n) + ss[i + 1..]) == Busy(ss[i + 1..])
  {
    ConcatBusy(Remainder(ss[i], n), ss[i + 1..]);
    if n < ss[i].size { Single(Remainder(ss[i], n)[0]); }
  }

  /** The neighbours that merge contribute no allocated range. */
  lemma {:induction false} FreeEdges(ss: seq<Slice>, i: nat)
    requires i < |ss|
    ensures Busy(ss[..First(ss, i)]) == Busy(ss[..i]) && Busy(ss[Last(ss, i)..]) == Busy(ss[i + 1..])
  {
    if FreePrev(ss, i) {
      assert ss[..i] == ss[..i - 1] + [ss[i - 1]];
      ConcatBusy(ss[..i - 1], [ss[i - 1]]);
      Single(ss[i - 1]);
    }
    if FreeNext(ss, i) {
      assert ss[i + 1..] == [ss[i + 1]] + ss[i + 2..];
      Single(ss[i + 1]);
    }
  }

  lemma {:induction false} SameTiles(a: seq<Slice>, b: seq<Slice>, lo: nat, hi: nat)
    requires
      && Tiles(a, lo, hi) && |a| == |b| && forall k :: 0 <= k < |a| ==> a[k].off == b[k].off && a[k].size == b[k].size
    ensures Tiles(b, lo, hi)
    decreases |a|
  {
    if a != [] { SameTiles(a[1..], b[1..], lo + a[0].size, hi); }
  }

  // ---------------------------------------------------------------- trees

  ghost predicate SortedBySize(t: seq<Range>) {
    forall i, j :: 0 <= i < j < |t| ==> t[i].size <= t[j].size
  }

  /** rb_erase takes the node out; the others keep their order. */
  lemma {:induction false} EraseBag(t: seq<Range>, r: Range)
    requires r in t
    ensures multiset(Minus(t, r)) == multiset(t) - multiset{r}
    decreases |t|
  {
    assert t == [t[0]] + t[1..];
    if t[0] != r {
      EraseBag(t[1..], r);
    }
  }

  lemma {:induction false} EraseSorted(t: seq<Range>, r: Range)
    requires SortedBySize(t)
    ensures SortedBySize(Minus(t, r)) && forall x :: x in Minus(t, r) ==> x in t
    decreases |t|
  {
    if t != [] && t[0] != r {
      EraseSorted(t[1..], r);
      var e := Minus(t[1..], r);
      forall k | 0 <= k < |e| ensures t[0].size <= e[k].size {
        assert e[k] in e;
        FirstIsLeast(t, e[k]);
      }
      ConsSorted(t[0], e);
      assert forall x :: x in [t[0]] + e ==> x == t[0] || x in e;
    }
  }

  lemma {:induction false} FirstIsLeast(t: seq<Range>, x: Range)
    requires SortedBySize(t) && t != [] && x in t[1..]
    ensures t[0].size <= x.size
  {
    var k :| 0 <= k < |t[1..]| && t[1..][k] == x;
    assert t[k + 1] == x;
  }

  lemma {:induction false} ConsSorted(r: Range, t: seq<Range>)
    requires SortedBySize(t) && forall k :: 0 <= k < |t| ==> r.size <= t[k].size
    ensures SortedBySize([r] + t)
  {
  }

  lemma {:induction false} EraseMiddle(a: seq<Range>, r: Range, b: seq<Range>)
    requires r !in a
    ensures Minus(a + [r] + b, r) == a + b
    decreases |a|
  {
    var t := a + [r] + b;
    if a == [] {
      assert t[1..] == b && a + b == b;
    } else {
      assert t[1..] == a[1..] + [r] + b;
      EraseMiddle(a[1..], r, b);
      assert [a[0]] + (a[1..] + b) == a + b;
    }
  }

  /** Search loop of kdbus_pool_slice_alloc: the closest sufficient size. */
  method FindFit(t: seq<Range>, n: nat) returns (found: int, exact: bool)
    requires SortedBySize(t)
    ensures -1 <= found < |t|
    ensures found == -1 ==> forall k :: 0 <= k < |t| ==> t[k].size < n
    ensures found >= 0 ==> n <= t[found].size && (exact <==> t[found].size == n)
    ensures found >= 0 ==> forall k :: 0 <= k < |t| && n <= t[k].size ==> t[found].size <= t[k].size
  {
    var lo, hi := 0, |t|;
    found, exact := -1, false;
    while lo < hi
      invariant 0 <= lo <= hi <= |t| && !exact
      invariant forall k :: 0 <= k < lo ==> t[k].size < n
      invariant if found == -1 then hi == |t| else found == hi < |t| && n < t[found].size
      decreases hi - lo
    {
      var m :| lo <= m < hi;
      if n < t[m].size {
        found, hi := m, m;
      } else if n > t[m].size {
        lo := m + 1;
      } else {
        found, exact := m, true;
        return;
      }
    }
  }

  /** kdbus_pool_add_free_slice: after the nodes of equal size. */
  method AddFree(t: seq<Range>, r: Range) returns (t': seq<Range>)
    requires SortedBySize(t)
    ensures multiset(t') == multiset(t) + multiset{r} && SortedBySize(t')
  {
    var lo, hi := 0, |t|;
    while lo < hi
      invariant 0 <= lo <= hi <= |t|
      invariant forall k :: 0 <= k < lo ==> t[k].size <= r.size
      invariant forall k :: hi <= k < |t| ==> r.size < t[k].size
    {
      var m :| lo <= m < hi;
      if r.size < t[m].size { hi := m; } else { lo := m + 1; }
    }
    InsertFree(t, r, lo);
    InsertBag(t[..lo], r, t[lo..]);
    assert t == t[..lo] + t[lo..];
    t' := t[..lo] + [r] + t[lo..];
  }

  lemma {:induction false} InsertFree(t: seq<Range>, r: Range, lo: int)
    requires SortedBySize(t) && 0 <= lo <= |t|
    requires (forall k :: 0 <= k < lo ==> t[k].size <= r.size) && forall k :: lo <= k < |t| ==> r.size < t[k].size
    ensures SortedBySize(t[..lo] + [r] + t[lo..])
  {
    var t' := t[..lo] + [r] + t[lo..];
    forall i, j | 0 <= i < j < |t'| ensures t'[i].size <= t'[j].size {
      InsertPick(t, r, lo, i);
      InsertPick(t, r, lo, j);
    }
  }

  lemma {:induction false} InsertPick(t: seq<Range>, r: Range, lo: int, i: int)
    requires 0 <= lo <= |t| && 0 <= i <= |t|
    ensures (t[..lo] + [r] + t[lo..])[i] == if i < lo then t[i] else if i == lo then r else t[i - 1]
  {
  }

  lemma {:induction false} InsertBag(a: seq<Range>, r: Range, b: seq<Range>)
    ensures multiset(a + [r] + b) == multiset(a + b) + multiset{r}
  {
  }

  ghost predicate SortedByOffset(t: seq<Range>) {
    forall i, j :: 0 <= i < j < |t| ==> t[i].off < t[j].off
  }

  ghost predicate InsertedAt(t: seq<Range>, r: Range, k: int, t': seq<Range>) {
    && 0 <= k <= |t| && t' == t[..k] + [r] + t[k..]
    && (forall i :: 0 <= i < k ==> t[i].off < r.off)
    && (forall i :: k <= i < |t| ==> r.off < t[i].off)
  }

  /** kdbus_pool_add_busy_slice; BUG() on an offset that is already present is unreachable. */
  method AddBusy(t: seq<Range>, r: Range) returns (t': seq<Range>)
    requires SortedByOffset(t) && forall k :: 0 <= k < |t| ==> t[k].off != r.off
    ensures exists k :: InsertedAt(t, r, k, t')
  {
    var lo, hi := 0, |t|;
    while lo < hi
      invariant 0 <= lo <= hi <= |t|
      invariant forall k :: 0 <= k < lo ==> t[k].off < r.off
      invariant forall k :: hi <= k < |t| ==> r.off < t[k].off
    {
      var m :| lo <= m < hi;
      if r.off < t[m].off { hi := m; } else { lo := m + 1; }
    }
    t' := t[..lo] + [r] + t[lo..];
    assert InsertedAt(t, r, lo, t');
  }

  ghost predicate HasOffset(t: seq<Range>, off: nat) {
    exists k :: 0 <= k < |t| && t[k].off == off
  }

  /** kdbus_pool_find_slice. */
  method FindBusy(t: seq<Range>, off: nat) returns (found: bool)
    requires SortedByOffset(t)
    ensures found <==> HasOffset(t, off)
  {
    var lo, hi := 0, |t|;
    while lo < hi
      invariant 0 <= lo <= hi <= |t|
      invariant forall k :: 0 <= k < |t| && !(lo <= k < hi) ==> t[k].off != off
    {
      var m :| lo <= m < hi;
      if off < t[m].off { hi := m; } else if off > t[m].off { lo := m + 1; } else { return true; }
    }
    return false;
  }

  // ---------------------------------------------------------------- the pool

  /** Position of the slice at `off`. */
  function Index(ss: seq<Slice>, off: nat): (i: nat)
    requires exists k :: 0 <= k < |ss| && ss[k].off == off
    ensures i < |ss| && ss[i].off == off
  {
    if ss[0].off == off then 0 else 1 + Index(ss[1..], off)
  }

  ghost function BusySlices(ss: seq<Slice>): set<Slice> {
    set s | s in ss && !s.free
  }

  lemma {:induction false} ConcatHeld(a: seq<Slice>, m: seq<Slice>, b: seq<Slice>)
    ensures BusySlices(a + m + b) == BusySlices(a) + BusySlices(m) + BusySlices(b)
  {
  }

  lemma {:induction false} CarveHeld(ss: seq<Slice>, i: nat, n: nat, accounted: bool)
    requires RefsOk(ss) && i < |ss| && ss[i].free && n <= ss[i].size
    ensures BusySlices(Carve(ss, i, n, accounted)) ==
      BusySlices(ss) + {Slice(ss[i].off, n, false, accounted, true, false)}
  {
    assert ss == ss[..i] + [ss[i]] + ss[i + 1..];
    ConcatHeld(ss[..i], [ss[i]], ss[i + 1..]);
    ConcatHeld(ss[..i], Carved(ss[i], n, accounted), ss[i + 1..]);
  }

  /** Nobody else holds the slice at that position. */
  lemma {:induction false} HeldOnce(ss: seq<Slice>, i: nat, before: nat, after: nat, size: nat)
    requires Tiles(ss, 0, size) && before <= i < after <= |ss|
    ensures ss[i] !in ss[..before] && ss[i] !in ss[after..]
  {
    forall j | 0 <= j < |ss| && j != i ensures ss[j] != ss[i] {
      if j < i { OffsetsDistinct(ss, 0, size, j, i); } else { OffsetsDistinct(ss, 0, size, i, j); }
    }
  }

  lemma {:induction false} UpdateHeld(ss: seq<Slice>, i: nat, s: Slice, size: nat)
    requires Tiles(ss, 0, size) && i < |ss| && !ss[i].free && !s.free
    ensures BusySlices(ss[i := s]) == BusySlices(ss) - {ss[i]} + {s}
  {
    HeldOnce(ss, i, i, i + 1, size);
    assert ss == ss[..i] + [ss[i]] + ss[i + 1..] && ss[i := s] == ss[..i] + [s] + ss[i + 1..];
    ConcatHeld(ss[..i], [ss[i]], ss[i + 1..]);
    ConcatHeld(ss[..i], [s], ss[i + 1..]);
  }

  lemma {:induction false} MergedHeld(ss: seq<Slice>, i: nat)
    requires Releasable(ss, i)
    ensures BusySlices(ss[First(ss, i)..Last(ss, i)]) == {ss[i]} && BusySlices([Merged(ss, i)]) == {}
  {
    var p := if FreePrev(ss, i) then [ss[i - 1]] else [];
    var q := if FreeNext(ss, i) then [ss[i + 1]] else [];
    assert ss[First(ss, i)..Last(ss, i)] == p + [ss[i]] + q;
    ConcatHeld(p, [ss[i]], q);
    assert BusySlices(p) == {} && BusySlices(q) == {} && BusySlices([ss[i]]) == {ss[i]};
  }

  lemma {:induction false} CoalesceHeld(ss: seq<Slice>, i: nat, size: nat)
    requires Tiles(ss, 0, size) && Releasable(ss, i)
    ensures BusySlices(Coalesce(ss, i)) == BusySlices(ss) - {ss[i]}
  {
    var lo, hi := First(ss, i), Last(ss, i);
    HeldOnce(ss, i, lo, hi, size);
    MergedHeld(ss, i);
    assert ss == ss[..lo] + ss[lo..hi] + ss[hi..];
    ConcatHeld(ss[..lo], ss[lo..hi], ss[hi..]);
    ConcatHeld(ss[..lo], [Merged(ss, i)], ss[hi..]);
  }

  lemma {:induction false} OffsetsDistinct(ss: seq<Slice>, lo: nat, hi: nat, i: nat, j: nat)
    requires Tiles(ss, lo, hi) && i < j < |ss|
    ensures ss[i].off + ss[i].size <= ss[j].off && 0 < ss[i].size
  {
    CutTiles(ss, i, i + 1, lo, hi);
    assert ss[i..i + 1] == [ss[i]] && ss[j] == ss[i + 1..][j - i - 1];
    var mid := EndOf(ss[..i + 1], lo);
    CutTiles(ss[i + 1..], j - i - 1, j - i - 1, mid, hi);
    assert ss[i + 1..][j - i - 1..][0] == ss[j];
  }

  class Pool {
    const size: nat
    var accountedSize: nat
    var slices: seq<Slice>          // sorted by address
    var freeTree: seq<Range>
    var busyTree: seq<Range>

    ghost predicate Valid()
      reads this
    {
      && Layout(slices, size) && 0 < size
      && accountedSize == Accounted(slices)
      && busyTree == Busy(slices)
      && multiset(freeTree) == FreeBag(slices) && SortedBySize(freeTree)
    }

    /** The slices somebody holds. */
    ghost function Held(): set<Slice>
      reads this
    {
      BusySlices(slices)
    }

    constructor (size: nat)
      requires 0 < size && size % 8 == 0
      ensures Valid() && this.size == size && Held() == {} && accountedSize == 0
    {
      this.size := size;
      this.accountedSize := 0;
      this.slices := [Slice(0, size, true, false, false, false)];
      this.freeTree := [Range(0, size)];
      this.busyTree := [];
      new;
      Single(slices[0]);
      assert slices[1..] == [];
    }

    /** kdbus_pool_slice_alloc. `oom` is the outcome of allocating the remainder's bookkeeping. */
    method Alloc(n: nat, accounted: bool, oom: bool) returns (r: AllocResult)
      requires Valid()
      modifies this
      ensures Valid()
      ensures r.Allocated? ==> 0 < n && exists i :: CarvedFrom(old(slices), slices, i, Align8(n), accounted, r.off)
      ensures r.Allocated? ==>
        && Held() == old(Held()) + {Slice(r.off, Align8(n), false, accounted, true, false)}
        && accountedSize == old(accountedSize) + if accounted then Align8(n) else 0
      ensures r.Allocated? ==> forall s :: s in old(Held()) ==> s.off != r.off
      ensures r.AllocFailed? ==> slices == old(slices) && accountedSize == old(accountedSize)
      ensures r == AllocFailed(EINVAL) <==> n == 0
      ensures n > 0 ==> (r == AllocFailed(EXFULL) <==> NoFit(old(slices), Align8(n)))
      ensures r == AllocFailed(ENOMEM) <==>
        n > 0 && oom && !NoFit(old(slices), Align8(n)) && !ExactFit(old(slices), Align8(n))
      ensures n > 0 ==>
        (r == AllocFailed(EXFULL) <==>
         forall k :: 0 <= k < |old(slices)| && old(slices)[k].free ==> old(slices)[k].size < Align8(n))
      ensures r.Allocated? ==>
        exists i ::
          && 0 <= i < |old(slices)| && old(slices)[i].free && old(slices)[i].off == r.off
          && old(slices)[i].size >= Align8(n)
          && forall k :: 0 <= k < |old(slices)| && old(slices)[k].free && old(slices)[k].size >= Align8(n) ==>
               old(slices)[i].size <= old(slices)[k].size
    {
      var want := Align8(n);
      if n == 0 {
        return AllocFailed(EINVAL);
      }
      var found, exact := FindFit(freeTree, want);
      FreeNodes(slices, freeTree);
      if found == -1 {
        return AllocFailed(EXFULL);
      }
      var node := freeTree[found];
      var i := Index(slices, node.off);
      FoundFit(slices, freeTree, size, found, want, i);
      ExactIsBest(slices, i, want);
      if !exact && oom {
        return AllocFailed(ENOMEM);
      }
      CarveHeld(slices, i, want, accounted);
      FreshOffset(slices, i, size);
      Take(i, want, accounted);
      assert CarvedFrom(old(slices), slices, i, want, accounted, node.off);
      return Allocated(node.off);
    }

    /** Split off the remainder, move slice i from the free to the busy tree and account it. */
    method Take(i: nat, want: nat, accounted: bool)
      requires Valid() && i < |slices| && slices[i].free && 0 < want <= slices[i].size && want % 8 == 0
      modifies this
      ensures Valid() && slices == Carve(old(slices), i, want, accounted)
      ensures accountedSize == old(accountedSize) + if accounted then want else 0
    {
      var s := slices[i];
      freeTree := SplitFree(freeTree, slices, i, want, accounted, s);
      BusySorted(slices, size);
      BusySplit(slices, i, size);
      busyTree := AddBusy(busyTree, Range(s.off, want));
      BusyInsert(slices, i, want, accounted, size, busyTree);
      CarveLayout(slices, i, want, accounted, size);
      CarveAccounted(slices, i, want, accounted);
      slices := Carve(slices, i, want, accounted);
      if accounted {
        accountedSize := accountedSize + want;
      }
    }

    ghost predicate SliceAt(off: nat)
      reads this
    {
      exists k :: 0 <= k < |slices| && slices[k].off == off
    }

    /** Everything but the references of slice i is in order. */
    ghost predicate ValidBut(i: nat)
      reads this
    {
      && Tiles(slices, 0, size) && NoAdjacentFree(slices) && 0 < size
      && i < |slices| && !slices[i].free
      && (forall k :: 0 <= k < |slices| && k != i ==> (slices[k].free <==> !slices[k].refKernel && !slices[k].refUser))
      && accountedSize == Accounted(slices)
      && busyTree == Busy(slices)
      && multiset(freeTree) == FreeBag(slices) && SortedBySize(freeTree)
    }

    /** __kdbus_pool_slice_release: return slice i to the pool once nobody references it. */
    method Reclaim(i: nat)
      requires ValidBut(i)
      modifies this
      ensures Valid()
      ensures slices == if old(slices)[i].refKernel || old(slices)[i].refUser
        then old(slices)
        else Coalesce(old(slices), i)
      ensures accountedSize == old(accountedSize)
    {
      if slices[i].refKernel || slices[i].refUser {
        return;
      }
      CoalesceLayout(slices, i, size);
      CoalesceBusy(slices, i);
      ReclaimBusy(slices, i, size);
      busyTree := Minus(busyTree, Range(slices[i].off, slices[i].size));

      var tree, ss := MergeFree(freeTree, slices, i);
      freeTree, slices := tree, ss;
    }

    /** kdbus_pool_slice_publish. The kernel must hold the slice. */
    method Publish(off: nat) returns (outOff: nat, outSize: nat)
      requires Valid() && SliceAt(off) && slices[Index(slices, off)].refKernel
      modifies this`slices
      ensures Valid()
      ensures var i := Index(old(slices), off);
        && outOff == off && outSize == old(slices)[i].size
        && slices == old(slices)[i := old(slices)[i].(refUser := true)]
        && Held() == old(Held()) - {old(slices)[i]} + {old(slices)[i].(refUser := true)}
    {
      var i := Index(slices, off);
      SameCounts(slices, i, slices[i].(refUser := true), size);
      UpdateHeld(slices, i, slices[i].(refUser := true), size);
      slices := slices[i := slices[i].(refUser := true)];
      return slices[i].off, slices[i].size;
    }

    /** kdbus_pool_slice_release: the kernel drops its reference; the slice is no longer accounted. */
    method SliceRelease(off: nat)
      requires Valid() && SliceAt(off) && slices[Index(slices, off)].refKernel
      modifies this
      ensures Valid()
      ensures var i := Index(old(slices), off);
        var s := old(slices)[i];
        var ss := old(slices)[i := s.(refKernel := false)];
        && slices == (if s.refUser then ss else Coalesce(ss, i))
        && accountedSize == old(accountedSize) - (if s.accounted then s.size else 0)
        && Held() == old(Held()) - {s} + (if s.refUser then {s.(refKernel := false)} else {})
    {
      var i := Index(slices, off);
      var s := slices[i];
      UnaccountedCounts(slices, i, size);
      ReleaseHeld(slices, i, size);
      slices := slices[i := s.(refKernel := false)];
      // the warning about an underflow of the account cannot fire
      if s.accounted && accountedSize >= s.size {
        accountedSize := accountedSize - s.size;
      }
      Reclaim(i);
    }

    /** kdbus_pool_release_offset: user space returns a published slice. */
    method ReleaseOffset(off: nat) returns (ok: bool)
      requires Valid()
      modifies this
      ensures Valid() && accountedSize == old(accountedSize)
      ensures ok <==> off == size || (old(SliceAt(off)) && old(slices)[Index(old(slices), off)].refUser)
      ensures !ok || off == size ==> slices == old(slices)
      ensures ok && off != size ==>
        var i := Index(old(slices), off);
        var ss := old(slices)[i := old(slices)[i].(refUser := false)];
        && slices == (if ss[i].refKernel then ss else Coalesce(ss, i))
        && Held() == old(Held()) - {old(slices)[i]} + (if ss[i].refKernel then {ss[i]} else {})
    {
      if off == size {
        return true;
      }
      BusySorted(slices, size);
      var found := FindBusy(busyTree, off);
      BusyOffsets(slices, off, size);
      assert found ==> SliceAt(off) by {
        if found {
          var i :| 0 <= i < |slices| && slices[i].off == off && !slices[i].free;
        }
      }
      if found && slices[Index(slices, off)].refUser {
        var i := Index(slices, off);
        SameCounts(slices, i, slices[i].(refUser := false), size);
        UnpublishHeld(slices, i, size);
        slices := slices[i := slices[i].(refUser := false)];
        Reclaim(i);
        ok := true;
      } else {
        ok := false;
      }
    }
  }

  lemma {:induction false} ReleaseHeld(ss: seq<Slice>, i: nat, size: nat)
    requires Layout(ss, size) && i < |ss| && ss[i].refKernel
    ensures var s := ss[i].(refKernel := false);
      BusySlices(if s.refUser then ss[i := s] else Coalesce(ss[i := s], i)) ==
        BusySlices(ss) - {ss[i]} + (if s.refUser then {s} else {})
  {
    var s := ss[i].(refKernel := false);
    UpdateHeld(ss, i, s, size);
    if !s.refUser {
      SameTiles(ss, ss[i := s], 0, size);
      CoalesceHeld(ss[i := s], i, size);
      HeldOnce(ss, i, i, i + 1, size);
      assert s !in BusySlices(ss);
    }
  }

  lemma {:induction false} UnpublishHeld(ss: seq<Slice>, i: nat, size: nat)
    requires Layout(ss, size) && i < |ss| && ss[i].refUser
    ensures var s := ss[i].(refUser := false);
      BusySlices(if s.refKernel then ss[i := s] else Coalesce(ss[i := s], i)) ==
        BusySlices(ss) - {ss[i]} + (if s.refKernel then {s} else {})
  {
    var s := ss[i].(refUser := false);
    UpdateHeld(ss, i, s, size);
    if !s.refKernel {
      SameTiles(ss, ss[i := s], 0, size);
      CoalesceHeld(ss[i := s], i, size);
      HeldOnce(ss, i, i, i + 1, size);
      assert s !in BusySlices(ss);
    }
  }

  lemma {:induction false} FreshOffset(ss: seq<Slice>, i: nat, size: nat)
    requires Tiles(ss, 0, size) && i < |ss| && ss[i].free
    ensures forall s :: s in BusySlices(ss) ==> s.off != ss[i].off
  {
    forall s | s in BusySlices(ss) ensures s.off != ss[i].off {
      var j :| 0 <= j < |ss| && ss[j] == s;
      if j < i { OffsetsDistinct(ss, 0, size, j, i); } else { OffsetsDistinct(ss, 0, size, i, j); }
    }
  }

  /** Merge slice i with its free neighbours, in the free tree and in the list. */
  method MergeFree(t: seq<Range>, ss: seq<Slice>, i: nat) returns (t': seq<Range>, ss': seq<Slice>)
    requires SortedBySize(t) && multiset(t) == FreeBag(ss) && Releasable(ss, i)
    ensures SortedBySize(t') && multiset(t') == FreeBag(Coalesce(ss, i)) && ss' == Coalesce(ss, i)
  {
    t' := UnlinkNeighbours(t, ss, i);
    var s, head, tail := ss[i], ss[..i], ss[i + 1..];
    if i + 1 < |ss| && ss[i + 1].free {
      s, tail := s.(size := s.size + ss[i + 1].size), ss[i + 2..];
    }
    if 0 < i && ss[i - 1].free {
      s, head := ss[i - 1].(size := ss[i - 1].size + s.size), ss[..i - 1];
    }
    s := s.(free := true);
    ss' := head + [s] + tail;
    assert s == Merged(ss, i) && head == ss[..First(ss, i)] && tail == ss[Last(ss, i)..];
    CoalesceFree(ss, i);
    t' := AddFree(t', Range(s.off, s.size));
  }

  /** Take the free neighbours of slice i out of the free tree. */
  method UnlinkNeighbours(t: seq<Range>, ss: seq<Slice>, i: nat) returns (t': seq<Range>)
    requires SortedBySize(t) && multiset(t) == FreeBag(ss) && Releasable(ss, i)
    ensures SortedBySize(t') && multiset(t') == FreeBag(ss) - FreeBag(ss[First(ss, i)..Last(ss, i)])
  {
    t' := t;
    NeighbourNodes(ss, i);
    NeighbourCounts(ss, i);
    ghost var f, p, q := FreeBag(ss), FreeBag(Prev(ss, i)), FreeBag(Next(ss, i));
    if i + 1 < |ss| && ss[i + 1].free {
      var next := Range(ss[i + 1].off, ss[i + 1].size);
      EraseFree(t', next, f);
      t' := Minus(t', next);
    }
    assert multiset(t') == f - q;
    if 0 < i && ss[i - 1].free {
      var prev := Range(ss[i - 1].off, ss[i - 1].size);
      EraseFree(t', prev, f - q);
      t' := Minus(t', prev);
    }
    assert multiset(t') == f - q - p;
  }

  /** Changing references or accounting of a held slice leaves trees and tiling alone. */
  lemma {:induction false} SameCounts(ss: seq<Slice>, i: nat, s: Slice, size: nat)
    requires Layout(ss, size) && i < |ss| && s == ss[i].(refUser := s.refUser) && !ss[i].free
    ensures var ss' := ss[i := s];
      && Tiles(ss', 0, size) && NoAdjacentFree(ss')
      && Accounted(ss') == Accounted(ss) && Busy(ss') == Busy(ss) && FreeBag(ss') == FreeBag(ss)
  {
    var ss' := ss[i := s];
    SameTiles(ss, ss', 0, size);
    var a, b := ss[..i], ss[i + 1..];
    assert ss == a + [ss[i]] + b && ss' == a + [s] + b;
    SplicedAccounted(a, [ss[i]], b);
    SplicedAccounted(a, [s], b);
    SplicedBusy(a, [ss[i]], b);
    SplicedBusy(a, [s], b);
    SplicedFree(a, [ss[i]], b);
    SplicedFree(a, [s], b);
    Single(s);
    Single(ss[i]);
  }

  lemma {:induction false} UnaccountedCounts(ss: seq<Slice>, i: nat, size: nat)
    requires Layout(ss, size) && i < |ss| && ss[i].refKernel
    ensures var ss' := ss[i := ss[i].(refKernel := false)];
      && Tiles(ss', 0, size) && NoAdjacentFree(ss') && !ss'[i].free
      && Accounted(ss) == Accounted(ss') + (if ss[i].accounted then ss[i].size else 0)
      && Busy(ss') == Busy(ss) && FreeBag(ss') == FreeBag(ss)
  {
    var s := ss[i].(refKernel := false);
    var ss' := ss[i := s];
    SameTiles(ss, ss', 0, size);
    var a, b := ss[..i], ss[i + 1..];
    assert ss == a + [ss[i]] + b && ss' == a + [s] + b;
    SplicedAccounted(a, [ss[i]], b);
    SplicedAccounted(a, [s], b);
    SplicedBusy(a, [ss[i]], b);
    SplicedBusy(a, [s], b);
    SplicedFree(a, [ss[i]], b);
    SplicedFree(a, [s], b);
    Single(s);
    Single(ss[i]);
  }

  lemma {:induction false} ReclaimBusy(ss: seq<Slice>, i: nat, size: nat)
    requires Tiles(ss, 0, size) && Releasable(ss, i)
    ensures Minus(Busy(ss), Range(ss[i].off, ss[i].size)) == Busy(Coalesce(ss, i))
  {
    CoalesceBusy(ss, i);
    var r, a, b := Range(ss[i].off, ss[i].size), Busy(ss[..First(ss, i)]), Busy(ss[Last(ss, i)..]);
    BusySorted(ss, size);
    forall k | 0 <= k < |a| ensures a[k] != r {
      assert Busy(ss)[k] == a[k] && Busy(ss)[|a|] == r;
    }
    EraseMiddle(a, r, b);
  }

  /** The free neighbours are in the bag, and taking both out leaves the rest. */
  lemma {:induction false} NeighbourNodes(ss: seq<Slice>, i: nat)
    requires Releasable(ss, i)
    ensures var f, p, q := FreeBag(ss), FreeBag(Prev(ss, i)), FreeBag(Next(ss, i));
      q <= f && p <= f - q && f - q - p == f - FreeBag(ss[First(ss, i)..Last(ss, i)])
  {
    CoalesceFree(ss, i);
    MergedCounts(ss, i);
    BagRoom(FreeBag(ss), FreeBag(Prev(ss, i)), FreeBag(Next(ss, i)));
  }

  lemma {:induction false} BagRoom(f: multiset<Range>, p: multiset<Range>, q: multiset<Range>)
    requires p + q <= f
    ensures q <= f && p <= f - q && f - q - p == f - (p + q)
  {
  }

  lemma {:induction false} BusyOffsets(ss: seq<Slice>, off: nat, size: nat)
    requires Layout(ss, size)
    ensures HasOffset(Busy(ss), off) <==> BusyAt(ss, off)
    ensures forall i, j :: 0 <= i < |ss| && 0 <= j < |ss| && ss[i].off == ss[j].off ==> i == j
  {
    BusyHas(ss, off);
    forall i, j | 0 <= i < j < |ss| ensures ss[i].off != ss[j].off {
      OffsetsDistinct(ss, 0, size, i, j);
    }
  }

  ghost predicate BusyAt(ss: seq<Slice>, off: nat) {
    exists i :: 0 <= i < |ss| && ss[i].off == off && !ss[i].free
  }

  lemma {:induction false} BusyHas(ss: seq<Slice>, off: nat)
    ensures HasOffset(Busy(ss), off) <==> BusyAt(ss, off)
    decreases |ss|
  {
    if ss != [] {
      BusyHas(ss[1..], off);
      var h, t := if ss[0].free then [] else [Range(ss[0].off, ss[0].size)], Busy(ss[1..]);
      assert Busy(ss) == h + t;
      if BusyAt(ss[1..], off) {
        var i :| 0 <= i < |ss[1..]| && ss[1..][i].off == off && !ss[1..][i].free;
        assert ss[i + 1] == ss[1..][i];
        var k :| 0 <= k < |t| && t[k].off == off;
        assert Busy(ss)[|h| + k] == t[k];
      } else if BusyAt(ss, off) {
        forall i | 1 <= i < |ss| ensures ss[i].free || ss[i].off != off {
          assert ss[1..][i - 1] == ss[i];
        }
        assert Busy(ss)[0].off == off;
      } else {
        assert ss[0].free || ss[0].off != off;
        forall k | 0 <= k < |Busy(ss)| ensures Busy(ss)[k].off != off {
          if k >= |h| {
            assert Busy(ss)[k] == t[k - |h|] && !HasOffset(t, off);
          }
        }
      }
    }
  }

  lemma {:induction false} BagReorder(f: multiset<Range>, x: multiset<Range>, r: multiset<Range>)
    requires x <= f
    ensures f - x + r == f + r - x && (r == multiset{} ==> f - x + r == f - x)
  {
  }

  lemma {:induction false} EraseFree(t: seq<Range>, node: Range, f: multiset<Range>)
    requires SortedBySize(t) && multiset(t) == f && multiset{node} <= f
    ensures SortedBySize(Minus(t, node)) && multiset(Minus(t, node)) == f - multiset{node}
  {
    assert node in multiset(t);
    EraseBag(t, node);
    EraseSorted(t, node);
  }

  /** The free tree once slice i gave up its first n bytes. */
  method SplitFree(t: seq<Range>, ghost ss: seq<Slice>, ghost i: nat, n: nat, ghost accounted: bool, s: Slice)
    returns (t': seq<Range>)
    requires
      && SortedBySize(t) && multiset(t) == FreeBag(ss) && RefsOk(ss) && i < |ss| && s == ss[i] && s.free && n <= s.size
    ensures SortedBySize(t') && multiset(t') == FreeBag(Carve(ss, i, n, accounted))
  {
    CarveFree(ss, i, n, accounted);
    CarvedCounts(s, n, accounted);
    BagReorder(FreeBag(ss), FreeBag([s]), FreeBag(Carved(s, n, accounted)));
    t' := t;
    if n < s.size {
      t' := AddFree(t, Range(s.off + n, s.size - n));
    }
    ghost var f := if n < s.size then FreeBag(ss) + FreeBag(Carved(s, n, accounted)) else FreeBag(ss);
    EraseFree(t', Range(s.off, s.size), f);
    t' := Minus(t', Range(s.off, s.size));
  }

  /** r bytes at `off` were taken from the best fitting free slice i. */
  ghost predicate CarvedFrom(ss: seq<Slice>, ss': seq<Slice>, i: int, n: nat, accounted: bool, off: nat) {
    0 <= i && BestFit(ss, i, n) && off == ss[i].off && ss' == Carve(ss, i, n, accounted)
  }

  ghost predicate NoFit(ss: seq<Slice>, n: nat) {
    forall i :: 0 <= i < |ss| && ss[i].free ==> ss[i].size < n
  }

  /** No slice has to be split. */
  ghost predicate ExactFit(ss: seq<Slice>, n: nat) {
    exists i :: 0 <= i < |ss| && ss[i].free && ss[i].size == n
  }

  lemma {:induction false} ExactIsBest(ss: seq<Slice>, i: nat, n: nat)
    requires BestFit(ss, i, n)
    ensures !NoFit(ss, n) && (ss[i].size == n <==> ExactFit(ss, n))
  {
  }

  lemma {:induction false} FoundFit(ss: seq<Slice>, t: seq<Range>, size: nat, found: int, n: nat, i: nat)
    requires Layout(ss, size) && multiset(t) == FreeBag(ss) && 0 <= found < |t| && i < |ss| && ss[i].off == t[found].off
    requires n <= t[found].size && forall k :: 0 <= k < |t| && n <= t[k].size ==> t[found].size <= t[k].size
    ensures BestFit(ss, i, n) && ss[i].size == t[found].size
  {
    FreeNodes(ss, t);
    var j :| 0 <= j < |ss| && ss[j].free && ss[j].off == t[found].off && ss[j].size == t[found].size;
    if i < j { OffsetsDistinct(ss, 0, size, i, j); }
    if j < i { OffsetsDistinct(ss, 0, size, j, i); }
    forall m | 0 <= m < |ss| && ss[m].free && n <= ss[m].size ensures ss[i].size <= ss[m].size {
      assert Range(ss[m].off, ss[m].size) in t;
    }
  }

  lemma {:induction false} BusySorted(ss: seq<Slice>, size: nat)
    requires Tiles(ss, 0, size)
    ensures SortedByOffset(Busy(ss))
  {
    BusySortedFrom(ss, 0, size);
  }

  lemma {:induction false} BusySortedFrom(ss: seq<Slice>, lo: nat, hi: nat)
    requires Tiles(ss, lo, hi)
    ensures SortedByOffset(Busy(ss))
    decreases |ss|
  {
    if ss != [] {
      BusySortedFrom(ss[1..], lo + ss[0].size, hi);
      BusyBounds(ss[1..], lo + ss[0].size, hi);
    }
  }

  ghost predicate AllBelow(t: seq<Range>, off: nat) {
    forall k :: 0 <= k < |t| ==> t[k].off < off
  }

  ghost predicate AllAbove(t: seq<Range>, off: nat) {
    forall k :: 0 <= k < |t| ==> off < t[k].off
  }

  /** Allocated ranges before and after slice i lie before and after its offset. */
  lemma {:induction false} BusySplit(ss: seq<Slice>, i: nat, size: nat)
    requires Layout(ss, size) && i < |ss|
    ensures AllBelow(Busy(ss[..i]), ss[i].off) && AllAbove(Busy(ss[i + 1..]), ss[i].off)
    ensures ss[i].free ==> forall k :: 0 <= k < |Busy(ss)| ==> Busy(ss)[k].off != ss[i].off
  {
    CutTiles(ss, i, i + 1, 0, size);
    assert ss[i..i + 1] == [ss[i]];
    BusyBounds(ss[..i], 0, ss[i].off);
    BusyBounds(ss[i + 1..], ss[i].off + ss[i].size, size);
    if ss[i].free { CarveBusy(ss, i, 0, false); }
  }

  lemma {:induction false} InsertPosition(t: seq<Range>, r: Range, k: int, m: int, t': seq<Range>)
    requires InsertedAt(t, r, k, t') && 0 <= m <= |t|
    requires forall j :: 0 <= j < |t| ==> if j < m then t[j].off < r.off else r.off < t[j].off
    ensures k == m
  {
    assert 0 <= k < |t| ==> t[k] == t[k];
    assert 0 <= m < |t| ==> t[m] == t[m];
  }

  lemma {:induction false} BusyInsert(ss: seq<Slice>, i: nat, n: nat, accounted: bool, size: nat, t': seq<Range>)
    requires Layout(ss, size) && i < |ss| && ss[i].free && n <= ss[i].size
    requires exists k :: InsertedAt(Busy(ss), Range(ss[i].off, n), k, t')
    ensures t' == Busy(Carve(ss, i, n, accounted))
  {
    var r := Range(ss[i].off, n);
    var k :| InsertedAt(Busy(ss), r, k, t');
    CarveBusy(ss, i, n, accounted);
    BusySplit(ss, i, size);
    var a, b := Busy(ss[..i]), Busy(ss[i + 1..]);
    forall j | 0 <= j < |a| + |b| ensures if j < |a| then Busy(ss)[j].off < r.off else r.off < Busy(ss)[j].off {
      assert Busy(ss)[j] == if j < |a| then a[j] else b[j - |a|];
    }
    InsertPosition(Busy(ss), r, k, |a|, t');
    assert (a + b)[..k] == a && (a + b)[k..] == b;
  }

  /** The nodes of the free tree are exactly the free slices. */
  lemma {:induction false} FreeNodes(ss: seq<Slice>, t: seq<Range>)
    requires multiset(t) == FreeBag(ss)
    ensures forall k ::
      0 <= k < |t| ==> exists i :: 0 <= i < |ss| && ss[i].free && ss[i].off == t[k].off && ss[i].size == t[k].size
    ensures forall i :: 0 <= i < |ss| && ss[i].free ==> Range(ss[i].off, ss[i].size) in t
  {
    forall k | 0 <= k < |t|
      ensures exists i :: 0 <= i < |ss| && ss[i].free && ss[i].off == t[k].off && ss[i].size == t[k].size
    {
      assert t[k] in multiset(t);
      BagToSlice(ss, t[k]);
    }
    forall i | 0 <= i < |ss| && ss[i].free ensures Range(ss[i].off, ss[i].size) in t {
      SliceToBag(ss, i);
      assert Range(ss[i].off, ss[i].size) in multiset(t);
    }
  }

  lemma {:induction false} BagToSlice(ss: seq<Slice>, r: Range)
    requires r in FreeBag(ss)
    ensures exists i :: 0 <= i < |ss| && ss[i].free && ss[i].off == r.off && ss[i].size == r.size
    decreases |ss|
  {
    if ss[0].free && Range(ss[0].off, ss[0].size) == r {
    } else {
      BagToSlice(ss[1..], r);
      var i :| 0 <= i < |ss[1..]| && ss[1..][i].free && ss[1..][i].off == r.off && ss[1..][i].size == r.size;
      assert ss[i + 1] == ss[1..][i];
    }
  }

  lemma {:induction false} SliceToBag(ss: seq<Slice>, i: nat)
    requires i < |ss| && ss[i].free
    ensures Range(ss[i].off, ss[i].size) in FreeBag(ss)
    decreases |ss|
  {
    if i > 0 {
      SliceToBag(ss[1..], i - 1);
    }
  }
}
