/**
 From the items of a sent message to the slice of its receiver: two scans collect the payload,
 and the queue entry lays it out behind header, items, file descriptors and metadata.
 */
module Message {
  import opened Common
  import opened Items

  const MAX_ITEMS := 128
  const MAX_MEMFD_ITEMS := 16
  const MAX_PAYLOAD_VEC_SIZE := 0x20_0000
  const MAX_FDS := 16
  const MAX_NAME := 256          // with its terminating zero

  const PAYLOAD_OFF := 3
  const PAYLOAD_MEMFD := 4
  const DST_NAME := 10

  /** The memory a vector points at. */
  datatype Source = NoPointer | Readable(bytes: seq<byte>) | Unreadable

  /** What a memfd item's file descriptor turns out to be. */
  datatype File = Negative | NotOpen | NoSeals | Unsealed | TooShort | Sealed

  /** The first thing wrong with an array of descriptors: no memory for it, one not open, one that may not be passed. */
  datatype Descriptors = Usable | NoRoom | NotOpenFd | Forbidden

  /** The size of a bloom filter compared with that of the bus. */
  datatype FilterSize = Matching | Unaligned | Mismatched

  /** Message items, with the verdicts of the checks on files, names and filters. */
  datatype MsgItem =
    | Vec(src: Source, size: nat)
    | Memfd(start: nat, size: nat, file: File)
    | Fds(count: nat, state: Descriptors)
    | DstName(name: seq<byte>, valid: bool, oom: bool)
    | Filter(fit: FilterSize)
    | Unknown

  /** struct kdbus_msg_data: a vector at an offset of the payload, or nowhere, or a memfd. */
  datatype Data = VecData(size: nat, off: Option<nat>) | MemfdData(size: nat, start: nat)

  datatype Ret =
    | Done | E2BIG | EMSGSIZE | EFAULT | EBADF | EEXIST | ENOTUNIQ | EMFILE | EINVAL | EDOM | EMEDIUMTYPE | ETXTBSY
    | EOPNOTSUPP | ENOMEM | EDESTADDRREQ | EBADMSG

  ghost predicate WellFormed(it: MsgItem) {
    match it
    case Vec(src, size) => size < TWO_64 && (src.Readable? ==> |src.bytes| == size)
    case Memfd(start, size, _) => start < TWO_64 && size < TWO_64
    case DstName(name, valid, _) => valid ==> |name| <= MAX_NAME
    case _ => true
  }

  // ---------------------------------------------------------------- what the scans are to find

  /** The bytes an item contributes to the payload: its own, or padding that keeps the alignment. */
  function Chunk(it: MsgItem): seq<byte> {
    match it
    case Vec(src, size) => if src.Readable? then src.bytes else Zeros(size % 8)
    case Memfd(_, size, _) => Zeros(size % 8)
    case _ => []
  }

  ghost function Payload(items: seq<MsgItem>): seq<byte> {
    if items == [] then [] else Payload(items[..|items| - 1]) + Chunk(items[|items| - 1])
  }

  /** The description of an item whose bytes start at `off`. */
  function Describe(it: MsgItem, off: nat): seq<Data> {
    match it
    case Vec(src, size) => [VecData(size, if src.NoPointer? then None else Some(off))]
    case Memfd(start, size, _) => [MemfdData(size, start)]
    case _ => []
  }

  ghost function Described(items: seq<MsgItem>): seq<Data> {
    if items == [] then []
    else Described(items[..|items| - 1]) + Describe(items[|items| - 1], |Payload(items[..|items| - 1])|)
  }

  ghost function Flat(iov: seq<seq<byte>>): seq<byte> {
    if iov == [] then [] else Flat(iov[..|iov| - 1]) + iov[|iov| - 1]
  }

  /** Entries of the two arrays an item needs, as the first scan counts them. */
  function Vecs(it: MsgItem): nat {
    match it
    case Vec(_, _) => 1
    case Memfd(_, size, _) => if size % 8 != 0 then 1 else 0
    case _ => 0
  }

  function Memfds(it: MsgItem): nat {
    if it.Memfd? then 1 else 0
  }

  ghost function SumVecs(items: seq<MsgItem>): nat {
    if items == [] then 0 else SumVecs(items[..|items| - 1]) + Vecs(items[|items| - 1])
  }

  ghost function SumMemfds(items: seq<MsgItem>): nat {
    if items == [] then 0 else SumMemfds(items[..|items| - 1]) + Memfds(items[|items| - 1])
  }

  lemma {:induction false} SumsGrow(items: seq<MsgItem>, i: nat)
    requires i < |items|
    ensures SumVecs(items[..i]) + Vecs(items[i]) <= SumVecs(items)
    ensures SumMemfds(items[..i]) + Memfds(items[i]) <= SumMemfds(items)
    decreases |items| - i
  {
    assert items[..i + 1][..i] == items[..i];
    if i + 1 < |items| {
      SumsGrow(items, i + 1);
    } else {
      assert items[..i + 1] == items;
    }
  }

  /** A description names exactly the bytes of its vector. */
  ghost predicate Names(payload: seq<byte>, d: Data, it: MsgItem) {
    match it
    case Vec(src, size) =>
      d.VecData? && d.size == size &&
      if src.NoPointer? then d.off.None?
      else
        && d.off.Some?
        && (src.Readable? ==>
              && d.off.value + |src.bytes| <= |payload|
              && payload[d.off.value..d.off.value + |src.bytes|] == src.bytes)
    case Memfd(start, size, _) => d == MemfdData(size, start)
    case _ => false
  }

  /** The payload items of a message. */
  ghost function PayloadItems(items: seq<MsgItem>): seq<MsgItem> {
    if items == [] then []
    else
      var before, last := items[..|items| - 1], items[|items| - 1];
      PayloadItems(before) + if last.Vec? || last.Memfd? then [last] else []
  }

  /** Every payload item is described, in order, and every offset names the sender's bytes. */
  lemma {:induction false} DescribedNames(items: seq<MsgItem>)
    ensures var ds, ps := Described(items), PayloadItems(items);
      |ds| == |ps| && forall k :: 0 <= k < |ds| ==> Names(Payload(items), ds[k], ps[k])
    decreases |items|
  {
    if items != [] {
      var before, last := items[..|items| - 1], items[|items| - 1];
      DescribedNames(before);
      var p, p0, ds, ps := Payload(items), Payload(before), Described(before), PayloadItems(before);
      forall k | 0 <= k < |ds| ensures Names(p, ds[k], ps[k]) {
        assert Names(p0, ds[k], ps[k]);
        StillNames(p0, Chunk(last), ds[k], ps[k]);
      }
      LastNames(p0, last);
    }
  }

  lemma {:induction false} LastNames(p: seq<byte>, it: MsgItem)
    ensures var ds := Describe(it, |p|);
      |ds| == (if it.Vec? || it.Memfd? then 1 else 0) && forall d :: d in ds ==> Names(p + Chunk(it), d, it)
  {
    if it.Vec? && it.src.Readable? {
      assert (p + it.src.bytes)[|p|..|p| + |it.src.bytes|] == it.src.bytes;
    }
  }

  lemma {:induction false} StillNames(p: seq<byte>, more: seq<byte>, d: Data, it: MsgItem)
    requires Names(p, d, it)
    ensures Names(p + more, d, it)
  {
    if it.Vec? && it.src.Readable? {
      var o, n := d.off.value, |it.src.bytes|;
      assert (p + more)[o..o + n] == p[o..o + n];
    }
  }

  /** The size of everything the sender names, in vectors and memfds. */
  ghost function NamedBytes(items: seq<MsgItem>): nat {
    if items == [] then 0
    else
      var before, last := items[..|items| - 1], items[|items| - 1];
      NamedBytes(before) + if last.Vec? || last.Memfd? then last.size else 0
  }

  /** Each piece lies in the slice at the alignment it would have if all pieces before it were there. */
  lemma {:induction false} AlignmentKept(items: seq<MsgItem>)
    requires forall it :: it in items ==> WellFormed(it) && (it.Vec? ==> !it.src.Unreadable?)
    ensures |Payload(items)| % 8 == NamedBytes(items) % 8
    decreases |items|
  {
    if items != [] {
      var before, last := items[..|items| - 1], items[|items| - 1];
      assert last in items;
      AlignmentKept(before);
      SameRemainder(|Payload(before)|, NamedBytes(before), |Chunk(last)|, NamedBytes(items) - NamedBytes(before));
    }
  }

  lemma SameRemainder(a: nat, b: nat, x: nat, y: nat)
    requires a % 8 == b % 8 && x % 8 == y % 8
    ensures (a + x) % 8 == (b + y) % 8
  {
    RemainderOfSum(a, x);
    RemainderOfSum(b, y);
  }

  lemma RemainderOfSum(a: nat, x: nat)
    ensures (a + x) % 8 == if a % 8 + x % 8 < 8 then a % 8 + x % 8 else a % 8 + x % 8 - 8
  {
    var r := if a % 8 + x % 8 < 8 then a % 8 + x % 8 else a % 8 + x % 8 - 8;
    var q := a / 8 + x / 8 + if a % 8 + x % 8 < 8 then 0 else 1;
    assert a + x == 8 * q + r;
    assert (a + x) / 8 == q;
  }

  // ---------------------------------------------------------------- the scans

  /** The first scan of kdbus_msg_scan_items. */
  method Count(items: seq<MsgItem>) returns (nVecs: nat, nMemfds: nat)
    ensures nVecs == SumVecs(items) && nMemfds == SumMemfds(items)
  {
    nVecs, nMemfds := 0, 0;
    var i := 0;
    while i < |items|
      invariant 0 <= i <= |items| && nVecs == SumVecs(items[..i]) && nMemfds == SumMemfds(items[..i])
    {
      assert items[..i + 1][..i] == items[..i];
      match items[i] {
        case Vec(_, _) => nVecs := nVecs + 1;
        case Memfd(_, size, _) =>
          nMemfds := nMemfds + 1;
          if size % 8 != 0 {
            nVecs := nVecs + 1;
          }
        case _ =>
      }
      i := i + 1;
    }
    assert items[..i] == items;
  }

  ghost function NumVec(items: seq<MsgItem>): nat {
    if items == [] then 0 else NumVec(items[..|items| - 1]) + if items[|items| - 1].Vec? then 1 else 0
  }

  lemma {:induction false} DescribedCount(items: seq<MsgItem>)
    ensures |Described(items)| == NumVec(items) + SumMemfds(items) && NumVec(items) <= SumVecs(items)
    decreases |items|
  {
    if items != [] {
      DescribedCount(items[..|items| - 1]);
    }
  }

  /** What one more item adds. */
  lemma {:induction false} AddedItem(items: seq<MsgItem>, it: MsgItem)
    ensures var more := items + [it];
      && Payload(more) == Payload(items) + Chunk(it)
      && Described(more) == Described(items) + Describe(it, |Payload(items)|)
      && SumVecs(more) == SumVecs(items) + Vecs(it) && SumMemfds(more) == SumMemfds(items) + Memfds(it)
      && NumVec(more) == NumVec(items) + if it.Vec? then 1 else 0
  {
    assert (items + [it])[..|items|] == items;
  }

  lemma {:induction false} FlatMore(iov: seq<seq<byte>>, bs: seq<byte>)
    ensures Flat(iov + [bs]) == Flat(iov) + bs
  {
    assert (iov + [bs])[..|iov|] == iov;
  }

  /** The parts of struct kdbus_kmsg and its resources that the second scan fills. */
  class Kmsg {
    const data: array<Data>
    const iov: array<seq<byte>>
    var dataCount: nat
    var vecCount: nat
    var memfdCount: nat
    var iovCount: nat
    var poolSize: nat

    /** The arrays hold what the items seen so far amount to. */
    ghost predicate Holds(done: seq<MsgItem>)
      reads this, data, iov
    {
      (&& dataCount == |Described(done)| <= data.Length && iovCount == SumVecs(done) <= iov.Length
       && data[..dataCount] == Described(done) && Flat(iov[..iovCount]) == Payload(done)
       && poolSize == |Payload(done)| && vecCount == NumVec(done) && memfdCount == SumMemfds(done)) == true
    }

    /** There is room for one more item. */
    ghost predicate Room(it: MsgItem)
      reads this
    {
      dataCount + (if it.Vec? || it.Memfd? then 1 else 0) <= data.Length && iovCount + Vecs(it) <= iov.Length
    }

    constructor (nVecs: nat, nMemfds: nat)
      ensures Holds([]) && data.Length == nVecs + nMemfds && iov.Length == nVecs && fresh(data) && fresh(iov)
    {
      data := new Data[nVecs + nMemfds](_ => VecData(0, None));
      iov := new seq<byte>[nVecs](_ => []);
      dataCount, vecCount, memfdCount, iovCount, poolSize := 0, 0, 0, 0, 0;
    }

    method PushData(d: Data)
      requires dataCount < data.Length
      modifies this`dataCount, data
      ensures dataCount == old(dataCount) + 1 && data[..dataCount] == old(data[..dataCount]) + [d]
    {
      data[dataCount] := d;
      dataCount := dataCount + 1;
      assert data[..dataCount] == old(data[..dataCount]) + [d];
    }

    method PushIov(bs: seq<byte>)
      requires iovCount < iov.Length
      modifies this`iovCount, this`poolSize, iov
      ensures iovCount == old(iovCount) + 1 && poolSize == old(poolSize) + |bs|
      ensures Flat(iov[..iovCount]) == old(Flat(iov[..iovCount])) + bs
    {
      ghost var before := iov[..iovCount];
      iov[iovCount] := bs;
      iovCount, poolSize := iovCount + 1, poolSize + |bs|;
      assert iov[..iovCount] == before + [bs];
      FlatMore(before, bs);
    }

    /** A vector, or the padding that stands for one without memory. */
    method AddVec(it: MsgItem, ghost done: seq<MsgItem>)
      requires Holds(done) && Room(it) && it.Vec? && !it.src.Unreadable?
      modifies this, data, iov
      ensures Holds(done + [it])
    {
      AddedItem(done, it);
      PushData(VecData(it.size, if it.src.NoPointer? then None else Some(poolSize)));
      PushIov(if it.src.Readable? then it.src.bytes else Zeros(it.size % 8));
      vecCount := vecCount + 1;
    }

    method AddMemfd(it: MsgItem, ghost done: seq<MsgItem>)
      requires Holds(done) && Room(it) && it.Memfd?
      modifies this, data, iov
      ensures Holds(done + [it])
    {
      AddedItem(done, it);
      var pad := it.size % 8;
      if pad != 0 {
        PushIov(Zeros(pad));
      } else {
        assert Payload(done) + Zeros(0) == Payload(done);
      }
      PushData(MemfdData(it.size, it.start));
      memfdCount := memfdCount + 1;
    }
  }

  /** The first scan counted an entry for every item the second one meets. */
  lemma {:induction false} RoomFor(k: Kmsg, items: seq<MsgItem>, i: nat)
    requires i < |items| && SizedFor(k, items) && k.Holds(items[..i])
    ensures k.Room(items[i])
  {
    SumsGrow(items, i);
    DescribedCount(items[..i]);
  }

  /** What the second scan keeps besides the arrays. */
  datatype Progress = Progress(vecSize: nat, fds: Option<nat>, name: Option<seq<byte>>, filter: bool)

  /** The bytes of all vectors, with or without memory. */
  ghost function VecBytes(items: seq<MsgItem>): nat {
    if items == [] then 0
    else
      var before, last := items[..|items| - 1], items[|items| - 1];
      VecBytes(before) + if last.Vec? then last.size else 0
  }

  lemma {:induction false} VecBytesMore(items: seq<MsgItem>, it: MsgItem)
    ensures VecBytes(items + [it]) == VecBytes(items) + if it.Vec? then it.size else 0
  {
    assert (items + [it])[..|items|] == items;
  }

  /** The two overflow checks on the sum of the vector sizes are one bound. */
  lemma WrapMeansTooBig(x: nat, y: nat)
    requires x <= MAX_PAYLOAD_VEC_SIZE && y < TWO_64
    ensures Add64(x, y) < x || Add64(x, y) > MAX_PAYLOAD_VEC_SIZE <==> x + y > MAX_PAYLOAD_VEC_SIZE
  {
  }

  /** The second scan refuses the item by itself. */
  ghost predicate Refused(it: MsgItem, p: Progress, memfds: nat, broadcast: bool) {
    match it
    case Vec(src, size) => p.vecSize + size > MAX_PAYLOAD_VEC_SIZE || src.Unreadable?
    case Memfd(start, size, file) => start + size >= TWO_64 || memfds >= MAX_MEMFD_ITEMS || !file.Sealed?
    case Fds(count, state) => p.fds.Some? || broadcast || count > MAX_FDS || !state.Usable?
    case DstName(_, valid, oom) => p.name.Some? || !valid || oom
    case Filter(fit) => p.filter || !fit.Matching?
    case Unknown => true
  }

  /** What an accepted item adds to the progress. */
  function Noted(it: MsgItem, p: Progress): Progress {
    match it
    case Vec(_, size) => p.(vecSize := p.vecSize + size)
    case Fds(count, _) => p.(fds := Some(count))
    case DstName(name, _, _) => p.(name := Some(name))
    case Filter(_) => p.(filter := true)
    case _ => p
  }

  /** The progress after all items, if none of them is refused. */
  ghost function Accepted(items: seq<MsgItem>, broadcast: bool): Option<Progress> {
    if items == [] then Some(Progress(0, None, None, false))
    else
      var before, last := items[..|items| - 1], items[|items| - 1];
      var p := Accepted(before, broadcast);
      if p.None? || Refused(last, p.value, SumMemfds(before), broadcast) then None else Some(Noted(last, p.value))
  }

  // ---------------------------------------------------------------- what is accepted

  /** The item may be part of a message. */
  ghost predicate Proper(it: MsgItem, broadcast: bool) {
    match it
    case Vec(src, _) => !src.Unreadable?
    case Memfd(start, size, file) => file.Sealed? && start + size < 0x1_0000_0000_0000_0000
    case Fds(count, state) => !broadcast && count <= 16 && state.Usable?
    case DstName(_, valid, oom) => valid && !oom
    case Filter(fit) => fit.Matching?
    case Unknown => false
  }

  /** Two items that must not both be there. */
  ghost predicate Rivals(a: MsgItem, b: MsgItem) {
    (a.Fds? && b.Fds?) || (a.DstName? && b.DstName?) || (a.Filter? && b.Filter?)
  }

  /** Proper items, at most 2 MB in vectors, at most 16 memfds, and of other kinds at most one. */
  ghost predicate Admissible(items: seq<MsgItem>, broadcast: bool) {
    AllProper(items, broadcast) && NoRivals(items) && VecBytes(items) <= 0x20_0000 && SumMemfds(items) <= 16
  }

  ghost predicate AllProper(items: seq<MsgItem>, broadcast: bool) {
    forall k :: 0 <= k < |items| ==> Proper(items[k], broadcast)
  }

  ghost predicate NoRivals(items: seq<MsgItem>) {
    forall j, k :: 0 <= j < k < |items| ==> !Rivals(items[j], items[k])
  }

  /** What the scan has noted is what it has seen. */
  ghost predicate Seen(items: seq<MsgItem>, p: Progress) {
    && p.vecSize == VecBytes(items)
    && (forall k :: 0 <= k < |items| && items[k].Fds? ==> p.fds == Some(items[k].count))
    && (forall k :: 0 <= k < |items| && items[k].DstName? ==> p.name == Some(items[k].name))
    && (forall k :: 0 <= k < |items| && items[k].Filter? ==> p.filter)
    && (p.fds.Some? ==> exists k :: 0 <= k < |items| && items[k].Fds?)
    && (p.name.Some? ==> exists k :: 0 <= k < |items| && items[k].DstName?)
    && (p.filter ==> exists k :: 0 <= k < |items| && items[k].Filter?)
  }

  lemma {:induction false} SeenMore(items: seq<MsgItem>, it: MsgItem, p: Progress)
    requires Seen(items, p) && (it.Fds? ==> p.fds.None?) && (it.DstName? ==> p.name.None?)
    ensures Seen(items + [it], Noted(it, p))
  {
    var more := items + [it];
    VecBytesMore(items, it);
    assert more[|items|] == it && forall k :: 0 <= k < |items| ==> more[k] == items[k];
  }

  ghost predicate HasRival(items: seq<MsgItem>, it: MsgItem) {
    exists k :: 0 <= k < |items| && Rivals(items[k], it)
  }

  lemma {:induction false} RivalSeen(items: seq<MsgItem>, it: MsgItem, p: Progress)
    requires Seen(items, p)
    ensures HasRival(items, it) <==>
      (it.Fds? && p.fds.Some?) || (it.DstName? && p.name.Some?) || (it.Filter? && p.filter)
  {
    if it.Fds? && p.fds.Some? {
      var k :| 0 <= k < |items| && items[k].Fds?;
      assert Rivals(items[k], it);
    } else if it.DstName? && p.name.Some? {
      var k :| 0 <= k < |items| && items[k].DstName?;
      assert Rivals(items[k], it);
    } else if it.Filter? && p.filter {
      var k :| 0 <= k < |items| && items[k].Filter?;
      assert Rivals(items[k], it);
    }
  }

  lemma {:induction false} AdmissibleWith(items: seq<MsgItem>, it: MsgItem, broadcast: bool)
    ensures Admissible(items + [it], broadcast) <==>
      && Admissible(items, broadcast) && Proper(it, broadcast) && !HasRival(items, it)
      && VecBytes(items) + (if it.Vec? then it.size else 0) <= 0x20_0000
      && SumMemfds(items) + (if it.Memfd? then 1 else 0) <= 16
  {
    VecBytesMore(items, it);
    AddedItem(items, it);
    ProperWith(items, it, broadcast);
    RivalsWith(items, it);
  }

  lemma {:induction false} ProperWith(items: seq<MsgItem>, it: MsgItem, broadcast: bool)
    ensures AllProper(items + [it], broadcast) <==> AllProper(items, broadcast) && Proper(it, broadcast)
  {
    var more := items + [it];
    assert more[|items|] == it && forall k :: 0 <= k < |items| ==> more[k] == items[k];
  }

  lemma {:induction false} RivalsWith(items: seq<MsgItem>, it: MsgItem)
    ensures NoRivals(items + [it]) <==> NoRivals(items) && !HasRival(items, it)
  {
    var more := items + [it];
    assert more[|items|] == it && forall k :: 0 <= k < |items| ==> more[k] == items[k];
  }

  lemma {:induction false} AdmissibleMore(items: seq<MsgItem>, it: MsgItem, p: Progress, broadcast: bool)
    requires Seen(items, p)
    ensures Admissible(items + [it], broadcast) <==>
      Admissible(items, broadcast) && !Refused(it, p, SumMemfds(items), broadcast)
  {
    AdmissibleWith(items, it, broadcast);
    RivalSeen(items, it, p);
  }

  /** The item by item checks accept exactly the admissible messages. */
  lemma {:induction false} AcceptedIff(items: seq<MsgItem>, broadcast: bool)
    ensures Accepted(items, broadcast).Some? <==> Admissible(items, broadcast)
    ensures Accepted(items, broadcast).Some? ==> Seen(items, Accepted(items, broadcast).value)
    decreases |items|
  {
    if items != [] {
      var before, last := items[..|items| - 1], items[|items| - 1];
      AcceptedIff(before, broadcast);
      assert items == before + [last];
      if Accepted(before, broadcast).Some? {
        var p := Accepted(before, broadcast).value;
        AdmissibleMore(before, last, p, broadcast);
        if !Refused(last, p, SumMemfds(before), broadcast) {
          SeenMore(before, last, p);
        }
      } else {
        AdmissibleWith(before, last, broadcast);
      }
    }
  }

  lemma {:induction false} RefusedStays(items: seq<MsgItem>, i: nat, broadcast: bool)
    requires i <= |items| && Accepted(items[..i], broadcast).None?
    ensures Accepted(items, broadcast).None?
    decreases |items| - i
  {
    if i < |items| {
      assert items[..i + 1][..i] == items[..i];
      RefusedStays(items, i + 1, broadcast);
    } else {
      assert items[..i] == items;
    }
  }

  /** What each error code says about an item. */
  ghost predicate Reason(it: MsgItem, p: Progress, memfds: nat, broadcast: bool, ret: Ret) {
    match ret
    case Done => !Refused(it, p, memfds, broadcast)
    case EMSGSIZE =>
      (it.Vec? && p.vecSize + it.size > MAX_PAYLOAD_VEC_SIZE) || (it.Memfd? && it.start + it.size >= TWO_64)
    case EFAULT =>
      || (it.Vec? && it.src.Unreadable? && p.vecSize + it.size <= MAX_PAYLOAD_VEC_SIZE)
      || (it.Filter? && it.fit.Unaligned?)
    case E2BIG => it.Memfd? && memfds >= MAX_MEMFD_ITEMS
    case EMEDIUMTYPE => it.Memfd? && it.file.NoSeals?
    case ETXTBSY => it.Memfd? && it.file.Unsealed?
    case EBADF =>
      || (it.Memfd? && !it.file.Sealed? && !it.file.NoSeals? && !it.file.Unsealed?)
      || (it.Fds? && it.state.NotOpenFd?)
    case EOPNOTSUPP => it.Fds? && it.state.Forbidden?
    case ENOMEM => (it.Fds? && it.state.NoRoom?) || (it.DstName? && it.oom)
    case EEXIST => (it.Fds? && p.fds.Some?) || (it.DstName? && p.name.Some?) || (it.Filter? && p.filter)
    case ENOTUNIQ => it.Fds? && broadcast
    case EMFILE => it.Fds? && it.count > MAX_FDS
    case EINVAL => (it.DstName? && !it.valid) || it.Unknown?
    case EDOM => it.Filter? && it.fit.Mismatched?
    case EDESTADDRREQ => false
    case EBADMSG => false
  }

  /** The checks on one item of the second scan. */
  method CheckItem(it: MsgItem, p: Progress, memfds: nat, broadcast: bool) returns (ret: Ret)
    requires WellFormed(it) && p.vecSize <= MAX_PAYLOAD_VEC_SIZE
    ensures (ret == Done <==> !Refused(it, p, memfds, broadcast)) && Reason(it, p, memfds, broadcast, ret)
  {
    match it {
      case Vec(src, size) =>
        WrapMeansTooBig(p.vecSize, size);
        var sum := Add64(p.vecSize, size);
        if sum < p.vecSize || sum > MAX_PAYLOAD_VEC_SIZE {
          return EMSGSIZE;
        }
        return if src.Unreadable? then EFAULT else Done;
      case Memfd(start, size, file) =>
        if Add64(start, size) < start {
          return EMSGSIZE;
        }
        if file.Negative? {
          return EBADF;
        }
        if memfds >= MAX_MEMFD_ITEMS {
          return E2BIG;
        }
        return match file case Sealed => Done case NoSeals => EMEDIUMTYPE case Unsealed => ETXTBSY case _ => EBADF;
      case Fds(count, state) =>
        if p.fds.Some? {
          return EEXIST;
        }
        if broadcast {
          return ENOTUNIQ;
        }
        if count > MAX_FDS {
          return EMFILE;
        }
        return match state
          case Usable => Done
          case NoRoom => ENOMEM
          case NotOpenFd => EBADF
          case Forbidden => EOPNOTSUPP;
      case DstName(name, valid, oom) =>
        return if p.name.Some? then EEXIST else if !valid then EINVAL else if oom then ENOMEM else Done;
      case Filter(fit) =>
        if p.filter {
          return EEXIST;
        }
        return match fit case Matching => Done case Unaligned => EFAULT case Mismatched => EDOM;
      case Unknown =>
        return EINVAL;
    }
  }

  /** One item of the second scan. */
  method ScanItem(k: Kmsg, it: MsgItem, p: Progress, broadcast: bool, ghost done: seq<MsgItem>)
    returns (ret: Ret, p': Progress)
    requires Scanned(k, done, p, broadcast) && k.Room(it) && WellFormed(it)
    modifies k, k.data, k.iov
    ensures ret == Done <==> !Refused(it, p, SumMemfds(done), broadcast)
    ensures Reason(it, p, SumMemfds(done), broadcast, ret)
    ensures ret == Done ==> p' == Noted(it, p) && Scanned(k, done + [it], p', broadcast)
  {
    p' := p;
    ret := CheckItem(it, p, k.memfdCount, broadcast);
    if ret == Done {
      NotedKeeps(done, it, p, broadcast);
      p' := Noted(it, p);
      AddItem(k, it, done);
    }
  }

  /** Its effect on the arrays. */
  method AddItem(k: Kmsg, it: MsgItem, ghost done: seq<MsgItem>)
    requires k.Holds(done) && k.Room(it) && (it.Vec? ==> !it.src.Unreadable?)
    modifies k, k.data, k.iov
    ensures k.Holds(done + [it])
  {
    match it
    case Vec(_, _) => k.AddVec(it, done);
    case Memfd(_, _, _) => k.AddMemfd(it, done);
    case _ => Skipped(k, it, done);
  }

  lemma {:induction false} NotedKeeps(done: seq<MsgItem>, it: MsgItem, p: Progress, broadcast: bool)
    requires Progressed(done, p, broadcast) && WellFormed(it) && !Refused(it, p, SumMemfds(done), broadcast)
    ensures Progressed(done + [it], Noted(it, p), broadcast)
  {
    VecBytesMore(done, it);
    assert (done + [it])[..|done|] == done;
    ReadableMore(done, it);
  }

  lemma {:induction false} ReadableMore(done: seq<MsgItem>, it: MsgItem)
    requires AllReadable(done) && (it.Vec? ==> !it.src.Unreadable?)
    ensures AllReadable(done + [it])
  {
  }

  lemma {:induction false} Skipped(k: Kmsg, it: MsgItem, done: seq<MsgItem>)
    requires k.Holds(done) && !it.Vec? && !it.Memfd?
    ensures k.Holds(done + [it])
  {
    AddedItem(done, it);
    assert Described(done) + [] == Described(done) && Payload(done) + [] == Payload(done);
  }

  /** The second scan, into arrays sized by the first. */
  method Fill(k: Kmsg, items: seq<MsgItem>, start: Progress, broadcast: bool) returns (ret: Ret, p: Progress)
    requires
      && Scanned(k, items[..0], start, broadcast) && SizedFor(k, items) && forall it :: it in items ==> WellFormed(it)
    modifies k, k.data, k.iov
    ensures ret == Done ==> Scanned(k, items, p, broadcast) && |items| <= MAX_ITEMS
    ensures ret != Done ==> Rejected(items, broadcast, ret)
  {
    p := start;
    ret := Done;
    var i := 0;
    while i < |items| && ret == Done
      invariant 0 <= i <= |items| && (ret == Done ==> i <= MAX_ITEMS && Scanned(k, items[..i], p, broadcast))
      invariant ret != Done ==> Rejected(items, broadcast, ret)
      decreases |items| - i, ret == Done
    {
      ret, p := ScanAt(k, items, i, p, broadcast);
      if ret == Done {
        i := i + 1;
      }
    }
    assert i == |items| ==> items[..i] == items;
  }

  method ScanAt(k: Kmsg, items: seq<MsgItem>, i: nat, p: Progress, broadcast: bool) returns (ret: Ret, p': Progress)
    requires i < |items| && i <= MAX_ITEMS && (forall it :: it in items ==> WellFormed(it))
    requires SizedFor(k, items) && Scanned(k, items[..i], p, broadcast)
    modifies k, k.data, k.iov
    ensures ret == Done ==> i + 1 <= MAX_ITEMS && Scanned(k, items[..i + 1], p', broadcast)
    ensures ret != Done ==> Rejected(items, broadcast, ret)
  {
    if i + 1 > MAX_ITEMS {
      return E2BIG, p;
    }
    assert items[i] in items && items[..i + 1] == items[..i] + [items[i]] && items[..i + 1][..i] == items[..i];
    RoomFor(k, items, i);
    ret, p' := ScanItem(k, items[i], p, broadcast, items[..i]);
    if ret != Done {
      RefusedStays(items, i + 1, broadcast);
      assert FirstRefused(items, i, broadcast, ret);
    }
  }

  ghost predicate SizedFor(k: Kmsg, items: seq<MsgItem>) {
    k.data.Length == SumVecs(items) + SumMemfds(items) && k.iov.Length == SumVecs(items)
  }

  ghost predicate Scanned(k: Kmsg, items: seq<MsgItem>, p: Progress, broadcast: bool)
    reads k, k.data, k.iov
  {
    (k.Holds(items) && Progressed(items, p, broadcast)) == true
  }

  ghost predicate Progressed(items: seq<MsgItem>, p: Progress, broadcast: bool) {
    (&& Accepted(items, broadcast) == Some(p) && p.vecSize == VecBytes(items) <= MAX_PAYLOAD_VEC_SIZE
     && (p.fds.Some? ==> p.fds.value <= MAX_FDS) && (p.name.Some? ==> |p.name.value| <= MAX_NAME)
     && AllReadable(items)) == true
  }

  /** The first item that is refused, and the error for it. */
  ghost predicate FirstRefused(items: seq<MsgItem>, i: int, broadcast: bool, ret: Ret) {
    && 0 <= i < |items| && ret != Done && Accepted(items[..i], broadcast).Some?
    && Reason(items[i], Accepted(items[..i], broadcast).value, SumMemfds(items[..i]), broadcast, ret)
  }

  /** Why a message is not accepted: too many items, or the first of them that is refused. */
  ghost predicate Rejected(items: seq<MsgItem>, broadcast: bool, ret: Ret) {
    || (ret == E2BIG && |items| > MAX_ITEMS && Accepted(items[..MAX_ITEMS], broadcast).Some?)
    || exists i :: FirstRefused(items, i, broadcast, ret) && Accepted(items, broadcast).None?
  }

  ghost predicate AllReadable(items: seq<MsgItem>) {
    forall k :: 0 <= k < |items| && items[k].Vec? ==> !items[k].src.Unreadable?
  }

  /** The fields of a message header the scan looks at: its kind, whether it goes to a name, and its timeout. */
  datatype Head = Head(broadcast: bool, signal: bool, toName: bool, timeout: bool)

  /** The items fit the header: who is addressed, and what goes with a broadcast and a signal. */
  ghost predicate Coherent(p: Progress, head: Head) {
    && (head.toName ==> p.name.Some?)
    && (head.broadcast ==> p.name.None? && head.signal && !head.timeout)
    && (head.signal <==> p.filter)
  }

  /** What each error code of the final checks says. */
  ghost predicate Incoherent(p: Progress, head: Head, ret: Ret) {
    match ret
    case EDESTADDRREQ => head.toName && p.name.None?
    case EBADMSG => (head.broadcast && (p.name.Some? || !head.signal)) || (head.signal <==> !p.filter)
    case ENOTUNIQ => head.broadcast && head.timeout
    case _ => false
  }

  /** The checks after the last item. */
  method CheckHead(p: Progress, head: Head) returns (ret: Ret)
    ensures (ret == Done <==> Coherent(p, head)) && (ret != Done ==> Incoherent(p, head, ret))
  {
    if head.toName && p.name.None? {
      return EDESTADDRREQ;
    }
    if head.broadcast {
      if p.name.Some? || !head.signal {
        return EBADMSG;
      }
      if head.timeout {
        return ENOTUNIQ;
      }
    }
    return if head.signal != p.filter then EBADMSG else Done;
  }

  /** A message passes the scan. */
  ghost predicate Passes(items: seq<MsgItem>, head: Head) {
    && |items| <= MAX_ITEMS && Accepted(items, head.broadcast).Some?
    && Coherent(Accepted(items, head.broadcast).value, head)
  }

  ghost predicate HasName(items: seq<MsgItem>) {
    exists k :: 0 <= k < |items| && items[k].DstName?
  }

  ghost predicate HasFilter(items: seq<MsgItem>) {
    exists k :: 0 <= k < |items| && items[k].Filter?
  }

  /**
   At most 128 admissible items; a name if the message goes to one, and none in a broadcast, which is a signal
   without a timeout; a filter in signals and in nothing else.
   */
  lemma {:induction false} PassesIff(items: seq<MsgItem>, head: Head)
    ensures Passes(items, head) <==>
      && |items| <= 128 && Admissible(items, head.broadcast)
      && (head.toName ==> HasName(items))
      && (head.broadcast ==> !HasName(items) && head.signal && !head.timeout)
      && (head.signal <==> HasFilter(items))
  {
    AcceptedIff(items, head.broadcast);
  }

  /** Why it does not: no memory for the arrays, an item, or what the items amount to. */
  ghost predicate Fails(items: seq<MsgItem>, head: Head, oom: bool, ret: Ret) {
    || (ret == ENOMEM && oom && SumVecs(items) + SumMemfds(items) > 0)
    || Rejected(items, head.broadcast, ret)
    || (Accepted(items, head.broadcast).Some? && Incoherent(Accepted(items, head.broadcast).value, head, ret))
  }

  /**
   kdbus_msg_scan_items: the arrays sized by the first scan are never exceeded by the second, and
   hold the payload and its description. `oom` is the outcome of allocating them.
   */
  method Scan(items: seq<MsgItem>, head: Head, oom: bool) returns (ret: Ret, k: Kmsg, p: Progress)
    requires forall it :: it in items ==> WellFormed(it)
    ensures fresh(k) && fresh(k.data) && fresh(k.iov)
    ensures ret == Done <==> Passes(items, head) && !(oom && SumVecs(items) + SumMemfds(items) > 0)
    ensures if ret == Done then Scanned(k, items, p, head.broadcast) else Fails(items, head, oom, ret)
    ensures ret == Done ==> Admissible(items, head.broadcast) && Seen(items, p)
  {
    var nVecs, nMemfds := Count(items);
    p := Progress(0, None, None, false);
    k := new Kmsg(nVecs, nMemfds);
    if oom && nVecs + nMemfds > 0 {
      return ENOMEM, k, p;
    }
    assert items[..0] == [];
    ret, p := Fill(k, items, p, head.broadcast);
    if ret == Done {
      AcceptedIff(items, head.broadcast);
      ret := CheckHead(p, head);
    }
  }

  // ---------------------------------------------------------------- the slice of a queue entry

  const VEC_SIZE := 16
  const MEMFD_SIZE := 24
  const NOWHERE := TWO_64 - 1

  /** KDBUS_ITEM_SIZE. */
  function ItemSize(len: nat): nat {
    Align8(HEADER + len)
  }

  /** The item a receiver gets for a piece of payload, whose bytes start at `payloadOff` of the slice. */
  function RecordOf(d: Data, payloadOff: nat): Record {
    match d
    case VecData(size, off) =>
      Record(PAYLOAD_OFF, Encode(size, 8) + Encode(if off.Some? then off.value + payloadOff else NOWHERE, 8))
    case MemfdData(_, _) => Record(PAYLOAD_MEMFD, Zeros(MEMFD_SIZE))
  }

  function Records(ds: seq<Data>, payloadOff: nat): seq<Record> {
    seq(|ds|, i requires 0 <= i < |ds| => RecordOf(ds[i], payloadOff))
  }

  function NameRecord(name: Option<seq<byte>>): seq<Record> {
    if name.Some? then [Record(DST_NAME, name.value)] else []
  }

  ghost function VecsIn(ds: seq<Data>): nat {
    if ds == [] then 0 else VecsIn(ds[..|ds| - 1]) + if ds[|ds| - 1].VecData? then 1 else 0
  }

  ghost function MemfdsIn(ds: seq<Data>): nat {
    if ds == [] then 0 else MemfdsIn(ds[..|ds| - 1]) + if ds[|ds| - 1].MemfdData? then 1 else 0
  }

  /** The counters of the scan tell the pieces by kind. */
  lemma {:induction false} KindsCounted(items: seq<MsgItem>)
    ensures VecsIn(Described(items)) == NumVec(items) && MemfdsIn(Described(items)) == SumMemfds(items)
    decreases |items|
  {
    if items != [] {
      var before, last := items[..|items| - 1], items[|items| - 1];
      KindsCounted(before);
      var ds := Described(before);
      if last.Vec? || last.Memfd? {
        assert Described(items)[..|ds|] == ds;
      } else {
        assert Described(items) == ds;
      }
    }
  }

  lemma {:induction false} AllWrittenConcat(a: seq<Record>, b: seq<Record>)
    ensures AllWritten(a + b) == AllWritten(a) + AllWritten(b)
    decreases |a|
  {
    if a == [] {
      assert a + b == b;
    } else {
      assert (a + b)[1..] == a[1..] + b;
      AllWrittenConcat(a[1..], b);
    }
  }

  /** The space reserved by counting is the space the items take. */
  lemma {:induction false} RecordsSize(ds: seq<Data>, payloadOff: nat)
    ensures |AllWritten(Records(ds, payloadOff))| ==
      VecsIn(ds) * ItemSize(VEC_SIZE) + MemfdsIn(ds) * ItemSize(MEMFD_SIZE)
    decreases |ds|
  {
    if ds != [] {
      var before, last := ds[..|ds| - 1], ds[|ds| - 1];
      RecordsSize(before, payloadOff);
      RecordsMore(ds, payloadOff);
      AllWrittenConcat(Records(before, payloadOff), [RecordOf(last, payloadOff)]);
      RecordSize(last, payloadOff);
      OneMoreSize(VecsIn(before), MemfdsIn(before), last.VecData?);
    }
  }

  lemma {:induction false} RecordsMore(ds: seq<Data>, payloadOff: nat)
    requires ds != []
    ensures Records(ds, payloadOff) == Records(ds[..|ds| - 1], payloadOff) + [RecordOf(ds[|ds| - 1], payloadOff)]
  {
  }

  lemma {:induction false} RecordSize(d: Data, payloadOff: nat)
    ensures |AllWritten([RecordOf(d, payloadOff)])| == if d.VecData? then ItemSize(VEC_SIZE) else ItemSize(MEMFD_SIZE)
  {
    assert [RecordOf(d, payloadOff)][1..] == [];
  }

  lemma OneMoreSize(vecs: nat, memfds: nat, vec: bool)
    ensures
      vecs * ItemSize(VEC_SIZE) + memfds * ItemSize(MEMFD_SIZE)
        + (if vec then ItemSize(VEC_SIZE) else ItemSize(MEMFD_SIZE)) ==
      (vecs + if vec then 1 else 0) * ItemSize(VEC_SIZE) + (memfds + if vec then 0 else 1) * ItemSize(MEMFD_SIZE)
  {
    SizesAre();
  }

  lemma SizesAre()
    ensures ItemSize(VEC_SIZE) == 32 && ItemSize(MEMFD_SIZE) == 40
  {
  }

  /** Where the parts of a message lie in its slice. */
  datatype Layout = Layout(msgSize: nat, fdsOffset: nat, metaOffset: nat, payloadOff: nat, size: nat)

  function NameSize(name: Option<seq<byte>>): nat {
    if name.Some? then ItemSize(|name.value|) else 0
  }

  function FdsSize(fds: nat): nat {
    if fds > 0 then ItemSize(4 * fds) else 0
  }

  /** The sizes kdbus_queue_entry_new adds up before it allocates the slice. */
  function LayoutOf(
    msgSize: nat, vecs: nat, memfds: nat, fds: nat, name: Option<seq<byte>>, metaSize: nat, poolSize: nat): Layout {
    var meta := msgSize + vecs * ItemSize(VEC_SIZE) + memfds * ItemSize(MEMFD_SIZE) + FdsSize(fds) + NameSize(name);
    Layout(msgSize, meta - FdsSize(fds), meta, meta + metaSize, Align8(meta + metaSize + poolSize))
  }

  /** All items of the message, as written behind the header. */
  ghost function ItemBytes(ds: seq<Data>, name: Option<seq<byte>>, payloadOff: nat): seq<byte> {
    AllWritten(NameRecord(name) + Records(ds, payloadOff))
  }

  lemma {:induction false} ItemBytesSize(ds: seq<Data>, name: Option<seq<byte>>, payloadOff: nat)
    ensures |ItemBytes(ds, name, payloadOff)| ==
      NameSize(name) + VecsIn(ds) * ItemSize(VEC_SIZE) + MemfdsIn(ds) * ItemSize(MEMFD_SIZE)
  {
    RecordsSize(ds, payloadOff);
    AllWrittenConcat(NameRecord(name), Records(ds, payloadOff));
    if name.Some? {
      assert NameRecord(name)[1..] == [];
    }
  }

  /**
   Header, items, file descriptors, metadata and payload follow each other without overlap, from
   the start of the slice to its end.
   */
  lemma {:induction false} LayoutDisjoint(
    ds: seq<Data>, msgSize: nat, fds: nat, name: Option<seq<byte>>, metaSize: nat, poolSize: nat)
    ensures var l := LayoutOf(msgSize, VecsIn(ds), MemfdsIn(ds), fds, name, metaSize, poolSize);
      && l.fdsOffset == msgSize + |ItemBytes(ds, name, l.payloadOff)|
      && l.metaOffset == l.fdsOffset + FdsSize(fds) && l.payloadOff == l.metaOffset + metaSize
      && l.payloadOff + poolSize <= l.size < l.payloadOff + poolSize + 8
      && (if fds == 0 then l.metaOffset == l.fdsOffset
          else 16 + 4 * fds <= l.metaOffset - l.fdsOffset < 16 + 4 * fds + 8)
  {
    var l := LayoutOf(msgSize, VecsIn(ds), MemfdsIn(ds), fds, name, metaSize, poolSize);
    ItemBytesSize(ds, name, l.payloadOff);
  }

  lemma {:induction false} RecordsFit(ds: seq<Data>, name: Option<seq<byte>>, payloadOff: nat)
    requires name.Some? ==> HEADER + |name.value| < TWO_64
    ensures forall r :: r in NameRecord(name) + Records(ds, payloadOff) ==> Items.Fits(r)
  {
    var rs := Records(ds, payloadOff);
    forall r | r in NameRecord(name) + rs ensures Items.Fits(r) {
      if r in rs {
        var i :| 0 <= i < |ds| && rs[i] == r;
        assert r == RecordOf(ds[i], payloadOff);
      }
    }
  }

  /** Three parts are copied to their places in a new slice. */
  method CopyParts(header: seq<byte>, items: seq<byte>, payloadOff: nat, payload: seq<byte>, size: nat)
    returns (slice: array<byte>)
    requires |header| + |items| <= payloadOff && payloadOff + |payload| <= size
    ensures fresh(slice) && slice.Length == size
    ensures
      && slice[..|header|] == header && slice[|header|..|header| + |items|] == items
      && slice[payloadOff..payloadOff + |payload|] == payload
  {
    slice := new byte[size](_ => 0);
    Put(slice, 0, header);
    Put(slice, |header|, items);
    ghost var before := slice[..];
    Put(slice, payloadOff, payload);
    PartsKept(before, slice[..], header, items, payloadOff, payload);
  }

  lemma {:induction false} PartsKept(
    before: seq<byte>, after: seq<byte>, header: seq<byte>, items: seq<byte>, payloadOff: nat, payload: seq<byte>)
    requires |header| + |items| <= payloadOff && payloadOff + |payload| <= |before| == |after|
    requires
      && before[..|header| + |items|] == header + items
      && after[..payloadOff + |payload|] == before[..payloadOff] + payload
    ensures
      && after[..|header|] == header && after[|header|..|header| + |items|] == items
      && after[payloadOff..payloadOff + |payload|] == payload
  {
    var x, n := before[..payloadOff] + payload, payloadOff + |payload|;
    forall k | 0 <= k < |header| ensures after[..|header|][k] == header[k] {
      assert after[k] == x[k] == before[k] == before[..|header| + |items|][k] == header[k];
    }
    var y := after[|header|..|header| + |items|];
    forall k | 0 <= k < |items| ensures y[k] == items[k] {
      var m := |header| + k;
      assert y[k] == after[m] == x[m] == before[m] == before[..|header| + |items|][m] == items[k];
    }
    var z := after[payloadOff..n];
    forall k | 0 <= k < |payload| ensures z[k] == payload[k] {
      assert z[k] == after[..n][payloadOff + k] == x[payloadOff + k];
    }
  }

  /** The copies of kdbus_queue_entry_new into the slice it allocated. */
  method Build(
    header: seq<byte>, ds: seq<Data>, fds: nat, name: Option<seq<byte>>, metaSize: nat, payload: seq<byte>, vecs: nat,
    memfds: nat)
    returns (slice: array<byte>, l: Layout)
    requires vecs == VecsIn(ds) && memfds == MemfdsIn(ds)
    requires name.Some? ==> HEADER + |name.value| < TWO_64
    ensures fresh(slice) && l == LayoutOf(|header|, vecs, memfds, fds, name, metaSize, |payload|)
    ensures Built(slice[..], header, ItemBytes(ds, name, l.payloadOff), payload, l)
  {
    l := LayoutOf(|header|, vecs, memfds, fds, name, metaSize, |payload|);
    LayoutDisjoint(ds, |header|, fds, name, metaSize, |payload|);
    RecordsFit(ds, name, l.payloadOff);
    slice := WriteSlice(header, NameRecord(name) + Records(ds, l.payloadOff), payload, l);
  }

  method WriteSlice(header: seq<byte>, rs: seq<Record>, payload: seq<byte>, l: Layout) returns (slice: array<byte>)
    requires |header| + |AllWritten(rs)| == l.fdsOffset <= l.payloadOff && l.payloadOff + |payload| <= l.size
    requires forall r :: r in rs ==> Items.Fits(r)
    ensures fresh(slice) && Built(slice[..], header, AllWritten(rs), payload, l)
  {
    var items := WriteItems(rs);
    slice := CopyParts(header, items[..], l.payloadOff, payload, l.size);
  }

  /** Header, items and payload are where the layout says. */
  ghost predicate Built(slice: seq<byte>, header: seq<byte>, items: seq<byte>, payload: seq<byte>, l: Layout) {
    (&& |slice| == l.size && |header| <= l.fdsOffset <= l.size && l.payloadOff + |payload| <= l.size
     && slice[..|header|] == header && slice[|header|..l.fdsOffset] == items
     && slice[l.payloadOff..l.payloadOff + |payload|] == payload) == true
  }

  // ---------------------------------------------------------------- end to end

  /** What the receiver reads from the item of one piece of payload. */
  ghost predicate Delivered(slice: seq<byte>, r: Record, it: MsgItem) {
    match it
    case Vec(src, size) =>
      && r.kind == PAYLOAD_OFF && |r.payload| == VEC_SIZE && Word(r.payload, 0) == size
      && if src.NoPointer? then Word(r.payload, 8) == NOWHERE
         else src.Readable? ==>
           && Word(r.payload, 8) + size <= |slice|
           && slice[Word(r.payload, 8)..Word(r.payload, 8) + size] == src.bytes
    case Memfd(_, _, _) => r == Record(PAYLOAD_MEMFD, Zeros(MEMFD_SIZE))
    case _ => false
  }

  lemma {:induction false} VecWords(size: nat, off: nat)
    requires size < TWO_64 && off < TWO_64
    ensures var p := Encode(size, 8) + Encode(off, 8); |p| == VEC_SIZE && Word(p, 0) == size && Word(p, 8) == off
  {
    var p := Encode(size, 8) + Encode(off, 8);
    WordBack(size);
    WordBack(off);
    assert p[0..8] == Encode(size, 8) && p[8..16] == Encode(off, 8);
  }

  lemma {:induction false} SubSlice(slice: seq<byte>, at: nat, payload: seq<byte>, o: nat, n: nat)
    requires at + |payload| <= |slice| && slice[at..at + |payload|] == payload && o + n <= |payload|
    ensures slice[at + o..at + o + n] == payload[o..o + n]
  {
    var x, y := slice[at + o..at + o + n], payload[o..o + n];
    forall k | 0 <= k < n ensures x[k] == y[k] {
      assert slice[at..at + |payload|][o + k] == slice[at + o + k];
    }
  }

  lemma {:induction false} VecDelivers(slice: seq<byte>, payload: seq<byte>, payloadOff: nat, size: nat, off: nat)
    requires
      && off + size <= |payload| && payloadOff + |payload| <= |slice| < NOWHERE
      && slice[payloadOff..payloadOff + |payload|] == payload
    ensures var r := RecordOf(VecData(size, Some(off)), payloadOff);
      && |r.payload| == VEC_SIZE && Word(r.payload, 0) == size && Word(r.payload, 8) == off + payloadOff
      && slice[off + payloadOff..off + payloadOff + size] == payload[off..off + size]
  {
    VecWords(size, off + payloadOff);
    SubSlice(slice, payloadOff, payload, off, size);
  }

  /** The item of a piece of payload names exactly the sender's bytes in the slice. */
  lemma {:induction false} RecordDelivers(slice: seq<byte>, payload: seq<byte>, payloadOff: nat, d: Data, it: MsgItem)
    requires WellFormed(it) && Names(payload, d, it) && payloadOff + |payload| <= |slice| < NOWHERE
    requires slice[payloadOff..payloadOff + |payload|] == payload && (it.Vec? ==> !it.src.Unreadable?)
    ensures Delivered(slice, RecordOf(d, payloadOff), it)
  {
    if it.Vec? && it.src.NoPointer? {
      assert d == VecData(it.size, None);
      EmptyDelivers(slice, payloadOff, it.size);
    } else if it.Vec? {
      assert d == VecData(it.size, Some(d.off.value));
      BytesDeliver(slice, payload, payloadOff, it.size, d.off.value, it.src.bytes);
    }
  }

  lemma {:induction false} EmptyDelivers(slice: seq<byte>, payloadOff: nat, size: nat)
    requires size < TWO_64
    ensures Delivered(slice, RecordOf(VecData(size, None), payloadOff), Vec(NoPointer, size))
  {
    VecWords(size, NOWHERE);
  }

  lemma {:induction false} BytesDeliver(
    slice: seq<byte>, payload: seq<byte>, payloadOff: nat, size: nat, off: nat, bytes: seq<byte>)
    requires |bytes| == size && off + size <= |payload| && payload[off..off + size] == bytes
    requires
      payloadOff + |payload| <= |slice| < NOWHERE && slice[payloadOff..payloadOff + |payload|] == payload
    ensures Delivered(slice, RecordOf(VecData(size, Some(off)), payloadOff), Vec(Readable(bytes), size))
  {
    VecDelivers(slice, payload, payloadOff, size, off);
  }

  /** Sizes are far from any overflow. */
  lemma {:induction false} PayloadBound(items: seq<MsgItem>)
    requires forall it :: it in items ==> WellFormed(it)
    ensures |Payload(items)| <= VecBytes(items) + 7 * |items| && NumVec(items) + SumMemfds(items) <= |items|
    decreases |items|
  {
    if items != [] {
      var before, last := items[..|items| - 1], items[|items| - 1];
      PayloadBound(before);
      assert last in items;
    }
  }

  lemma {:induction false} PayloadItemsAre(items: seq<MsgItem>)
    ensures forall it :: it in PayloadItems(items) ==> it in items && (it.Vec? || it.Memfd?)
    decreases |items|
  {
    if items != [] {
      PayloadItemsAre(items[..|items| - 1]);
    }
  }

  /** kdbus_pool_slice_copy_iovec: the vectors one after the other. */
  method Gather(iov: seq<seq<byte>>) returns (bytes: seq<byte>)
    ensures bytes == Flat(iov)
  {
    bytes := [];
    var i := 0;
    while i < |iov|
      invariant 0 <= i <= |iov| && bytes == Flat(iov[..i])
    {
      assert iov[..i + 1][..i] == iov[..i];
      bytes := bytes + iov[i];
      i := i + 1;
    }
    assert iov[..i] == iov;
  }

  /** Every payload item of the sender is delivered: in order, under its size, with its bytes. */
  ghost predicate AllDelivered(slice: seq<byte>, items: seq<MsgItem>, payloadOff: nat) {
    var ds, ps := Described(items), PayloadItems(items);
    |ds| == |ps| && forall k :: 0 <= k < |ds| ==> Delivered(slice, RecordOf(ds[k], payloadOff), ps[k])
  }

  lemma {:induction false} AllAreDelivered(slice: seq<byte>, items: seq<MsgItem>, payloadOff: nat)
    requires (forall it :: it in items ==> WellFormed(it)) && AllReadable(items)
    requires
      && payloadOff + |Payload(items)| <= |slice| < NOWHERE
      && slice[payloadOff..payloadOff + |Payload(items)|] == Payload(items)
    ensures AllDelivered(slice, items, payloadOff)
  {
    var ds, ps, payload := Described(items), PayloadItems(items), Payload(items);
    DescribedNames(items);
    PayloadItemsAre(items);
    forall k | 0 <= k < |ds| ensures Delivered(slice, RecordOf(ds[k], payloadOff), ps[k]) {
      assert Names(payload, ds[k], ps[k]) && ps[k] in ps;
      RecordDelivers(slice, payload, payloadOff, ds[k], ps[k]);
    }
  }

  /**
   A message from its items to the receiver's slice. A reader of the item area finds one item for
   each piece of payload, and every offset in them names exactly the sender's bytes.
   */
  method Send(items: seq<MsgItem>, head: Head, header: seq<byte>, metaSize: nat, oom: bool)
    returns (ret: Ret, slice: array<byte>, l: Layout)
    requires (forall it :: it in items ==> WellFormed(it)) && |header| + metaSize < TWO_64 / 4
    ensures ret == Done <==> Passes(items, head) && !(oom && SumVecs(items) + SumMemfds(items) > 0)
    ensures ret == Done ==> Arrived(slice[..], |header|, l, items, Accepted(items, head.broadcast).value.name)
  {
    var k, p;
    ret, k, p := Scan(items, head, oom);
    slice, l := new byte[0], Layout(0, 0, 0, 0, 0);
    if ret == Done {
      slice, l := Enqueue(k, p, head.broadcast, items, header, metaSize);
    }
  }

  /** The entry of a scanned message. */
  method Enqueue(
    k: Kmsg, p: Progress, ghost broadcast: bool, ghost items: seq<MsgItem>, header: seq<byte>, metaSize: nat)
    returns (slice: array<byte>, l: Layout)
    requires
      && Scanned(k, items, p, broadcast) && |items| <= MAX_ITEMS && (forall it :: it in items ==> WellFormed(it))
      && |header| + metaSize < TWO_64 / 4
    ensures Arrived(slice[..], |header|, l, items, p.name)
  {
    KindsCounted(items);
    var fds := if p.fds.Some? then p.fds.value else 0;
    var payload := Gather(k.iov[..k.iovCount]);
    slice, l := Build(header, k.data[..k.dataCount], fds, p.name, metaSize, payload, k.vecCount, k.memfdCount);
    Placed(slice[..], items, header, fds, p.name, metaSize, l);
  }

  /** All payload is in the slice and described there, and the areas of the slice follow one another. */
  ghost predicate Arrived(slice: seq<byte>, header: nat, l: Layout, items: seq<MsgItem>, name: Option<seq<byte>>) {
    (&& |slice| == l.size && header <= l.fdsOffset <= l.metaOffset <= l.payloadOff <= l.size
     && AllDelivered(slice, items, l.payloadOff)
     && ItemArea(slice, header, l.fdsOffset, Described(items), name, l.payloadOff)) == true
  }

  lemma {:induction false} Placed(
    slice: seq<byte>, items: seq<MsgItem>, header: seq<byte>, fds: nat, name: Option<seq<byte>>, metaSize: nat,
    l: Layout)
    requires
      && (forall it :: it in items ==> WellFormed(it)) && AllReadable(items) && |items| <= MAX_ITEMS
      && VecBytes(items) <= MAX_PAYLOAD_VEC_SIZE
    requires fds <= MAX_FDS && (name.Some? ==> |name.value| <= MAX_NAME) && |header| + metaSize < TWO_64 / 4
    requires l == LayoutOf(|header|, NumVec(items), SumMemfds(items), fds, name, metaSize, |Payload(items)|)
    requires Built(slice, header, ItemBytes(Described(items), name, l.payloadOff), Payload(items), l)
    ensures Arrived(slice, |header|, l, items, name)
  {
    SmallEnough(items, |header|, fds, name, metaSize);
    AllAreDelivered(slice, items, l.payloadOff);
    AreaReadsBack(slice, |header|, l.fdsOffset, Described(items), name, l.payloadOff);
  }

  lemma {:induction false} SmallEnough(
    items: seq<MsgItem>, msgSize: nat, fds: nat, name: Option<seq<byte>>, metaSize: nat)
    requires
      && (forall it :: it in items ==> WellFormed(it)) && |items| <= MAX_ITEMS
      && VecBytes(items) <= MAX_PAYLOAD_VEC_SIZE
    requires fds <= MAX_FDS && (name.Some? ==> |name.value| <= MAX_NAME) && msgSize + metaSize < TWO_64 / 4
    ensures LayoutOf(msgSize, NumVec(items), SumMemfds(items), fds, name, metaSize, |Payload(items)|).size < NOWHERE
  {
    PayloadBound(items);
    SizesAre();
    assert FdsSize(fds) <= 4 * MAX_FDS + 24 && NameSize(name) <= MAX_NAME + 24;
  }

  /** The item area decomposes into the destination name, if any, and one item per piece of payload. */
  ghost predicate ItemArea(
    slice: seq<byte>, lo: nat, hi: nat, ds: seq<Data>, name: Option<seq<byte>>, payloadOff: nat)
  {
    lo <= hi <= |slice| && IsItemArea(slice[lo..hi], NameRecord(name) + Records(ds, payloadOff))
  }

  ghost predicate IsItemArea(area: seq<byte>, rs: seq<Record>) {
    area == AllWritten(rs) && Stream(area, |area|, 0, Laid(rs, 0))
  }

  lemma {:induction false} AreaReadsBack(
    slice: seq<byte>, lo: nat, hi: nat, ds: seq<Data>, name: Option<seq<byte>>, payloadOff: nat)
    requires
      && lo <= hi <= |slice| && slice[lo..hi] == ItemBytes(ds, name, payloadOff)
      && (name.Some? ==> HEADER + |name.value| < TWO_64)
    ensures ItemArea(slice, lo, hi, ds, name, payloadOff)
  {
    RecordsFit(ds, name, payloadOff);
    AreaStream(slice[lo..hi], NameRecord(name) + Records(ds, payloadOff));
  }

  lemma {:induction false} AreaStream(area: seq<byte>, rs: seq<Record>)
    requires area == AllWritten(rs) && forall r :: r in rs ==> Items.Fits(r)
    ensures IsItemArea(area, rs)
  {
    WrittenReadsBack(rs);
  }
}
