/**
 Streams of items: records of a 64-bit size, a 64-bit type and a payload, each padded to 8 bytes.
 Addresses and sizes are 64-bit and their sums wrap. A buffer is the memory from its first byte up
 to its padded end.
 */
module Items {
  import opened Common

  type byte = x: int | 0 <= x < 256

  const HEADER := 16

  /** An item as it lies in a buffer. */
  datatype Item = Item(off: nat, kind: nat, payload: seq<byte>)

  // ---------------------------------------------------------------- little-endian words

  function Encode(n: nat, k: nat): (bs: seq<byte>)
    ensures |bs| == k
  {
    if k == 0 then [] else [n % 256] + Encode(n / 256, k - 1)
  }

  function Decode(bs: seq<byte>): nat {
    if bs == [] then 0 else bs[0] + 256 * Decode(bs[1..])
  }

  ghost function Power(k: nat): nat {
    if k == 0 then 1 else 256 * Power(k - 1)
  }

  lemma {:induction false} DecodeBound(bs: seq<byte>)
    ensures Decode(bs) < Power(|bs|)
    decreases |bs|
  {
    if bs != [] {
      DecodeBound(bs[1..]);
    }
  }

  lemma {:induction false} WordRoundTrip(n: nat, k: nat)
    requires n < Power(k)
    ensures Decode(Encode(n, k)) == n
    decreases k
  {
    if k > 0 {
      WordRoundTrip(n / 256, k - 1);
      assert Encode(n, k)[1..] == Encode(n / 256, k - 1);
    }
  }

  lemma PowerEight()
    ensures Power(8) == TWO_64
  {
    assert Power(4) == 0x1_0000_0000;
  }

  lemma {:induction false} WordBack(n: nat)
    requires n < TWO_64
    ensures Decode(Encode(n, 8)) == n
  {
    PowerEight();
    WordRoundTrip(n, 8);
  }

  /** The word at an offset. */
  function Word(buf: seq<byte>, o: nat): (w: nat)
    requires o + 8 <= |buf|
    ensures w < TWO_64
  {
    DecodeBound(buf[o..o + 8]);
    PowerEight();
    Decode(buf[o..o + 8])
  }

  lemma {:induction false} DecodeStep(bs: seq<byte>)
    requires bs != []
    ensures Decode(bs) == bs[0] + 256 * Decode(bs[1..])
  {
  }

  /** The first byte of a word counts least. */
  lemma {:induction false} WordIs(buf: seq<byte>, o: nat)
    requires o + 8 <= |buf|
    ensures Word(buf, o) ==
      var b := seq(8, k requires 0 <= k < 8 => buf[o + k] as int);
      b[0] + 0x100 * b[1] + 0x1_0000 * b[2] + 0x100_0000 * b[3] + 0x1_0000_0000 * b[4]
      + 0x100_0000_0000 * b[5] + 0x1_0000_0000_0000 * b[6] + 0x100_0000_0000_0000 * b[7]
  {
    var b := buf[o..o + 8];
    DecodeFour(b[4..]);
    assert b[4..][0] == buf[o + 4] && b[4..][1] == buf[o + 5] && b[4..][2] == buf[o + 6] && b[4..][3] == buf[o + 7];
    assert b[4..][4..] == [];
    DecodeFour(b);
  }

  lemma {:induction false} DecodeFour(b: seq<byte>)
    requires |b| >= 4
    ensures Decode(b) == b[0] + 0x100 * b[1] + 0x1_0000 * b[2] + 0x100_0000 * b[3] + 0x1_0000_0000 * Decode(b[4..])
  {
    assert b[1..][1..] == b[2..] && b[2..][1..] == b[3..] && b[3..][1..] == b[4..];
    DecodeStep(b);
    DecodeStep(b[1..]);
    DecodeStep(b[2..]);
    DecodeStep(b[3..]);
  }

  // ---------------------------------------------------------------- streams

  /** At offset o lies an item that ends within s bytes. */
  ghost predicate ItemAt(buf: seq<byte>, s: nat, o: nat, it: Item) {
    && it.off == o && o + HEADER + |it.payload| <= s <= |buf|
    && Word(buf, o) == HEADER + |it.payload| && Word(buf, o + 8) == it.kind
    && buf[o + HEADER..o + HEADER + |it.payload|] == it.payload
  }

  function SizeOf(it: Item): nat {
    Align8(HEADER + |it.payload|)
  }

  /**
   From offset o on, the s bytes are exactly these items, and the padded end of the last is the
   padded end of the buffer.
   */
  ghost predicate Stream(buf: seq<byte>, s: nat, o: nat, items: seq<Item>)
    decreases |items|
  {
    if items == [] then o == Align8(s)
    else ItemAt(buf, s, o, items[0]) && Stream(buf, s, o + SizeOf(items[0]), items[1..])
  }

  /** A buffer decomposes in at most one way. */
  lemma {:induction false} StreamUnique(buf: seq<byte>, s: nat, o: nat, a: seq<Item>, b: seq<Item>)
    requires Stream(buf, s, o, a) && Stream(buf, s, o, b)
    ensures a == b
    decreases |a|
  {
    if a != [] && b != [] {
      assert a[0] == b[0];
      StreamUnique(buf, s, o + SizeOf(a[0]), a[1..], b[1..]);
      assert a == [a[0]] + a[1..] && b == [b[0]] + b[1..];
    }
  }

  function Add64(x: nat, y: nat): nat {
    (x + y) % TWO_64
  }

  /** KDBUS_ITEM_VALID on addresses: the item at `i`, of the given size, in s bytes from `base` on. */
  predicate ValidAt(i: nat, size: nat, base: nat, s: nat) {
    size >= HEADER && Add64(i, size) > i && Add64(i, size) <= Add64(base, s) && i >= base
  }

  /** The comparisons are not fooled by sums that wrap. */
  lemma ValidMeansInside(o: nat, size: nat, base: nat, s: nat)
    requires base + s < TWO_64 && o < s && size < TWO_64
    ensures ValidAt(base + o, size, base, s) <==> HEADER <= size && o + size <= s
  {
  }

  /** Padding an item inside the buffer stays inside the padded buffer. */
  lemma AlignedNext(o: nat, size: nat, s: nat)
    requires o % 8 == 0 && o + size <= s
    ensures o + Align8(size) == Align8(o + size) <= Align8(s) && (o + Align8(size)) % 8 == 0
  {
    var k := o / 8;
    assert o == 8 * k;
    DivShift(k, size + 7);
    DivMonotone(o + size + 7, s + 7);
    DivShift(k, Align8(size));
  }

  lemma DivShift(k: nat, m: nat)
    ensures (8 * k + m) / 8 == k + m / 8 && (8 * k + m) % 8 == m % 8
  {
  }

  lemma DivMonotone(x: nat, y: nat)
    requires x <= y
    ensures x / 8 <= y / 8
  {
  }

  /** The decomposition of a buffer from offset o on, if there is one. */
  ghost function Decomposed(buf: seq<byte>, s: nat, o: nat): Option<seq<Item>>
    requires |buf| == Align8(s) && o % 8 == 0 && o <= |buf|
    decreases |buf| - o
  {
    if o >= s then Some([])
    else
      var size := Word(buf, o);
      if size < HEADER || o + size > s then None
      else
        AlignedNext(o, size, s);
        var rest := Decomposed(buf, s, o + Align8(size));
        if rest.None? then None else Some([Item(o, Word(buf, o + 8), buf[o + HEADER..o + size])] + rest.value)
  }

  /** An aligned offset at or past the end, but not past the padded end, is the padded end. */
  lemma EndIs(o: nat, s: nat)
    requires o % 8 == 0 && o <= Align8(s)
    ensures o >= s <==> o == Align8(s)
  {
  }

  lemma {:induction false} DecomposedIsStream(buf: seq<byte>, s: nat, o: nat, items: seq<Item>)
    requires |buf| == Align8(s) && o % 8 == 0 && o <= |buf|
    ensures Decomposed(buf, s, o) == Some(items) <==> Stream(buf, s, o, items)
    decreases |buf| - o
  {
    EndIs(o, s);
    if items == [] {
      assert Stream(buf, s, o, items) <==> o >= s;
    } else if o < s {
      var size := Word(buf, o);
      if HEADER <= size && o + size <= s {
        AlignedNext(o, size, s);
        DecomposedIsStream(buf, s, o + Align8(size), items[1..]);
        OneMore(buf, s, o, items);
      }
    }
  }

  lemma {:induction false} OneMore(buf: seq<byte>, s: nat, o: nat, items: seq<Item>)
    requires |buf| == Align8(s) && o % 8 == 0 && o < s && items != [] && o + Word(buf, o) <= s && HEADER <= Word(buf, o)
    requires o + Align8(Word(buf, o)) <= |buf| && (o + Align8(Word(buf, o))) % 8 == 0
    requires Decomposed(buf, s, o + Align8(Word(buf, o))) == Some(items[1..]) <==>
      Stream(buf, s, o + Align8(Word(buf, o)), items[1..])
    ensures Decomposed(buf, s, o) == Some(items) <==> Stream(buf, s, o, items)
  {
    var size := Word(buf, o);
    var it := Item(o, Word(buf, o + 8), buf[o + HEADER..o + size]);
    assert items == [items[0]] + items[1..];
    assert ItemAt(buf, s, o, items[0]) <==> items[0] == it by {
      assert |it.payload| == size - HEADER;
    }
    var rest := Decomposed(buf, s, o + Align8(size));
    assert Decomposed(buf, s, o) == if rest.None? then None else Some([it] + rest.value);
  }

  ghost function Prepend(done: seq<Item>, rest: Option<seq<Item>>): Option<seq<Item>> {
    if rest.None? then None else Some(done + rest.value)
  }

  ghost predicate AllPass(items: seq<Item>, check: (nat, seq<byte>) -> bool) {
    forall k :: 0 <= k < |items| ==> check(items[k].kind, items[k].payload)
  }

  /** Within an accepted item the step to the next one does not wrap. */
  lemma Advance(base: nat, o: nat, size: nat, s: nat)
    requires base + Align8(s) < TWO_64 && o % 8 == 0 && o + size <= s && HEADER <= size
    ensures NextOf(base + o, size) == base + o + Align8(size)
    ensures o < o + Align8(size) <= Align8(s) && (o + Align8(size)) % 8 == 0
  {
    AlignedNext(o, size, s);
  }

  lemma AddExact(x: nat, y: nat)
    requires x + y < TWO_64
    ensures Add64(x, y) == x + y
  {
  }

  /** The address one past s bytes. */
  function EndOf(base: nat, s: nat): (end: nat)
    requires base + Align8(s) < TWO_64
    ensures end == base + s
  {
    Add64(base, s)
  }

  /** KDBUS_ITEM_NEXT. */
  function NextOf(i: nat, size: nat): nat {
    Add64(i, Align8(size) % TWO_64)
  }

  function ItemHere(buf: seq<byte>, o: nat): Item
    requires o + 8 <= |buf| && HEADER <= Word(buf, o) && o + Word(buf, o) <= |buf|
  {
    Item(o, Word(buf, o + 8), buf[o + HEADER..o + Word(buf, o)])
  }

  /** The progress of a walk: what is left decomposes as the rest of the whole. */
  ghost predicate Walking(buf: seq<byte>, s: nat, o: nat, done: seq<Item>) {
    && |buf| == Align8(s) && o % 8 == 0 && o <= |buf|
    && Decomposed(buf, s, 0) == Prepend(done, Decomposed(buf, s, o))
  }

  lemma {:induction false} WalkStarts(buf: seq<byte>, s: nat)
    requires |buf| == Align8(s)
    ensures Walking(buf, s, 0, [])
  {
    var all := Decomposed(buf, s, 0);
    assert all.Some? ==> [] + all.value == all.value;
  }

  lemma {:induction false} WalkStep(buf: seq<byte>, s: nat, o: nat, done: seq<Item>)
    requires Walking(buf, s, o, done) && o < s && o + 8 <= |buf| && HEADER <= Word(buf, o) && o + Word(buf, o) <= s
    requires (o + Align8(Word(buf, o))) % 8 == 0 && o + Align8(Word(buf, o)) <= |buf|
    ensures s <= |buf| && Walking(buf, s, o + Align8(Word(buf, o)), done + [ItemHere(buf, o)])
    ensures Decomposed(buf, s, 0).Some? ==>
      |done| < |Decomposed(buf, s, 0).value| && Decomposed(buf, s, 0).value[|done|] == ItemHere(buf, o)
  {
    var it, rest := ItemHere(buf, o), Decomposed(buf, s, o + Align8(Word(buf, o)));
    if rest.Some? {
      assert done + ([it] + rest.value) == done + [it] + rest.value;
    }
  }

  /** Where an item does not fit, the buffer does not decompose; at the end, it does. */
  lemma {:induction false} WalkEnds(buf: seq<byte>, s: nat, o: nat, done: seq<Item>)
    requires Walking(buf, s, o, done)
    ensures o >= s ==> o == Align8(s) && Decomposed(buf, s, 0) == Some(done)
    ensures o < s ==> o + 8 <= |buf| && (Word(buf, o) < HEADER || o + Word(buf, o) > s ==> Decomposed(buf, s, 0).None?)
  {
    EndIs(o, s);
    assert done + [] == done;
  }

  /**
   kdbus_items_validate for s bytes at address `base`; `check` stands for kdbus_item_validate. The
   buffer is accepted exactly when it decomposes into items that pass the check.
   */
  method Validate(buf: seq<byte>, base: nat, s: nat, check: (nat, seq<byte>) -> bool) returns (ok: bool)
    requires |buf| == Align8(s) && base + |buf| < TWO_64
    ensures ok <==> exists items :: Stream(buf, s, 0, items) && AllPass(items, check)
  {
    var i, o, end := base, 0, EndOf(base, s);
    ghost var done: seq<Item> := [];
    WalkStarts(buf, s);
    while i < end && i >= base
      invariant i == base + o && Walking(buf, s, o, done) && AllPass(done, check)
      decreases |buf| - o
    {
      WalkEnds(buf, s, o, done);
      var size := Word(buf, o);
      ValidMeansInside(o, size, base, s);
      if !ValidAt(i, size, base, s) {
        Refused(buf, s, check);
        return false;
      }
      Advance(base, o, size, s);
      WalkStep(buf, s, o, done);
      var it := ItemHere(buf, o);
      if !check(it.kind, it.payload) {
        Refused(buf, s, check);
        return false;
      }
      done := done + [it];
      i := NextOf(i, size);
      o := o + Align8(size);
    }
    WalkEnds(buf, s, o, done);
    DecomposedIsStream(buf, s, 0, done);
    AddExact(base, Align8(s));
    // the loop only ends at the padded end
    return i == Add64(base, Align8(s));
  }

  /** In a buffer that decomposes a walk can always go on. */
  lemma {:induction false} WalkOn(buf: seq<byte>, base: nat, s: nat, o: nat, done: seq<Item>)
    requires Walking(buf, s, o, done) && Decomposed(buf, s, 0).Some? && o < s && base + |buf| < TWO_64
    ensures o + 8 <= |buf| && HEADER <= Word(buf, o) && o + Word(buf, o) <= |buf|
    ensures NextOf(base + o, Word(buf, o)) == base + o + Align8(Word(buf, o)) && o < o + Align8(Word(buf, o)) <= |buf|
    ensures Walking(buf, s, o + Align8(Word(buf, o)), done + [ItemHere(buf, o)])
  {
    WalkEnds(buf, s, o, done);
    Advance(base, o, Word(buf, o), s);
    WalkStep(buf, s, o, done);
  }

  lemma {:induction false} Refused(buf: seq<byte>, s: nat, check: (nat, seq<byte>) -> bool)
    requires |buf| == Align8(s)
    requires var all := Decomposed(buf, s, 0); all.None? || !AllPass(all.value, check)
    ensures forall items :: !(Stream(buf, s, 0, items) && AllPass(items, check))
  {
    forall items ensures !(Stream(buf, s, 0, items) && AllPass(items, check)) {
      DecomposedIsStream(buf, s, 0, items);
    }
  }

  /**
   KDBUS_ITEMS_FOREACH over an accepted buffer, without any further check: it ends, and it visits
   the items the buffer was accepted for.
   */
  method Walk(buf: seq<byte>, base: nat, s: nat, ghost items: seq<Item>) returns (visited: seq<Item>)
    requires |buf| == Align8(s) && base + |buf| < TWO_64 && Stream(buf, s, 0, items)
    ensures visited == items
  {
    DecomposedIsStream(buf, s, 0, items);
    visited := WalkAll(buf, base, s);
  }

  method WalkAll(buf: seq<byte>, base: nat, s: nat) returns (visited: seq<Item>)
    requires |buf| == Align8(s) && base + |buf| < TWO_64 && Decomposed(buf, s, 0).Some?
    ensures Decomposed(buf, s, 0) == Some(visited)
  {
    var i, o, end := base, 0, EndOf(base, s);
    visited := [];
    WalkStarts(buf, s);
    while i < end && i >= base
      invariant i == base + o && Walking(buf, s, o, visited)
      decreases |buf| - o
    {
      WalkOn(buf, base, s, o, visited);
      var size := Word(buf, o);
      visited := visited + [ItemHere(buf, o)];
      i := NextOf(i, size);
      o := o + Align8(size);
    }
    WalkEnds(buf, s, o, visited);
  }

  // ---------------------------------------------------------------- writing items

  /** What a writer asks for. */
  datatype Record = Record(kind: nat, payload: seq<byte>)

  predicate Fits(r: Record) {
    r.kind < TWO_64 && HEADER + |r.payload| < TWO_64
  }

  function Zeros(n: nat): (z: seq<byte>)
    ensures |z| == n
  {
    seq(n, _ => 0)
  }

  lemma AlignHeader(len: nat)
    ensures Align8(HEADER + len) == HEADER + Align8(len)
  {
  }

  lemma SumAligned(x: nat, y: nat)
    requires x % 8 == 0 && y % 8 == 0
    ensures (x + y) % 8 == 0 && Align8(x + y) == x + y
  {
  }

  function Written(r: Record): (bs: seq<byte>)
    ensures |bs| == Align8(HEADER + |r.payload|) && |bs| % 8 == 0
  {
    AlignHeader(|r.payload|);
    Encode(HEADER + |r.payload|, 8) + Encode(r.kind, 8) + r.payload + Zeros(Align8(|r.payload|) - |r.payload|)
  }

  /** An item is its size, with the header, then its type, then its data, and zeros up to the next word. */
  lemma {:induction false} WrittenWords(r: Record)
    requires Fits(r)
    ensures var w, n := Written(r), 16 + |r.payload|;
      && n <= |w| < n + 8 && Word(w, 0) == n && Word(w, 8) == r.kind && w[16..n] == r.payload
      && forall k :: n <= k < |w| ==> w[k] == 0
  {
    var w, n := Written(r), 16 + |r.payload|;
    WordBack(n);
    WordBack(r.kind);
    assert w[0..8] == Encode(n, 8) && w[8..16] == Encode(r.kind, 8) && w[16..n] == r.payload;
  }

  function AllWritten(rs: seq<Record>): seq<byte> {
    if rs == [] then [] else Written(rs[0]) + AllWritten(rs[1..])
  }

  /** The items a reader is to find, from offset o on. */
  ghost function Laid(rs: seq<Record>, o: nat): seq<Item> {
    if rs == [] then [] else [Item(o, rs[0].kind, rs[0].payload)] + Laid(rs[1..], o + |Written(rs[0])|)
  }

  /** memcpy or memset. */
  method Put(a: array<byte>, pos: nat, bs: seq<byte>)
    requires pos + |bs| <= a.Length
    modifies a
    ensures a[..pos + |bs|] == old(a[..pos]) + bs && a[pos + |bs|..] == old(a[pos + |bs|..])
  {
    forall k | 0 <= k < |bs| {
      a[pos + k] := bs[k];
    }
  }

  /** kdbus_item_set; without data the payload is cleared. */
  method ItemSet(a: array<byte>, pos: nat, kind: nat, data: Option<seq<byte>>, len: nat) returns (next: nat)
    requires data.Some? ==> |data.value| == len
    requires kind < TWO_64 && HEADER + len < TWO_64 && pos + Align8(HEADER + len) <= a.Length
    modifies a
    ensures next == pos + Align8(HEADER + len)
    ensures a[..] == Overlay(old(a[..]), pos, Written(Record(kind, if data.Some? then data.value else Zeros(len))))
  {
    var payload := if data.Some? then data.value else Zeros(len);
    AlignHeader(len);
    next := pos + HEADER + Align8(len);
    // type and size, data, padding
    PutItem(a, pos, Encode(HEADER + len, 8) + Encode(kind, 8), payload, Zeros(Align8(len) - len));
  }

  method PutItem(a: array<byte>, pos: nat, head: seq<byte>, payload: seq<byte>, pad: seq<byte>)
    requires pos + |head| + |payload| + |pad| <= a.Length
    modifies a
    ensures a[..] == Overlay(old(a[..]), pos, head + payload + pad)
  {
    ghost var s0 := a[..];
    Put(a, pos, head);
    ghost var s1 := a[..];
    Put(a, pos + |head|, payload);
    ghost var s2 := a[..];
    Put(a, pos + |head| + |payload|, pad);
    Overlaid(s0, s1, pos, head);
    Overlaid(s1, s2, pos + |head|, payload);
    Overlaid(s2, a[..], pos + |head| + |payload|, pad);
    OverlayThree(s0, pos, head, payload, pad);
  }

  /** A sequence with some of its bytes replaced. */
  ghost function Overlay(s: seq<byte>, pos: nat, bs: seq<byte>): seq<byte>
    requires pos + |bs| <= |s|
  {
    s[..pos] + bs + s[pos + |bs|..]
  }

  lemma {:induction false} Overlaid(s: seq<byte>, s': seq<byte>, pos: nat, bs: seq<byte>)
    requires pos + |bs| <= |s| == |s'| && s'[..pos + |bs|] == s[..pos] + bs && s'[pos + |bs|..] == s[pos + |bs|..]
    ensures s' == Overlay(s, pos, bs)
  {
    assert s' == s'[..pos + |bs|] + s'[pos + |bs|..];
  }

  lemma {:induction false} OverlayThree(s: seq<byte>, pos: nat, x: seq<byte>, y: seq<byte>, z: seq<byte>)
    requires pos + |x| + |y| + |z| <= |s|
    ensures Overlay(Overlay(Overlay(s, pos, x), pos + |x|, y), pos + |x| + |y|, z) == Overlay(s, pos, x + y + z)
  {
    OverlayTwo(s, pos, x, y);
    OverlayTwo(s, pos, x + y, z);
  }

  lemma {:induction false} OverlayTwo(s: seq<byte>, pos: nat, x: seq<byte>, y: seq<byte>)
    requires pos + |x| + |y| <= |s|
    ensures Overlay(Overlay(s, pos, x), pos + |x|, y) == Overlay(s, pos, x + y)
  {
    var t := Overlay(s, pos, x);
    assert t[..pos + |x|] == s[..pos] + x;
    assert t[pos + |x| + |y|..] == s[pos + |x| + |y|..];
  }

  /** The first records are written, and there is room for exactly the others. */
  ghost predicate Writing(bs: seq<byte>, pos: nat, rs: seq<Record>, i: nat) {
    (i <= |rs| && pos <= |bs| == |AllWritten(rs)| && bs[..pos] + AllWritten(rs[i..]) == AllWritten(rs)) == true
  }

  lemma {:induction false} WriteRoom(bs: seq<byte>, pos: nat, rs: seq<Record>, i: nat)
    requires Writing(bs, pos, rs, i) && i < |rs|
    ensures pos + |Written(rs[i])| <= |bs|
  {
    assert rs[i..][0] == rs[i] && rs[i..][1..] == rs[i + 1..];
  }

  lemma {:induction false} WriteStep(bs: seq<byte>, pos: nat, rs: seq<Record>, i: nat)
    requires Writing(bs, pos, rs, i) && i < |rs| && pos + |Written(rs[i])| <= |bs|
    ensures Writing(Overlay(bs, pos, Written(rs[i])), pos + |Written(rs[i])|, rs, i + 1)
  {
    var w := Written(rs[i]);
    assert rs[i..][0] == rs[i] && rs[i..][1..] == rs[i + 1..];
    assert Overlay(bs, pos, w)[..pos + |w|] == bs[..pos] + w;
    assert bs[..pos] + (w + AllWritten(rs[i + 1..])) == bs[..pos] + w + AllWritten(rs[i + 1..]);
  }

  lemma {:induction false} WriteNext(bs: seq<byte>, pos: nat, rs: seq<Record>, i: nat)
    requires Writing(bs, pos, rs, i) && i < |rs| && forall r :: r in rs ==> Fits(r)
    ensures var r := rs[i]; var n := Align8(HEADER + |r.payload|);
      Fits(r) && pos + n <= |bs| && n == |Written(r)| && Writing(Overlay(bs, pos, Written(r)), pos + n, rs, i + 1)
  {
    assert rs[i] in rs;
    WriteRoom(bs, pos, rs, i);
    WriteStep(bs, pos, rs, i);
  }

  lemma {:induction false} WriteDone(bs: seq<byte>, pos: nat, rs: seq<Record>)
    requires Writing(bs, pos, rs, |rs|)
    ensures bs == AllWritten(rs)
  {
    assert rs[|rs|..] == [] && bs[..pos] + [] == bs[..pos];
    assert |bs[..pos]| == |bs|;
  }

  /** Items written one after the other with kdbus_item_set, as for the payload of a message. */
  method WriteItems(rs: seq<Record>) returns (a: array<byte>)
    requires forall r :: r in rs ==> Fits(r)
    ensures a[..] == AllWritten(rs) && fresh(a)
  {
    a := new byte[|AllWritten(rs)|](_ => 0);
    WriteInto(a, rs);
  }

  method WriteInto(a: array<byte>, rs: seq<Record>)
    requires a.Length == |AllWritten(rs)| && forall r :: r in rs ==> Fits(r)
    modifies a
    ensures a[..] == AllWritten(rs)
  {
    var pos: nat, i: nat := 0, 0;
    assert rs[0..] == rs && a[..0] == [];
    while i < |rs|
      invariant Writing(a[..], pos, rs, i)
    {
      WriteNext(a[..], pos, rs, i);
      pos := ItemSet(a, pos, rs[i].kind, Some(rs[i].payload), |rs[i].payload|);
      i := i + 1;
    }
    WriteDone(a[..], pos, rs);
  }

  /** Walking what was written gives back types and payloads. */
  lemma {:induction false} WrittenReadsBack(rs: seq<Record>)
    requires forall r :: r in rs ==> Fits(r)
    ensures var buf := AllWritten(rs); |buf| == Align8(|buf|) && Stream(buf, |buf|, 0, Laid(rs, 0))
  {
    WrittenAligned(rs);
    LaidStream([], rs, AllWritten(rs));
  }

  lemma {:induction false} WrittenAligned(rs: seq<Record>)
    ensures |AllWritten(rs)| % 8 == 0 && Align8(|AllWritten(rs)|) == |AllWritten(rs)|
    decreases |rs|
  {
    if rs != [] {
      WrittenAligned(rs[1..]);
      SumAligned(|Written(rs[0])|, |AllWritten(rs[1..])|);
    }
  }

  lemma {:induction false} StreamCons(buf: seq<byte>, o: nat, it: Item, next: nat, rest: seq<Item>)
    requires ItemAt(buf, |buf|, o, it) && Stream(buf, |buf|, next, rest) && next == o + SizeOf(it)
    ensures Stream(buf, |buf|, o, [it] + rest)
  {
    assert ([it] + rest)[1..] == rest;
  }

  lemma {:induction false} LaidFirst(pre: seq<byte>, r: Record, post: seq<byte>, buf: seq<byte>, rest: seq<Item>)
    requires Fits(r) && buf == pre + Written(r) + post && Stream(buf, |buf|, |pre + Written(r)|, rest)
    ensures Stream(buf, |buf|, |pre|, [Item(|pre|, r.kind, r.payload)] + rest)
  {
    WrittenItem(pre, r, post, buf);
    StreamCons(buf, |pre|, Item(|pre|, r.kind, r.payload), |pre + Written(r)|, rest);
  }

  lemma {:induction false} LaidCons(rs: seq<Record>, o: nat, next: nat)
    requires rs != [] && next == o + |Written(rs[0])|
    ensures Laid(rs, o) == [Item(o, rs[0].kind, rs[0].payload)] + Laid(rs[1..], next)
  {
  }

  lemma {:induction false} LaidStream(pre: seq<byte>, rs: seq<Record>, buf: seq<byte>)
    requires
      && buf == pre + AllWritten(rs) && |pre| % 8 == 0 && (forall r :: r in rs ==> Fits(r)) && Align8(|buf|) == |buf|
    ensures Stream(buf, |buf|, |pre|, Laid(rs, |pre|))
    decreases |rs|
  {
    if rs != [] {
      var r, w := rs[0], Written(rs[0]);
      Regroup(pre, w, AllWritten(rs[1..]), buf);
      SumAligned(|pre|, |w|);
      LaidStream(pre + w, rs[1..], buf);
      LaidFirst(pre, r, AllWritten(rs[1..]), buf, Laid(rs[1..], |pre + w|));
      LaidCons(rs, |pre|, |pre + w|);
    } else {
      assert buf == pre;
    }
  }

  lemma {:induction false} Regroup(pre: seq<byte>, w: seq<byte>, post: seq<byte>, buf: seq<byte>)
    requires buf == pre + (w + post)
    ensures buf == (pre + w) + post && |pre + w| == |pre| + |w|
  {
  }

  lemma {:induction false} WrittenItem(pre: seq<byte>, r: Record, post: seq<byte>, buf: seq<byte>)
    requires Fits(r) && buf == pre + Written(r) + post
    ensures
      && ItemAt(buf, |buf|, |pre|, Item(|pre|, r.kind, r.payload))
      && SizeOf(Item(|pre|, r.kind, r.payload)) == |Written(r)|
  {
    Parts(pre, Encode(HEADER + |r.payload|, 8), Encode(r.kind, 8), r.payload, Zeros(Align8(|r.payload|) - |r.payload|),
      post, buf);
    DecodesAs(buf, |pre|, r);
  }

  lemma {:induction false} DecodesAs(buf: seq<byte>, o: nat, r: Record)
    requires Fits(r) && o + HEADER + |r.payload| <= |buf| && buf[o + HEADER..o + HEADER + |r.payload|] == r.payload
    requires buf[o..o + 8] == Encode(HEADER + |r.payload|, 8) && buf[o + 8..o + 16] == Encode(r.kind, 8)
    ensures ItemAt(buf, |buf|, o, Item(o, r.kind, r.payload))
  {
    WordBack(HEADER + |r.payload|);
    WordBack(r.kind);
  }

  /** Where the parts of an item are. */
  lemma {:induction false} Parts(
    pre: seq<byte>, size: seq<byte>, kind: seq<byte>, payload: seq<byte>, pad: seq<byte>, post: seq<byte>,
    buf: seq<byte>)
    requires |size| == |kind| == 8 && buf == pre + (size + kind + payload + pad) + post
    ensures var o, e := |pre|, |pre| + HEADER + |payload|;
      e <= |buf| && buf[o..o + 8] == size && buf[o + 8..o + 16] == kind && buf[o + HEADER..e] == payload
  {
  }

  // ---------------------------------------------------------------- locality

  /** The verdict depends on the s bytes of the buffer only, not on the padding read with the last word. */
  lemma {:induction false} VerdictIsLocal(a: seq<byte>, b: seq<byte>, s: nat, o: nat, items: seq<Item>)
    requires |a| == |b| == Align8(s) && a[..s] == b[..s]
    ensures Stream(a, s, o, items) <==> Stream(b, s, o, items)
    decreases |items|
  {
    if items != [] {
      VerdictIsLocal(a, b, s, o + SizeOf(items[0]), items[1..]);
      ItemIsLocal(a, b, s, o, items[0]);
    }
  }

  lemma {:induction false} ItemIsLocal(a: seq<byte>, b: seq<byte>, s: nat, o: nat, it: Item)
    requires s <= |a| == |b| && a[..s] == b[..s]
    ensures ItemAt(a, s, o, it) <==> ItemAt(b, s, o, it)
  {
    var e := o + HEADER + |it.payload|;
    if e <= s {
      SamePart(a, b, s, o, o + 8);
      SamePart(a, b, s, o + 8, o + 16);
      SamePart(a, b, s, o + HEADER, e);
    }
  }

  lemma {:induction false} SamePart(a: seq<byte>, b: seq<byte>, s: nat, lo: nat, hi: nat)
    requires lo <= hi <= s <= |a| == |b| && a[..s] == b[..s]
    ensures a[lo..hi] == b[lo..hi]
  {
    assert a[lo..hi] == a[..s][lo..hi] && b[lo..hi] == b[..s][lo..hi];
  }
}
