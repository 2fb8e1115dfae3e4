/** Declarations shared by the models of the individual kdbus components. */
module Common {

  datatype Option<+T> = None | Some(value: T)

  /** Addresses and sizes have 64 bits. */
  const TWO_64: nat := 0x1_0000_0000_0000_0000

  /** KDBUS_ALIGN8 on unbounded integers. */
  function Align8(n: nat): (r: nat)
    ensures n <= r < n + 8 && r % 8 == 0
  {
    (n + 7) / 8 * 8
  }

  lemma AlignedStays(n: nat)
    requires n % 8 == 0
    ensures Align8(n) == n
  {
  }
}

/** Doubly linked lists as sequences without repetition. */
module Lists {

  ghost predicate NoDup<T>(s: seq<T>) {
    forall i, j :: 0 <= i < j < |s| ==> s[i] != s[j]
  }

  /** list_del. */
  function Minus<T(==)>(s: seq<T>, x: T): seq<T> {
    if s == [] then [] else if s[0] == x then s[1..] else [s[0]] + Minus(s[1..], x)
  }

  lemma {:induction false} MinusIn<T>(s: seq<T>, x: T, y: T)
    ensures y in Minus(s, x) ==> y in s
    ensures y in s && y != x ==> y in Minus(s, x)
    ensures NoDup(s) && y in Minus(s, x) ==> y != x
    decreases |s|
  {
    if s != [] && s[0] != x {
      assert s == [s[0]] + s[1..];
      MinusIn(s[1..], x, y);
    } else if s != [] {
      assert s == [s[0]] + s[1..];
      if NoDup(s) && y in s[1..] {
        var k :| 0 <= k < |s[1..]| && s[1..][k] == y;
        assert s[k + 1] == y && s[0] != s[k + 1];
      }
    }
  }

  lemma {:induction false} MinusMembers<T>(s: seq<T>, x: T)
    requires NoDup(s)
    ensures NoDup(Minus(s, x))
    ensures (forall y :: y in Minus(s, x) <==> y in s && y != x)
    ensures |Minus(s, x)| == |s| - if x in s then 1 else 0
    decreases |s|
  {
    forall y ensures y in Minus(s, x) <==> y in s && y != x { MinusIn(s, x, y); }
    if s != [] {
      assert s == [s[0]] + s[1..];
      if s[0] != x {
        MinusMembers(s[1..], x);
        var m := Minus(s[1..], x);
        forall k | 0 <= k < |m| ensures m[k] != s[0] {
          MinusIn(s[1..], x, m[k]);
          assert m[k] in m;
          assert m[k] in s[1..];
        }
      }
    }
  }

  /** The list of a connection. */
  function ListOf<T>(lists: map<nat, seq<T>>, c: nat): seq<T> {
    if c in lists then lists[c] else []
  }
}
