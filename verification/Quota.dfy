/**
 The per-user quota of a connection's incoming queue. The account of a user is an element of a
 sequence that grows on demand; users beyond its end have used nothing.
 */
module Quota {
  import opened Common
  import opened Lists

  const MAX_MSGS := 256
  const MAX_FDS := 16
  const U32_MAX := 0xFFFF_FFFF

  datatype Account = Account(memory: nat, msgs: nat, fds: nat)

  datatype Verdict = Accepted | ENOMEM | ENOBUFS | EMFILE

  const NOTHING := Account(0, 0, 0)

  function At(q: seq<Account>, u: nat): Account {
    if u < |q| then q[u] else NOTHING
  }

  /** The counters fit the widths they are stored in, and stay within the limits. */
  ghost predicate Bounded(a: Account) {
    a.memory <= U32_MAX && a.msgs <= MAX_MSGS && a.fds <= MAX_FDS
  }

  ghost predicate AllBounded(q: seq<Account>) {
    forall k :: 0 <= k < |q| ==> Bounded(q[k])
  }

  /** All accounts but that of u are the same. */
  ghost predicate SameBut(q: seq<Account>, q': seq<Account>, u: nat) {
    forall v: nat :: v != u ==> At(q', v) == At(q, v)
  }

  /** A third of what the other users leave of the incoming half would still hold the message. */
  ghost predicate Fits(a: Account, memory: nat, half: nat, accounted: nat) {
    accounted <= half && 3 * (a.memory + memory) <= half - accounted + a.memory
  }

  ghost predicate AtLimit(a: Account, memory: nat) {
    a.memory + memory > U32_MAX || a.msgs == MAX_MSGS
  }

  /** kdbus_conn_quota_inc; `accounted` of `size` pool bytes are in use by the incoming queue. */
  method QuotaInc(q: seq<Account>, u: nat, memory: nat, fds: nat, size: nat, accounted: nat, oom: bool)
    returns (v: Verdict, q': seq<Account>)
    requires AllBounded(q) && fds < TWO_64
    ensures AllBounded(q') && SameBut(q, q', u)
    ensures v == Accepted ==> At(q', u) == Account(At(q, u).memory + memory, At(q, u).msgs + 1, At(q, u).fds + fds)
    ensures v != Accepted ==> At(q', u) == At(q, u)
    ensures v == ENOMEM <==> |q| <= u && oom
    ensures v == Accepted ==> Fits(At(q, u), memory, size / 2, accounted)
    ensures v != ENOMEM ==>
      (v == ENOBUFS <==> !Fits(At(q, u), memory, size / 2, accounted) || AtLimit(At(q, u), memory))
    ensures v == EMFILE ==> At(q, u).fds + fds > MAX_FDS
    ensures v == Accepted <==>
      && (u < |q| || !oom) && accounted <= size / 2
      && At(q, u).memory + memory <= (size / 2 - accounted + At(q, u).memory) / 3
      && At(q, u).memory + memory <= 0xFFFF_FFFF && At(q, u).msgs < 256 && At(q, u).fds + fds <= 16
  {
    q' := q;
    if |q| <= u {
      if oom {
        return ENOMEM, q';
      }
      var aligned := Align8(u) + 8;
      var users := if aligned > u then aligned else u;
      q' := q + seq(users - |q|, _ => NOTHING);
    }
    var account := q'[u];
    var available := size / 2;
    if available < accounted {
      return ENOBUFS, q';
    }
    available := (available - accounted + account.memory) / 3;
    if available < account.memory || available - account.memory < memory || account.memory + memory > U32_MAX {
      return ENOBUFS, q';
    }
    if account.msgs >= MAX_MSGS {
      return ENOBUFS, q';
    }
    var newFds := (account.fds + fds) % TWO_64;
    if newFds < account.fds || newFds > MAX_FDS {
      return EMFILE, q';
    }
    q' := q'[u := Account(account.memory + memory, account.msgs + 1, newFds)];
    return Accepted, q';
  }

  /** The account covers what is given back: none of the three warnings of kdbus_conn_quota_dec fires. */
  ghost predicate Covers(a: Account, memory: nat, fds: nat) {
    0 < a.msgs && memory <= a.memory && fds <= a.fds
  }

  /** A counter that would drop below zero stays as it is. */
  function Lowered(a: Account, memory: nat, fds: nat): Account {
    Account(
      if a.memory < memory then a.memory else a.memory - memory,
      if a.msgs == 0 then 0 else a.msgs - 1,
      if a.fds < fds then a.fds else a.fds - fds)
  }

  /** kdbus_conn_quota_dec. */
  method QuotaDec(q: seq<Account>, u: nat, memory: nat, fds: nat) returns (q': seq<Account>, warned: bool)
    requires AllBounded(q)
    ensures AllBounded(q') && SameBut(q, q', u) && |q'| == |q|
    ensures warned <==> !Covers(At(q, u), memory, fds) || |q| <= u
    ensures !warned ==> At(q', u) == Account(At(q, u).memory - memory, At(q, u).msgs - 1, At(q, u).fds - fds)
    ensures u < |q| ==> At(q', u) == Lowered(At(q, u), memory, fds)
    ensures |q| <= u ==> q' == q
    ensures u < |q| ==>
      && At(q', u).memory == At(q, u).memory - (if memory <= At(q, u).memory then memory else 0)
      && At(q', u).msgs == At(q, u).msgs - (if 0 < At(q, u).msgs then 1 else 0)
      && At(q', u).fds == At(q, u).fds - (if fds <= At(q, u).fds then fds else 0)
  {
    if u >= |q| {
      return q, true;
    }
    var account := q[u];
    warned := false;
    if account.msgs == 0 { warned := true; } else { account := account.(msgs := account.msgs - 1); }
    if account.memory < memory { warned := true; } else { account := account.(memory := account.memory - memory); }
    if account.fds < fds { warned := true; } else { account := account.(fds := account.fds - fds); }
    q' := q[u := account];
  }

  // ---------------------------------------------------------------- fairness

  /** Bytes held by the given users. */
  ghost function Sum(q: seq<Account>, users: seq<nat>): nat {
    if users == [] then 0 else Sum(q, users[..|users| - 1]) + At(q, users[|users| - 1]).memory
  }

  /** Every user holds at most a third of what its predecessors in the order leave of half the pool. */
  ghost predicate FairOrder(q: seq<Account>, users: seq<nat>, half: nat) {
    users == [] ||
    var before, last := users[..|users| - 1], users[|users| - 1];
    FairOrder(q, before, half) && Sum(q, before) + 3 * At(q, last).memory <= half
  }

  /** The users holding bytes, in the order of the last message accepted from each. */
  ghost predicate Fair(q: seq<Account>, users: seq<nat>, half: nat) {
    NoDup(users) && (forall u: nat :: u in users <==> At(q, u).memory > 0) && FairOrder(q, users, half)
  }

  ghost function Drop(users: seq<nat>, u: nat): seq<nat> {
    if users == [] then []
    else
      var before, last := users[..|users| - 1], users[|users| - 1];
      Drop(before, u) + if last == u then [] else [last]
  }

  lemma {:induction false} DropMembers(users: seq<nat>, u: nat)
    requires NoDup(users)
    ensures NoDup(Drop(users, u)) && forall v :: v in Drop(users, u) <==> v in users && v != u
    decreases |users|
  {
    if users != [] {
      var before, last := users[..|users| - 1], users[|users| - 1];
      DropMembers(before, u);
      assert users == before + [last];
      var d := Drop(before, u);
      forall i | 0 <= i < |d| ensures d[i] != last {
        assert d[i] in before;
      }
    }
  }

  /** Taking a user out leaves the order fair and accounts for exactly its bytes. */
  lemma {:induction false} DropFair(q: seq<Account>, users: seq<nat>, u: nat, half: nat)
    requires FairOrder(q, users, half) && NoDup(users)
    ensures FairOrder(q, Drop(users, u), half)
    ensures Sum(q, users) == Sum(q, Drop(users, u)) + if u in users then At(q, u).memory else 0
    decreases |users|
  {
    if users != [] {
      var before, last := users[..|users| - 1], users[|users| - 1];
      DropFair(q, before, u, half);
      assert users == before + [last];
      if last != u {
        var d := Drop(users, u);
        assert d[..|d| - 1] == Drop(before, u);
      } else {
        assert Drop(users, u) == Drop(before, u);
      }
    }
  }

  /** Accounts that do not grow keep an order fair. */
  lemma {:induction false} FairLower(q: seq<Account>, q': seq<Account>, users: seq<nat>, half: nat)
    requires FairOrder(q, users, half) && forall u :: u in users ==> At(q', u).memory <= At(q, u).memory
    ensures FairOrder(q', users, half) && Sum(q', users) <= Sum(q, users)
    decreases |users|
  {
    if users != [] {
      FairLower(q, q', users[..|users| - 1], half);
    }
  }

  lemma {:induction false} SumSame(q: seq<Account>, q': seq<Account>, users: seq<nat>)
    requires forall u :: u in users ==> At(q', u).memory == At(q, u).memory
    ensures Sum(q', users) == Sum(q, users)
    decreases |users|
  {
    if users != [] {
      SumSame(q, q', users[..|users| - 1]);
    }
  }

  ghost function Pow(b: nat, k: nat): nat {
    if k == 0 then 1 else b * Pow(b, k - 1)
  }

  lemma {:induction false} AppendFair(q: seq<Account>, users: seq<nat>, u: nat, half: nat)
    requires FairOrder(q, users, half) && NoDup(users) && u !in users && Sum(q, users) + 3 * At(q, u).memory <= half
    ensures
      && FairOrder(q, users + [u], half) && NoDup(users + [u]) && Sum(q, users + [u]) == Sum(q, users) + At(q, u).memory
  {
    assert (users + [u])[..|users|] == users;
  }

  /** An accepted message moves its user to the end of the order. */
  lemma {:induction false} IncFair(q: seq<Account>, q': seq<Account>, users: seq<nat>, u: nat, memory: nat, half: nat)
    requires Fair(q, users, half) && SameBut(q, q', u) && At(q', u).memory == At(q, u).memory + memory && 0 < memory
    requires Fits(At(q, u), memory, half, Sum(q, users))
    ensures Fair(q', Drop(users, u) + [u], half) && Sum(q', Drop(users, u) + [u]) == Sum(q, users) + memory
  {
    var d := Drop(users, u);
    DropMembers(users, u);
    DropFair(q, users, u, half);
    FairLower(q, q', d, half);
    SumSame(q, q', d);
    AppendFair(q', d, u, half);
    forall v: nat ensures v in d + [u] <==> At(q', v).memory > 0 {
      assert v in d + [u] <==> v in d || v == u;
    }
  }

  /** Giving bytes back keeps the order, without the user once it holds none. */
  lemma {:induction false} DecFair(q: seq<Account>, q': seq<Account>, users: seq<nat>, u: nat, memory: nat, half: nat)
    requires Fair(q, users, half) && SameBut(q, q', u) && At(q, u).memory == At(q', u).memory + memory
    ensures var users' := if At(q', u).memory == 0 then Drop(users, u) else users;
      Fair(q', users', half) && Sum(q', users') == Sum(q, users) - memory
  {
    DropMembers(users, u);
    DecOrder(q, q', users, u, memory, half);
    assert u !in users ==> memory == 0;
  }

  lemma {:induction false} DecOrder(q: seq<Account>, q': seq<Account>, users: seq<nat>, u: nat, memory: nat, half: nat)
    requires
      && FairOrder(q, users, half) && NoDup(users) && SameBut(q, q', u) && At(q, u).memory == At(q', u).memory + memory
    ensures FairOrder(q', users, half) && FairOrder(q', Drop(users, u), half)
    ensures Sum(q', Drop(users, u)) == Sum(q', users) - if u in users then At(q', u).memory else 0
    ensures Sum(q', users) == Sum(q, users) - if u in users then memory else 0
  {
    DropMembers(users, u);
    DropFair(q, users, u, half);
    FairLower(q, q', users, half);
    DropFair(q', users, u, half);
    SumSame(q, q', Drop(users, u));
  }

  /**
   With k users holding bytes in a fair order, at least (2/3)^k of the incoming half is unused.
   */
  lemma {:induction false} FairnessBound(q: seq<Account>, users: seq<nat>, half: nat)
    requires FairOrder(q, users, half)
    ensures Sum(q, users) <= half
    ensures Pow(3, |users|) * (half - Sum(q, users)) >= Pow(2, |users|) * half
    ensures 0 < half ==> Sum(q, users) < half
    decreases |users|
  {
    if users != [] {
      var before, m := users[..|users| - 1], At(q, users[|users| - 1]).memory;
      FairnessBound(q, before, half);
      BoundStep(Pow(3, |before|), Pow(2, |before|), half - Sum(q, before), m, half);
    }
  }

  /** One more user leaves two thirds of what the others left. */
  lemma {:induction false} BoundStep(p: nat, r: nat, rest: int, m: int, half: nat)
    requires p * rest >= r * half && 3 * (rest - m) >= 2 * rest
    ensures (3 * p) * (rest - m) >= (2 * r) * half
  {
    MulMonotone(p, 2 * rest, 3 * (rest - m));
    MulMove(p, 3, rest - m);
    MulMove(p, 2, rest);
    MulMove(r, 2, half);
  }

  lemma MulMonotone(a: nat, x: int, y: int)
    requires x <= y
    ensures a * x <= a * y
  {
  }

  lemma MulMove(a: int, k: int, x: int)
    ensures (k * a) * x == a * (k * x) == k * (a * x)
  {
  }
}
