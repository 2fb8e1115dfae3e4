/**
 The policy database. Entries are unique by name and kind, so the hash table is a set; its
 buckets are visited in any order. Whether a name is a wildcard is part of the item.
 */
module Policy {
  import opened Common

  const SEE := 0
  const OWN := 2
  const NO_ACCESS := -1      // -EPERM

  datatype Access = User(access: int, uid: nat) | Group(access: int, gid: nat) | World(access: int)

  datatype Entry = Entry(name: string, wildcard: bool, owner: nat, accessList: seq<Access>)

  /** The items of a policy, with the verdicts of the name and access checks. */
  datatype Item =
    | NameItem(name: string, wildcard: bool, validName: bool)
    | AccessItem(access: Access, validId: bool)
    | OtherItem

  datatype Ret = Done | E2BIG | EINVAL | ENOMEM | EEXIST

  datatype Cred = Cred(euid: nat, egid: nat, groups: seq<nat>)

  ghost predicate SameKey(e: Entry, f: Entry) {
    e.name == f.name && e.wildcard == f.wildcard
  }

  ghost predicate Unique(db: set<Entry>) {
    forall e, f :: e in db && f in db && SameKey(e, f) ==> e == f
  }

  ghost function OwnedBy(db: set<Entry>, owner: nat): set<Entry> {
    set e | e in db && e.owner == owner
  }

  // ---------------------------------------------------------------- parsing the items

  /** The entries after one more item. */
  ghost function Taken(es: seq<Entry>, item: Item, owner: nat): seq<Entry> {
    match item
    case NameItem(n, w, _) => [Entry(n, w, owner, [])] + es
    case AccessItem(a, _) => if es == [] then [] else [es[0].(accessList := es[0].accessList + [a])] + es[1..]
    case OtherItem => es
  }

  /** The entries named by the items, latest first; None if the items are refused. */
  ghost function Parsed(items: seq<Item>, owner: nat, wildcards: bool): Option<seq<Entry>> {
    if items == [] then Some([])
    else
      var before := Parsed(items[..|items| - 1], owner, wildcards);
      if before.None? then None
      else match items[|items| - 1]
        case NameItem(n, w, valid) =>
          if valid && (w ==> wildcards) then Some(Taken(before.value, items[|items| - 1], owner)) else None
        case AccessItem(a, valid) =>
          if before.value != [] && valid && SEE <= a.access <= OWN
          then Some(Taken(before.value, items[|items| - 1], owner))
          else None
        case OtherItem => before
  }

  ghost function NameCount(items: seq<Item>): nat {
    if items == [] then 0 else NameCount(items[..|items| - 1]) + if items[|items| - 1].NameItem? then 1 else 0
  }

  lemma {:induction false} RefusedStays(items: seq<Item>, i: nat, owner: nat, wildcards: bool)
    requires i <= |items| && Parsed(items[..i], owner, wildcards).None?
    ensures Parsed(items, owner, wildcards).None?
    decreases |items| - i
  {
    if i < |items| {
      assert items[..i + 1][..i] == items[..i];
      RefusedStays(items, i + 1, owner, wildcards);
    } else {
      assert items[..i] == items;
    }
  }

  lemma {:induction false} MoreNames(items: seq<Item>, i: nat)
    requires i <= |items|
    ensures NameCount(items[..i]) <= NameCount(items)
    decreases |items| - i
  {
    if i < |items| {
      assert items[..i + 1][..i] == items[..i];
      MoreNames(items, i + 1);
    } else {
      assert items[..i] == items;
    }
  }

  /** The first loop of kdbus_policy_set. */
  method Parse(items: seq<Item>, maxPolicies: nat, allowWildcards: bool, owner: nat, oom: bool)
    returns (ret: Ret, entries: seq<Entry>)
    ensures ret == Done ==>
      Parsed(items, owner, allowWildcards) == Some(entries) && (maxPolicies > 0 ==> NameCount(items) <= maxPolicies)
    ensures ret == Done ==> Listed(items, owner, entries) && AllAcceptable(items, allowWildcards)
    ensures ret == EINVAL ==> Parsed(items, owner, allowWildcards).None? && !AllAcceptable(items, allowWildcards)
    ensures ret == E2BIG ==> maxPolicies > 0 && NameCount(items) > maxPolicies
    ensures ret == ENOMEM ==> oom
    ensures ret != EEXIST
  {
    entries := [];
    var count, i := 0, 0;
    while i < |items|
      invariant 0 <= i <= |items| && Parsed(items[..i], owner, allowWildcards) == Some(entries)
      invariant maxPolicies > 0 ==> count == NameCount(items[..i]) <= maxPolicies
    {
      assert items[..i + 1][..i] == items[..i];
      MoreNames(items, i + 1);
      match items[i] {
        case NameItem(n, w, valid) =>
          if maxPolicies > 0 {
            count := count + 1;
            if count > maxPolicies {
              return E2BIG, entries;
            }
          }
          if !valid || (w && !allowWildcards) {
            RefusedStays(items, i + 1, owner, allowWildcards);
            ParsedIff(items, owner, allowWildcards);
            return EINVAL, entries;
          }
          if oom {
            return ENOMEM, entries;
          }
          entries := [Entry(n, w, owner, [])] + entries;
        case AccessItem(a, valid) =>
          if entries == [] || !valid || !(SEE <= a.access <= OWN) {
            RefusedStays(items, i + 1, owner, allowWildcards);
            ParsedIff(items, owner, allowWildcards);
            return EINVAL, entries;
          }
          if oom {
            return ENOMEM, entries;
          }
          entries := [entries[0].(accessList := entries[0].accessList + [a])] + entries[1..];
        case OtherItem =>
      }
      i := i + 1;
    }
    assert items[..i] == items;
    ParsedListed(items, owner, allowWildcards);
    ParsedIff(items, owner, allowWildcards);
    return Done, entries;
  }

  lemma {:induction false} ParsedOwner(items: seq<Item>, owner: nat, wildcards: bool)
    ensures var p := Parsed(items, owner, wildcards);
      p.Some? ==> forall e :: e in p.value ==> e.owner == owner && Proper(e)
    decreases |items|
  {
    if items != [] {
      ParsedOwner(items[..|items| - 1], owner, wildcards);
    }
  }

  // ---------------------------------------------------------------- what the items say

  /** The place of the name item after the one at i, or the end. */
  ghost function NextName(items: seq<Item>, i: nat): (next: nat)
    requires i < |items|
    ensures i < next <= |items| && (next < |items| ==> items[next].NameItem?)
    ensures forall k :: i < k < next ==> !items[k].NameItem?
    decreases |items| - i
  {
    if i + 1 == |items| || items[i + 1].NameItem? then i + 1 else NextName(items, i + 1)
  }

  /** The accesses among the items, in order. */
  ghost function AccessesIn(items: seq<Item>): seq<Access> {
    if items == [] then []
    else
      var last := items[|items| - 1];
      AccessesIn(items[..|items| - 1]) + if last.AccessItem? then [last.access] else []
  }

  lemma {:induction false} AccessesAre(items: seq<Item>, a: Access)
    ensures a in AccessesIn(items) <==> exists j :: 0 <= j < |items| && items[j].AccessItem? && items[j].access == a
    decreases |items|
  {
    if items != [] {
      var before, n := items[..|items| - 1], |items| - 1;
      AccessesAre(before, a);
      if j :| 0 <= j < |items| && items[j].AccessItem? && items[j].access == a {
        assert j < n ==> before[j] == items[j];
      }
    }
  }

  /** What the name item at i and the accesses that follow it stand for. */
  ghost function EntryAt(items: seq<Item>, i: nat, owner: nat): Entry
    requires i < |items| && items[i].NameItem?
  {
    Entry(items[i].name, items[i].wildcard, owner, AccessesIn(items[i + 1..NextName(items, i)]))
  }

  /** Where the entry for the name item at i stands, counted from the latest. */
  ghost function PlaceOf(items: seq<Item>, i: nat): int
    requires i < |items|
  {
    NameCount(items) - 1 - NameCount(items[..i])
  }

  /** One entry for each name item, latest first, and no others. */
  ghost predicate Listed(items: seq<Item>, owner: nat, es: seq<Entry>) {
    && |es| == NameCount(items)
    && forall i {:trigger PlaceOf(items, i)} :: 0 <= i < |items| && items[i].NameItem? ==>
         0 <= PlaceOf(items, i) < |es| && es[PlaceOf(items, i)] == EntryAt(items, i, owner)
  }

  lemma {:induction false} PlacesInside(items: seq<Item>, i: nat)
    requires i < |items| && items[i].NameItem?
    ensures 0 <= PlaceOf(items, i) < NameCount(items)
    ensures PlaceOf(items, i) == 0 <==> NextName(items, i) == |items|
    decreases |items|
  {
    var before, n := items[..|items| - 1], |items| - 1;
    if i < n {
      assert before[..i] == items[..i];
      PlacesInside(before, i);
      NextNameLess(items, i);
    } else {
      assert items[..i] == before;
    }
  }

  lemma {:induction false} NextNameLess(items: seq<Item>, i: nat)
    requires i < |items| - 1
    ensures var n := |items| - 1;
      var next := NextName(items[..n], i);
      NextName(items, i) == if next == n && !items[n].NameItem? then n + 1 else next
  {
    var n := |items| - 1;
    var next, next' := NextName(items[..n], i), NextName(items, i);
    assert forall k :: 0 <= k < n ==> items[..n][k] == items[k];
  }

  /** One more item that is no name extends what follows the latest name, and leaves the others. */
  lemma {:induction false} EntryAtLess(items: seq<Item>, i: nat, owner: nat)
    requires i < |items| - 1 && items[i].NameItem?
    ensures var n := |items| - 1;
      var before, e := items[..n], EntryAt(items[..n], i, owner);
      && PlaceOf(items, i) == PlaceOf(before, i) + (if items[n].NameItem? then 1 else 0)
      && EntryAt(items, i, owner) ==
         if PlaceOf(before, i) == 0 && items[n].AccessItem? then e.(accessList := e.accessList + [items[n].access])
         else e
  {
    var n := |items| - 1;
    var before := items[..n];
    assert before[..i] == items[..i];
    PlacesInside(before, i);
    NextNameLess(items, i);
    var next := NextName(before, i);
    assert before[i + 1..next] == items[i + 1..next];
    if next == n && !items[n].NameItem? {
      var seg := items[i + 1..n + 1];
      assert seg[..|seg| - 1] == items[i + 1..n] && seg[|seg| - 1] == items[n];
    }
  }

  lemma {:induction false} TakenAt(es: seq<Entry>, item: Item, owner: nat, p: nat)
    requires p < |es|
    ensures var q := p + if item.NameItem? then 1 else 0;
      && q < |Taken(es, item, owner)|
      && Taken(es, item, owner)[q] ==
         if p == 0 && item.AccessItem? then es[p].(accessList := es[p].accessList + [item.access]) else es[p]
  {
  }

  lemma {:induction false} ListedAt(items: seq<Item>, owner: nat, es: seq<Entry>, i: nat)
    requires Listed(items, owner, es) && i < |items| && items[i].NameItem?
    ensures 0 <= PlaceOf(items, i) < |es| && es[PlaceOf(items, i)] == EntryAt(items, i, owner)
  {
  }

  lemma {:induction false} ListedBefore(items: seq<Item>, owner: nat, es: seq<Entry>, i: nat)
    requires i < |items| - 1 && items[i].NameItem? && Listed(items[..|items| - 1], owner, es)
    ensures var es' := Taken(es, items[|items| - 1], owner);
      0 <= PlaceOf(items, i) < |es'| && es'[PlaceOf(items, i)] == EntryAt(items, i, owner)
  {
    var before := items[..|items| - 1];
    assert before[i] == items[i];
    ListedAt(before, owner, es, i);
    EntryAtLess(items, i, owner);
    TakenAt(es, items[|items| - 1], owner, PlaceOf(before, i));
  }

  lemma {:induction false} ListedMore(items: seq<Item>, owner: nat, es: seq<Entry>)
    requires items != [] && Listed(items[..|items| - 1], owner, es)
    ensures Listed(items, owner, Taken(es, items[|items| - 1], owner))
  {
    var n := |items| - 1;
    var es' := Taken(es, items[n], owner);
    forall i | 0 <= i < |items| && items[i].NameItem?
      ensures 0 <= PlaceOf(items, i) < |es'| && es'[PlaceOf(items, i)] == EntryAt(items, i, owner)
    {
      if i < n {
        ListedBefore(items, owner, es, i);
      } else {
        assert items[i + 1..NextName(items, i)] == [];
      }
    }
  }

  lemma {:induction false} ParsedListed(items: seq<Item>, owner: nat, wildcards: bool)
    requires Parsed(items, owner, wildcards).Some?
    ensures Listed(items, owner, Parsed(items, owner, wildcards).value)
    decreases |items|
  {
    if items != [] {
      ParsedListed(items[..|items| - 1], owner, wildcards);
      ListedMore(items, owner, Parsed(items[..|items| - 1], owner, wildcards).value);
    }
  }

  /** Nothing is wrong with the item at i. */
  ghost predicate Acceptable(items: seq<Item>, i: nat, wildcards: bool)
    requires i < |items|
  {
    match items[i]
    case NameItem(_, w, valid) => valid && (w ==> wildcards)
    case AccessItem(a, valid) =>
      valid && 0 <= a.access <= 2 && exists j :: 0 <= j < i && items[j].NameItem?
    case OtherItem => true
  }

  ghost predicate AllAcceptable(items: seq<Item>, wildcards: bool) {
    forall i :: 0 <= i < |items| ==> Acceptable(items, i, wildcards)
  }

  lemma {:induction false} NamesCounted(items: seq<Item>)
    ensures NameCount(items) > 0 <==> exists j :: 0 <= j < |items| && items[j].NameItem?
    decreases |items|
  {
    if items != [] {
      var before := items[..|items| - 1];
      NamesCounted(before);
      assert forall j :: 0 <= j < |before| ==> before[j] == items[j];
    }
  }

  /** The items are refused exactly for an item of theirs that is not acceptable. */
  lemma {:induction false} ParsedIff(items: seq<Item>, owner: nat, wildcards: bool)
    ensures Parsed(items, owner, wildcards).Some? <==> AllAcceptable(items, wildcards)
    decreases |items|
  {
    if items != [] {
      var n := |items| - 1;
      var before := items[..n];
      ParsedIff(before, owner, wildcards);
      forall i | 0 <= i < n ensures Acceptable(before, i, wildcards) <==> Acceptable(items, i, wildcards) {
        assert forall j :: 0 <= j < n ==> before[j] == items[j];
      }
      if Parsed(before, owner, wildcards).Some? {
        ParsedListed(before, owner, wildcards);
        NamesCounted(before);
        assert forall j :: 0 <= j < n ==> before[j] == items[j];
        assert Parsed(items, owner, wildcards).Some? <==> Acceptable(items, n, wildcards);
      } else {
        var i :| 0 <= i < n && !Acceptable(before, i, wildcards);
        assert !Acceptable(items, i, wildcards);
      }
    }
  }

  lemma {:induction false} PlaceTaken(items: seq<Item>, k: nat) returns (i: nat)
    requires k < NameCount(items)
    ensures i < |items| && items[i].NameItem? && PlaceOf(items, i) == k
    decreases |items|
  {
    var n := |items| - 1;
    var before := items[..n];
    if items[n].NameItem? && k == 0 {
      i := n;
    } else {
      i := PlaceTaken(before, if items[n].NameItem? then k - 1 else k);
      assert items[..i] == before[..i];
    }
  }

  /** The entry is that of some name item. */
  ghost predicate NamedBy(items: seq<Item>, owner: nat, e: Entry) {
    exists i {:trigger EntryAt(items, i, owner)} ::
      0 <= i < |items| && items[i].NameItem? && e == EntryAt(items, i, owner)
  }

  lemma {:induction false} ParsedAre(items: seq<Item>, owner: nat, wildcards: bool)
    requires Parsed(items, owner, wildcards).Some?
    ensures forall e :: e in Parsed(items, owner, wildcards).value <==> NamedBy(items, owner, e)
  {
    var es := Parsed(items, owner, wildcards).value;
    ParsedListed(items, owner, wildcards);
    forall e | e in es ensures NamedBy(items, owner, e) {
      var k :| 0 <= k < |es| && es[k] == e;
      var i := PlaceTaken(items, k);
      ListedAt(items, owner, es, i);
    }
    forall e | NamedBy(items, owner, e) ensures e in es {
      var i :| 0 <= i < |items| && items[i].NameItem? && e == EntryAt(items, i, owner);
      ListedAt(items, owner, es, i);
    }
  }

  // ---------------------------------------------------------------- the database

  ghost function Elements(es: seq<Entry>): set<Entry> {
    set e | e in es
  }

  /** Two of the entries, or one of them and one of db, have the same key. */
  ghost predicate Conflict(db: set<Entry>, es: seq<Entry>) {
    || (exists i, e :: 0 <= i < |es| && e in db && SameKey(es[i], e))
    || (exists i, j :: 0 <= i < j < |es| && SameKey(es[i], es[j]))
  }

  /** The entries of the owner were replaced by those of the items. */
  ghost predicate Replaced(db: set<Entry>, db': set<Entry>, items: seq<Item>, owner: nat, wildcards: bool) {
    var p := Parsed(items, owner, wildcards);
    p.Some? && db' == db - OwnedBy(db, owner) + Elements(p.value)
  }

  /** The items are fine, but clash with each other or with the entries of other owners. */
  ghost predicate Clashes(db: set<Entry>, items: seq<Item>, owner: nat, wildcards: bool) {
    var p := Parsed(items, owner, wildcards);
    p.Some? && Conflict(db - OwnedBy(db, owner), p.value)
  }

  ghost predicate Proper(e: Entry) {
    forall a :: a in e.accessList ==> SEE <= a.access <= OWN
  }

  class PolicyDb {
    var entries: set<Entry>

    ghost predicate Valid()
      reads this
    {
      Unique(entries) && forall e :: e in entries ==> Proper(e)
    }

    constructor ()
      ensures Valid() && entries == {}
    {
      entries := {};
    }

    /** Take the entries of an owner out of the table, as __kdbus_policy_remove_owner does to free them. */
    method TakeOwner(owner: nat) returns (taken: set<Entry>)
      modifies this
      ensures taken == OwnedBy(old(entries), owner) && entries == old(entries) - taken
    {
      taken := {};
      var todo := entries;
      while todo != {}
        invariant
          && todo <= old(entries) && taken == OwnedBy(old(entries) - todo, owner) && entries == old(entries) - taken
        decreases todo
      {
        var e :| e in todo;
        todo := todo - {e};
        if e.owner == owner {
          entries := entries - {e};
          taken := taken + {e};
        }
      }
    }

    /** Insert new entries until one of them clashes with the table. */
    method AddAll(wanted: seq<Entry>) returns (ret: Ret, ghost added: set<Entry>)
      requires Valid() && forall e :: e in wanted ==> Proper(e)
      modifies this
      ensures Valid() && (ret == Done || ret == EEXIST) && added <= Elements(wanted) && entries == old(entries) + added
      ensures ret == Done <==> !Conflict(old(entries), wanted)
      ensures ret == Done ==> added == Elements(wanted)
    {
      var i := 0;
      added := {};
      while i < |wanted|
        invariant 0 <= i <= |wanted| && Valid() && added == Elements(wanted[..i]) && entries == old(entries) + added
        invariant !Conflict(old(entries), wanted[..i])
      {
        assert wanted[..i + 1] == wanted[..i] + [wanted[i]];
        NextClash(old(entries), wanted, i);
        if exists p :: p in entries && wanted[i].name == p.name && wanted[i].wildcard == p.wildcard {
          return EEXIST, added;
        }
        entries := entries + {wanted[i]};
        added := added + {wanted[i]};
        i := i + 1;
      }
      assert wanted[..i] == wanted;
      return Done, added;
    }

    /**
     kdbus_policy_set: the entries of the owner are replaced by those of the items, or nothing
     changes at all.
     */
    method Set(items: seq<Item>, maxPolicies: nat, allowWildcards: bool, owner: nat, oom: bool) returns (ret: Ret)
      requires Valid()
      modifies this
      ensures Valid()
      ensures ret == Done ==> Replaced(old(entries), entries, items, owner, allowWildcards)
      ensures ret != Done ==> entries == old(entries)
      ensures ret == Done || ret == EEXIST ==> (ret == EEXIST <==> Clashes(old(entries), items, owner, allowWildcards))
      ensures ret == Done ==> RewrittenBy(old(entries), entries, items, owner)
      ensures ret == Done || ret == EEXIST ==>
        AllAcceptable(items, allowWildcards) && (ret == EEXIST <==> Contested(old(entries), items, owner))
      ensures ret == EINVAL ==> Parsed(items, owner, allowWildcards).None? && !AllAcceptable(items, allowWildcards)
      ensures ret == E2BIG ==> maxPolicies > 0 && NameCount(items) > maxPolicies
      ensures ret == ENOMEM ==> oom
    {
      var wanted;
      ret, wanted := Parse(items, maxPolicies, allowWildcards, owner, oom);
      if ret != Done {
        return;
      }
      ParsedOwner(items, owner, allowWildcards);
      ClashesIff(entries, items, owner, allowWildcards);
      var restore := TakeOwner(owner);
      ghost var added;
      ret, added := AddAll(wanted);
      if ret != Done {
        var flushed := TakeOwner(owner);
        assert flushed == added;
        var todo := restore;
        while todo != {}
          invariant todo <= restore && entries == old(entries) - todo
          decreases todo
        {
          var e :| e in todo;
          entries, todo := entries + {e}, todo - {e};
        }
      } else {
        ReplacedMeans(old(entries), entries, items, owner, allowWildcards);
      }
    }

    /** kdbus_policy_lookup: an entry for the name itself, else a wildcard for its parent. */
    method Lookup(name: string) returns (r: Option<Entry>)
      requires Valid()
      ensures r == Governing(entries, name)
      ensures r.Some? ==> r.value in entries
      ensures r.Some? && !r.value.wildcard ==> r.value.name == name
      ensures r.Some? && r.value.wildcard ==>
        OneBelow(r.value.name, name) && forall e :: e in entries && e.name == name ==> e.wildcard
      ensures r.None? ==> forall e :: e in entries ==> if e.wildcard then !OneBelow(e.name, name) else e.name != name
    {
      LevelBelow(name);
      if e :| e in entries && e.name == name && !e.wildcard {
        GoverningIs(entries, name, e);
        return Some(e);
      }
      var dot := LastDot(name);
      if dot == -1 {
        return None;
      }
      if e :| e in entries && e.wildcard && e.name == name[..dot] {
        GoverningIs(entries, name, e);
        return Some(e);
      }
      return None;
    }

    /** kdbus_policy_query_unlocked: the highest access granted. */
    method Query(cred: Cred, name: string) returns (highest: int)
      requires Valid()
      ensures Governing(entries, name).None? ==> highest == NO_ACCESS
      ensures Governing(entries, name).Some? ==> HighestOf(Governing(entries, name).value.accessList, cred, highest)
      ensures forall e :: e in entries && Governs(entries, e, name) ==>
        && (forall a :: a in e.accessList && a.access > highest ==>
              || (a.User? && a.uid != cred.euid)
              || (a.Group? && a.gid != cred.egid && a.gid !in cred.groups))
        && (highest == -1 || exists a ::
              && a in e.accessList && a.access == highest
              && (|| a.World? || (a.User? && a.uid == cred.euid)
                  || (a.Group? && (a.gid == cred.egid || a.gid in cred.groups))))
      ensures (forall e :: e in entries ==> !Governs(entries, e, name)) ==> highest == -1
    {
      GovernsIs(entries, name);
      var e := Lookup(name);
      if e.None? {
        return NO_ACCESS;
      }
      var list, i := e.value.accessList, 0;
      highest := NO_ACCESS;
      while i < |list|
        invariant 0 <= i <= |list| && HighestOf(list[..i], cred, highest)
      {
        assert list[..i + 1] == list[..i] + [list[i]];
        var a := list[i];
        assert a in list;
        if a.access > highest {
          var grants;
          match a {
            case User(_, uid) => grants := cred.euid == uid;
            case Group(_, gid) => grants := cred.egid == gid || gid in cred.groups;
            case World(_) => grants := true;
          }
          if grants {
            assert a in list[..i + 1];
            highest := a.access;
          }
          if highest >= OWN {
            assert Proper(e.value);
            return;
          }
        }
        i := i + 1;
      }
      assert list[..i] == list;
    }
  }

  /** Two name items ask for the same entry. */
  ghost predicate AsksTwice(items: seq<Item>, i: int, j: int) {
    && 0 <= i < j < |items| && items[i].NameItem? && items[j].NameItem?
    && items[i].name == items[j].name && items[i].wildcard == items[j].wildcard
  }

  /** A name item asks for an entry that somebody else has. */
  ghost predicate AsksFor(items: seq<Item>, i: int, e: Entry, owner: nat) {
    && 0 <= i < |items| && items[i].NameItem? && e.owner != owner
    && items[i].name == e.name && items[i].wildcard == e.wildcard
  }

  lemma {:induction false} PlacesApart(items: seq<Item>, i: nat, j: nat)
    requires i < j < |items| && items[i].NameItem?
    ensures PlaceOf(items, i) > PlaceOf(items, j)
  {
    assert items[..i + 1][..i] == items[..i] && items[..j][..i + 1] == items[..i + 1];
    MoreNames(items[..j], i + 1);
  }

  ghost predicate Contested(db: set<Entry>, items: seq<Item>, owner: nat) {
    (exists i, j :: AsksTwice(items, i, j)) || exists i, e :: e in db && AsksFor(items, i, e, owner)
  }

  lemma {:induction false} KeyAt(items: seq<Item>, owner: nat, es: seq<Entry>, i: nat)
    requires Listed(items, owner, es) && i < |items| && items[i].NameItem?
    ensures 0 <= PlaceOf(items, i) < |es|
    ensures es[PlaceOf(items, i)].name == items[i].name && es[PlaceOf(items, i)].wildcard == items[i].wildcard
  {
    ListedAt(items, owner, es, i);
  }

  lemma {:induction false} ConflictFrom(db: set<Entry>, items: seq<Item>, owner: nat, es: seq<Entry>)
    requires Listed(items, owner, es) && Conflict(db - OwnedBy(db, owner), es)
    ensures Contested(db, items, owner)
  {
    if k, e :| 0 <= k < |es| && e in db - OwnedBy(db, owner) && SameKey(es[k], e) {
      var i := PlaceTaken(items, k);
      KeyAt(items, owner, es, i);
      assert AsksFor(items, i, e, owner);
    } else {
      var k, l :| 0 <= k < l < |es| && SameKey(es[k], es[l]);
      var i := PlaceTaken(items, k);
      var j := PlaceTaken(items, l);
      KeyAt(items, owner, es, i);
      KeyAt(items, owner, es, j);
      assert if i < j then AsksTwice(items, i, j) else AsksTwice(items, j, i);
    }
  }

  lemma {:induction false} ConflictOf(db: set<Entry>, items: seq<Item>, owner: nat, es: seq<Entry>)
    requires Listed(items, owner, es) && Contested(db, items, owner)
    ensures Conflict(db - OwnedBy(db, owner), es)
  {
    if i, j :| AsksTwice(items, i, j) {
      PlacesApart(items, i, j);
      KeyAt(items, owner, es, i);
      KeyAt(items, owner, es, j);
      TwoAlike(db - OwnedBy(db, owner), es, PlaceOf(items, j), PlaceOf(items, i));
    } else {
      var i, e :| e in db && AsksFor(items, i, e, owner);
      KeyAt(items, owner, es, i);
      OneAlike(db - OwnedBy(db, owner), es, PlaceOf(items, i), e);
    }
  }

  lemma {:induction false} TwoAlike(db: set<Entry>, es: seq<Entry>, k: int, l: int)
    requires 0 <= k < l < |es| && SameKey(es[k], es[l])
    ensures Conflict(db, es)
  {
  }

  lemma {:induction false} OneAlike(db: set<Entry>, es: seq<Entry>, k: int, e: Entry)
    requires 0 <= k < |es| && e in db && SameKey(es[k], e)
    ensures Conflict(db, es)
  {
  }

  /** A clash is one between two name items, or between one and an entry of somebody else. */
  lemma {:induction false} ClashesIff(db: set<Entry>, items: seq<Item>, owner: nat, wildcards: bool)
    requires Parsed(items, owner, wildcards).Some?
    ensures Clashes(db, items, owner, wildcards) <==> Contested(db, items, owner)
  {
    ParsedListed(items, owner, wildcards);
    var es := Parsed(items, owner, wildcards).value;
    if Conflict(db - OwnedBy(db, owner), es) {
      ConflictFrom(db, items, owner, es);
    } else if Contested(db, items, owner) {
      ConflictOf(db, items, owner, es);
    }
  }

  /** The entries of others stay, and each name item has its entry. */
  ghost predicate RewrittenBy(db: set<Entry>, db': set<Entry>, items: seq<Item>, owner: nat) {
    forall e :: e in db' <==> (e in db && e.owner != owner) || NamedBy(items, owner, e)
  }

  lemma {:induction false} ReplacedMeans(
    db: set<Entry>, db': set<Entry>, items: seq<Item>, owner: nat, wildcards: bool)
    requires Replaced(db, db', items, owner, wildcards)
    ensures RewrittenBy(db, db', items, owner)
  {
    ParsedAre(items, owner, wildcards);
  }

  /** An entry beyond the first i clashes exactly when the table already has its key. */
  lemma {:induction false} NextClash(db: set<Entry>, es: seq<Entry>, i: nat)
    requires i < |es| && !Conflict(db, es[..i])
    ensures var table := db + Elements(es[..i]);
      (exists p :: p in table && es[i].name == p.name && es[i].wildcard == p.wildcard) <==> Conflict(db, es[..i + 1])
    ensures Conflict(db, es[..i + 1]) ==> Conflict(db, es)
  {
    var table, now := db + Elements(es[..i]), es[..i + 1];
    forall k, e | 0 <= k < i && e in db ensures !SameKey(es[k], e) {
      assert es[..i][k] == es[k];
    }
    forall k, j | 0 <= k < j < i ensures !SameKey(es[k], es[j]) {
      assert es[..i][k] == es[k] && es[..i][j] == es[j];
    }
    if p :| p in table && es[i].name == p.name && es[i].wildcard == p.wildcard {
      assert SameKey(now[i], p);
      if p !in db {
        var j :| 0 <= j < i && es[..i][j] == p;
        assert now[j] == p && SameKey(now[j], now[i]);
      }
    }
    if k, e :| 0 <= k < |now| && e in db && SameKey(now[k], e) {
      assert SameKey(es[k], e);
    } else if k, j :| 0 <= k < j < |now| && SameKey(now[k], now[j]) {
      assert SameKey(es[k], es[j]);
      assert es[..i][k] in Elements(es[..i]);
    }
  }

  // ---------------------------------------------------------------- queries

  /** strrchr(name, '.'). */
  function LastDot(name: string): (i: int)
    ensures -1 <= i < |name| && (i >= 0 ==> name[i] == '.') && forall k :: i < k < |name| ==> name[k] != '.'
  {
    if name == [] then -1 else if name[|name| - 1] == '.' then |name| - 1 else LastDot(name[..|name| - 1])
  }

  /** The entry applies to the name by itself, or as a wildcard for everything one level below it. */
  ghost predicate Exact(e: Entry, name: string) {
    e.name == name && !e.wildcard
  }

  ghost predicate Covers(e: Entry, name: string) {
    e.wildcard && LastDot(name) >= 0 && e.name == name[..LastDot(name)]
  }

  /** The name has one more element than the other. */
  predicate OneBelow(parent: string, name: string) {
    parent + "." <= name && '.' !in name[|parent| + 1..]
  }

  lemma {:induction false} LevelBelow(name: string)
    ensures forall parent :: OneBelow(parent, name) <==> LastDot(name) >= 0 && parent == name[..LastDot(name)]
  {
    var dot := LastDot(name);
    forall parent ensures OneBelow(parent, name) <==> dot >= 0 && parent == name[..dot] {
      if OneBelow(parent, name) {
        assert (parent + ".")[|parent|] == '.' && (parent + ".")[..|parent|] == parent;
      }
    }
  }

  ghost function Governing(db: set<Entry>, name: string): Option<Entry> {
    if exists e :: e in db && Exact(e, name) then (var e :| e in db && Exact(e, name); Some(e))
    else if exists e :: e in db && Covers(e, name) then (var e :| e in db && Covers(e, name); Some(e))
    else None
  }

  /** In a database without duplicates that entry is unique. */
  lemma {:induction false} GoverningIs(db: set<Entry>, name: string, e: Entry)
    requires Unique(db) && e in db && (Exact(e, name) || (Covers(e, name) && forall f :: f in db ==> !Exact(f, name)))
    ensures Governing(db, name) == Some(e)
  {
    var g := Governing(db, name).value;
    assert SameKey(e, g);
  }

  /** The entry bears the name, or nobody does and it is a wildcard one level above. */
  ghost predicate Governs(db: set<Entry>, e: Entry, name: string) {
    if e.wildcard then OneBelow(e.name, name) && forall f :: f in db && f.name == name ==> f.wildcard
    else e.name == name
  }

  lemma {:induction false} GovernsIs(db: set<Entry>, name: string)
    requires Unique(db)
    ensures forall e :: e in db && Governs(db, e, name) ==> Governing(db, name) == Some(e)
    ensures (forall e :: e in db ==> !Governs(db, e, name)) ==> Governing(db, name).None?
  {
    LevelBelow(name);
    forall e | e in db && Governs(db, e, name) ensures Governing(db, name) == Some(e) {
      GoverningIs(db, name, e);
    }
    if Governing(db, name).Some? {
      var e := Governing(db, name).value;
      assert e in db && Governs(db, e, name);
    }
  }

  /**
   After a successful set, the answer for a name is the highest access among the items between the governing
   name item and the next one that apply to the caller.
   */
  lemma {:induction false} SetThenQuery(
    db: set<Entry>, db': set<Entry>, items: seq<Item>, owner: nat, i: nat, name: string, cred: Cred, highest: int)
    requires Unique(db') && RewrittenBy(db, db', items, owner) && i < |items| && items[i].NameItem?
    requires Governs(db', EntryAt(items, i, owner), name)
    requires Governing(db', name).Some? ==> HighestOf(Governing(db', name).value.accessList, cred, highest)
    ensures forall j :: i < j < NextName(items, i) && items[j].AccessItem? && items[j].access.access > highest ==>
      var a := items[j].access;
      || (a.User? && a.uid != cred.euid)
      || (a.Group? && a.gid != cred.egid && a.gid !in cred.groups)
    ensures highest == -1 || exists j ::
      && i < j < NextName(items, i) && items[j].AccessItem? && items[j].access.access == highest
      && var a := items[j].access;
         || a.World? || (a.User? && a.uid == cred.euid)
         || (a.Group? && (a.gid == cred.egid || a.gid in cred.groups))
  {
    var seg := items[i + 1..NextName(items, i)];
    assert EntryAt(items, i, owner) in db';
    GovernsIs(db', name);
    HighestAmong(seg, cred, highest);
    forall j | i < j < NextName(items, i) && items[j].AccessItem? && items[j].access.access > highest
      ensures !Grants(items[j].access, cred)
    {
      assert seg[j - i - 1] == items[j];
    }
    if highest != -1 {
      var k :| 0 <= k < |seg| && seg[k].AccessItem? && Grants(seg[k].access, cred) && seg[k].access.access == highest;
      assert items[i + 1 + k] == seg[k];
    }
  }

  lemma {:induction false} HighestAmong(seg: seq<Item>, cred: Cred, highest: int)
    requires HighestOf(AccessesIn(seg), cred, highest)
    ensures forall j :: 0 <= j < |seg| && seg[j].AccessItem? && Grants(seg[j].access, cred) ==>
      seg[j].access.access <= highest
    ensures highest == -1 || exists j ::
      0 <= j < |seg| && seg[j].AccessItem? && Grants(seg[j].access, cred) && seg[j].access.access == highest
  {
    forall j | 0 <= j < |seg| && seg[j].AccessItem? ensures seg[j].access in AccessesIn(seg) {
      AccessesAre(seg, seg[j].access);
    }
    if highest != -1 {
      var a :| a in AccessesIn(seg) && Grants(a, cred) && a.access == highest;
      AccessesAre(seg, a);
    }
  }

  ghost predicate Grants(a: Access, cred: Cred) {
    match a
    case User(_, uid) => cred.euid == uid
    case Group(_, gid) => cred.egid == gid || gid in cred.groups
    case World(_) => true
  }

  /** The maximum of the granted accesses, or none. */
  ghost predicate HighestOf(list: seq<Access>, cred: Cred, highest: int) {
    && (forall a :: a in list && Grants(a, cred) ==> a.access <= highest)
    && (highest == NO_ACCESS || exists a :: a in list && Grants(a, cred) && a.access == highest)
  }

  // ---------------------------------------------------------------- names and wildcards

  const NAME_MAX_LEN := 255

  predicate IsAlpha(c: char) {
    'a' <= c <= 'z' || 'A' <= c <= 'Z'
  }

  predicate IsDigit(c: char) {
    '0' <= c <= '9'
  }

  /**
   The character may stand at position i: elements are not empty, do not start with a digit, and
   only the last may be a star.
   */
  ghost predicate GoodAt(p: string, i: nat, wildcards: bool)
    requires i < |p|
  {
    var starts := i == 0 || p[i - 1] == '.';
    if p[i] == '.' then !starts
    else
      || IsAlpha(p[i]) || (!starts && IsDigit(p[i])) || p[i] == '_' || p[i] == '-'
      || (wildcards && starts && p[i] == '*' && i + 1 == |p|)
  }

  /** Two or more elements separated by periods. */
  ghost predicate ValidName(p: string, wildcards: bool) {
    && (forall i :: 0 <= i < |p| ==> GoodAt(p, i, wildcards))
    && 0 < |p| <= NAME_MAX_LEN && p[|p| - 1] != '.' && '.' in p
  }

  /** An element of the name: what stands between two periods, or between one and an end of the name. */
  ghost predicate IsElement(p: string, i: int, j: int) {
    && 0 <= i <= j <= |p| && (i == 0 || p[i - 1] == '.') && (j == |p| || p[j] == '.')
    && forall k :: i <= k < j ==> p[k] != '.'
  }

  /** Letters, digits, underscores and hyphens, at least one of them, and no digit in front. */
  ghost predicate Identifier(s: string) {
    && |s| > 0 && !('0' <= s[0] <= '9')
    && forall k :: 0 <= k < |s| ==>
         'a' <= s[k] <= 'z' || 'A' <= s[k] <= 'Z' || '0' <= s[k] <= '9' || s[k] == '_' || s[k] == '-'
  }

  /** The elements are identifiers, except that the last may be a star if wildcards are allowed. */
  ghost predicate WellFormed(p: string, wildcards: bool) {
    && '.' in p && |p| <= 255
    && forall i, j :: IsElement(p, i, j) ==>
         Identifier(p[i..j]) || (wildcards && j == |p| && p[i..j] == "*")
  }

  /** The element around position k. */
  lemma {:induction false} ElementAround(p: string, k: nat) returns (i: nat, j: nat)
    requires k <= |p| && (k < |p| ==> p[k] != '.')
    ensures IsElement(p, i, j) && i <= k <= j
  {
    i := LastDot(p[..k]) + 1;
    j := k;
    while j < |p| && p[j] != '.'
      invariant k <= j <= |p| && forall m :: k <= m < j ==> p[m] != '.'
    {
      j := j + 1;
    }
    assert forall m :: i <= m < k ==> p[..k][m] == p[m];
  }

  lemma {:induction false} ElementGood(p: string, wildcards: bool, i: nat, j: nat)
    requires ValidName(p, wildcards) && IsElement(p, i, j)
    ensures Identifier(p[i..j]) || (wildcards && j == |p| && p[i..j] == "*")
  {
    assert i < |p| ==> GoodAt(p, i, wildcards);
    assert i < j;
    if p[i] == '*' {
      assert p[i..j] == "*";
    } else {
      forall k | 0 <= k < j - i
        ensures p[i..j][k] == p[i + k] && (IsAlpha(p[i + k]) || IsDigit(p[i + k]) || p[i + k] == '_' || p[i + k] == '-')
      {
        assert GoodAt(p, i + k, wildcards) && (k > 0 ==> p[i + k - 1] != '.');
      }
    }
  }

  lemma {:induction false} NoneEmpty(p: string, wildcards: bool, i: nat)
    requires WellFormed(p, wildcards) && i <= |p|
    ensures !IsElement(p, i, i)
  {
    assert !Identifier(p[i..i]);
  }

  lemma {:induction false} CharacterGood(p: string, wildcards: bool, k: nat)
    requires WellFormed(p, wildcards) && k < |p|
    ensures GoodAt(p, k, wildcards)
  {
    if p[k] == '.' {
      NoneEmpty(p, wildcards, k);
    } else {
      var i, j := ElementAround(p, k);
      assert p[i..j][k - i] == p[k] && p[i..j][0] == p[i];
    }
  }

  /** The check of single characters comes to the rules for elements. */
  lemma {:induction false} ValidIsWellFormed(p: string, wildcards: bool)
    ensures ValidName(p, wildcards) <==> WellFormed(p, wildcards)
  {
    if ValidName(p, wildcards) {
      forall i, j | IsElement(p, i, j)
        ensures Identifier(p[i..j]) || (wildcards && j == |p| && p[i..j] == "*")
      {
        ElementGood(p, wildcards, i, j);
      }
    }
    if WellFormed(p, wildcards) {
      forall k | 0 <= k < |p| ensures GoodAt(p, k, wildcards) {
        CharacterGood(p, wildcards, k);
      }
      NoneEmpty(p, wildcards, |p|);
    }
  }

  /** kdbus_name_is_valid. */
  method NameIsValid(p: string, wildcards: bool) returns (ok: bool)
    ensures ok <==> ValidName(p, wildcards)
    ensures ok <==> WellFormed(p, wildcards)
  {
    ValidIsWellFormed(p, wildcards);
    var dot, foundDot, q := true, false, 0;
    while q < |p|
      invariant 0 <= q <= |p| && (dot <==> q == 0 || p[q - 1] == '.') && (foundDot <==> '.' in p[..q])
      invariant forall i :: 0 <= i < q ==> GoodAt(p, i, wildcards)
    {
      assert p[..q + 1] == p[..q] + [p[q]];
      if p[q] == '.' {
        if dot {
          assert !GoodAt(p, q, wildcards);
          return false;
        }
        foundDot, dot := true, true;
      } else {
        var star := wildcards && dot && p[q] == '*' && q + 1 == |p|;
        var good := IsAlpha(p[q]) || (!dot && IsDigit(p[q])) || p[q] == '_' || p[q] == '-' || star;
        if !good {
          assert !GoodAt(p, q, wildcards);
          return false;
        }
        dot := false;
      }
      q := q + 1;
    }
    assert p[..q] == p;
    return |p| <= NAME_MAX_LEN && !dot && foundDot;
  }

  /** The test for a trailing ".*" in kdbus_policy_set, on the length of the name without its end. */
  predicate WildcardTest(name: string) {
    var len := |name|;
    len > 2 && name[len - 3] == '.' && name[len - 2] == '*'
  }

  /** The name asks for a wildcard. */
  predicate EndsInStar(name: string) {
    |name| >= 2 && name[|name| - 2] == '.' && name[|name| - 1] == '*'
  }

  /**
   The test fires on no name that passes the check before it, and so never on one that does end
   in ".*": it is off by one, and recognises exactly the names with one more character.
   */
  lemma {:induction false} WildcardTestNeverFires(name: string)
    ensures ValidName(name, true) ==> !WildcardTest(name)
    ensures WildcardTest(name) <==> |name| >= 3 && EndsInStar(name[..|name| - 1])
  {
    if ValidName(name, true) && |name| > 2 {
      assert GoodAt(name, |name| - 2, true);
    }
  }

  lemma WildcardNamesExist()
    ensures ValidName("a.*", true) && EndsInStar("a.*") && !WildcardTest("a.*")
  {
    var n := "a.*";
    assert GoodAt(n, 0, true) && GoodAt(n, 1, true) && GoodAt(n, 2, true);
  }
}
