/** Safe v1.4.1's owner manager: the owners as one linked list headed by the
    sentinel, and the proof that it reads as the list `ReplayOne` works on. */
module OwnerManager {
  import opened Prelude
  import opened OwnerSets
  import opened OwnerProgram

  /** `next[a]` is the owner after `a`; an absent key is the zero address. */
  datatype OwnerStore = OwnerStore(next: map<Address, Address>, count: nat, threshold: nat)

  function After(store: OwnerStore, a: Address): Address {
    if a in store.next then store.next[a] else ZERO
  }

  function SetThreshold(store: OwnerStore, t: nat): Option<OwnerStore> {
    if t == store.threshold then Some(store)
    else if t > store.count then None  // GS201
    else if t < 1 then None  // GS202
    else Some(store.(threshold := t))
  }

  /** One call from the Safe at `safe` to itself; nothing when it reverts. */
  function Manage(safe: Address, store: OwnerStore, call: OwnerCall): Option<OwnerStore> {
    match call
    case AddOwnerWithThreshold(owner, t) =>
      if Reserved(owner, safe) then None  // GS203
      else if After(store, owner) != ZERO then None  // GS204
      else
        var linked := store.next[owner := After(store, SENTINEL_OWNERS)][SENTINEL_OWNERS := owner];
        SetThreshold(store.(next := linked, count := store.count + 1), t)
    case RemoveOwner(prev, owner, t) =>
      if store.count < t + 1 then None  // GS201
      else if owner == ZERO || owner == SENTINEL_OWNERS then None  // GS203
      else if After(store, prev) != owner then None  // GS205
      else
        var unlinked := store.next[prev := After(store, owner)] - {owner};
        SetThreshold(store.(next := unlinked, count := store.count - 1), t)
    case ChangeThreshold(t) =>
      if t > store.count || t < 1 then None else Some(store.(threshold := t))
  }

  /** The calls of one batch, which reverts as a whole. */
  function ManageAll(safe: Address, store: OwnerStore, calls: seq<OwnerCall>): Option<OwnerStore>
    decreases |calls|
  {
    if calls == [] then Some(store)
    else
      var next := Manage(safe, store, calls[0]);
      if next.None? then None else ManageAll(safe, next.value, calls[1..])
  }

  // ----- The list the links spell -----

  /** Node `i` of the ring: the sentinel, the owners, the sentinel again. */
  function Node(list: seq<Address>, i: int): Address {
    if 1 <= i <= |list| then list[i - 1] else SENTINEL_OWNERS
  }

  /** The links are one ring from the sentinel through exactly `list`. */
  ghost predicate Linked(next: map<Address, Address>, list: seq<Address>) {
    && Distinct(list) && ZERO !in list && SENTINEL_OWNERS !in list
    && next.Keys == Elements(list) + {SENTINEL_OWNERS}
    && forall i :: 0 <= i <= |list| ==> next[Node(list, i)] == Node(list, i + 1)
  }

  ghost predicate Reads(safe: Address, store: OwnerStore, s: OwnerSet) {
    && Usable(safe, s)
    && Linked(store.next, s.owners)
    && store.count == |s.owners| && store.threshold == s.threshold
  }

  /** `getOwners`: follows `count` links from the sentinel. */
  function Walk(next: map<Address, Address>, at: Address, n: nat): seq<Address>
    decreases n
  {
    if n == 0 || at !in next then [] else [next[at]] + Walk(next, next[at], n - 1)
  }

  function OwnersOf(store: OwnerStore): OwnerSet {
    OwnerSet(Walk(store.next, SENTINEL_OWNERS, store.count), store.threshold)
  }

  /** The store of a Safe its owners can use. */
  ghost predicate Healthy(safe: Address, store: OwnerStore) {
    Reads(safe, store, OwnersOf(store))
  }

  lemma {:induction false} WalkFollowsTheRing(next: map<Address, Address>, list: seq<Address>, i: nat)
    requires Linked(next, list) && i <= |list|
    ensures Walk(next, Node(list, i), |list| - i) == list[i..]
    decreases |list| - i
  {
    if i < |list| {
      assert next[Node(list, i)] == Node(list, i + 1) == list[i];
      WalkFollowsTheRing(next, list, i + 1);
      assert list[i..] == [list[i]] + list[i + 1..];
    }
  }

  lemma ReadsIsGetOwners(safe: Address, store: OwnerStore, s: OwnerSet)
    requires Reads(safe, store, s)
    ensures OwnersOf(store) == s && Healthy(safe, store)
  {
    WalkFollowsTheRing(store.next, s.owners, 0);
  }

  /** In a ring, the only link to an owner is its predecessor's. */
  lemma OnlyPredecessorLinks(next: map<Address, Address>, list: seq<Address>, i: nat, a: Address)
    requires Linked(next, list) && i < |list|
    ensures a in next && next[a] == list[i] <==> a == Previous(list, i)
  {
    assert Previous(list, i) == Node(list, i);
    assert next[Node(list, i)] == Node(list, i + 1);
    if a in next && next[a] == list[i] {
      if a == SENTINEL_OWNERS {
        assert next[Node(list, 0)] == Node(list, 1);
      } else {
        assert a in Elements(list);
        var k :| 0 <= k < |list| && list[k] == a;
        assert next[Node(list, k + 1)] == Node(list, k + 2);
      }
    }
  }

  /** Inserting at the head keeps one ring. */
  lemma AddKeepsTheRing(next: map<Address, Address>, list: seq<Address>, owner: Address)
    requires Linked(next, list) && owner !in list && owner != ZERO && owner != SENTINEL_OWNERS
    ensures Linked(next[owner := next[SENTINEL_OWNERS]][SENTINEL_OWNERS := owner], [owner] + list)
  {
    var linked := next[owner := next[SENTINEL_OWNERS]][SENTINEL_OWNERS := owner];
    var grown := [owner] + list;
    assert grown[0] == owner;
    ElementsCons(grown);
    assert grown[1..] == list;
    forall i | 0 <= i <= |grown| ensures linked[Node(grown, i)] == Node(grown, i + 1) {
      if i == 1 {
        assert next[Node(list, 0)] == Node(list, 1);
      } else if i > 1 {
        assert Node(grown, i) == Node(list, i - 1) == list[i - 2];
        assert next[Node(list, i - 1)] == Node(list, i);
      }
    }
  }

  /** Unlinking any owner keeps one ring. */
  lemma RemoveKeepsTheRing(next: map<Address, Address>, list: seq<Address>, i: nat)
    requires Linked(next, list) && i < |list|
    ensures list[i] in next
    ensures Linked(next[Previous(list, i) := next[list[i]]] - {list[i]}, RemoveAt(list, i))
  {
    var owner, prev, left := list[i], Previous(list, i), RemoveAt(list, i);
    assert owner in Elements(list);
    assert i > 0 ==> prev in Elements(list);
    RemoveAtElements(list, i);
    var unlinked := next[prev := next[owner]] - {owner};
    assert ZERO !in left && SENTINEL_OWNERS !in left by {
      assert ZERO !in Elements(list) && SENTINEL_OWNERS !in Elements(list);
      assert ZERO !in Elements(left) && SENTINEL_OWNERS !in Elements(left);
    }
    forall k | 0 <= k <= |left| ensures unlinked[Node(left, k)] == Node(left, k + 1) {
      var j := if k <= i then k else k + 1;
      assert Node(left, k) == Node(list, j);
      assert next[Node(list, j)] == Node(list, j + 1);
      assert next[Node(list, i + 1)] == Node(list, i + 2);
    }
  }

  lemma ManageAddRefines(safe: Address, store: OwnerStore, s: OwnerSet, owner: Address, t: nat)
    requires Reads(safe, store, s) && !Reserved(owner, safe)
    ensures var call := AddOwnerWithThreshold(owner, t);
            && Manage(safe, store, call).Some? == ReplayOne(s, call).Some?
            && (ReplayOne(s, call).Some? ==> Reads(safe, Manage(safe, store, call).value, ReplayOne(s, call).value))
  {
    assert owner in store.next <==> owner in Elements(s.owners);
    if owner in s.owners {
      var k :| 0 <= k < |s.owners| && s.owners[k] == owner;
      assert store.next[Node(s.owners, k + 1)] == Node(s.owners, k + 2);
      assert After(store, owner) != ZERO by {
        if k + 1 < |s.owners| { assert s.owners[k + 1] != ZERO; }
      }
    } else {
      AddKeepsTheRing(store.next, s.owners, owner);
    }
  }

  lemma ManageRemoveRefines(safe: Address, store: OwnerStore, s: OwnerSet, prev: Address, owner: Address, t: nat)
    requires Reads(safe, store, s)
    ensures var call := RemoveOwner(prev, owner, t);
            && Manage(safe, store, call).Some? == ReplayOne(s, call).Some?
            && (ReplayOne(s, call).Some? ==> Reads(safe, Manage(safe, store, call).value, ReplayOne(s, call).value))
  {
    var list := s.owners;
    var i := Position(list, owner);
    if i == |list| {
      if After(store, prev) == owner && owner != ZERO && owner != SENTINEL_OWNERS {
        UnlistedIsUnlinked(store.next, list, prev);
      }
    } else {
      OnlyPredecessorLinks(store.next, list, i, prev);
      if prev == Previous(list, i) {
        RemoveKeepsTheRing(store.next, list, i);
        RemoveAtElements(list, i);
        assert safe !in Elements(list);
        assert safe !in Elements(RemoveAt(list, i));
      }
    }
  }

  /** Every link leads to a listed owner or back to the sentinel. */
  lemma UnlistedIsUnlinked(next: map<Address, Address>, list: seq<Address>, a: Address)
    requires Linked(next, list) && a in next
    ensures next[a] == SENTINEL_OWNERS || next[a] in list
  {
    if a == SENTINEL_OWNERS {
      assert next[Node(list, 0)] == Node(list, 1);
    } else {
      assert a in Elements(list);
      var k :| 0 <= k < |list| && list[k] == a;
      assert next[Node(list, k + 1)] == Node(list, k + 2);
    }
  }

  /** The contract accepts exactly what the list replay accepts, and moves to
      the ring that reads as the replayed list. */
  lemma ManageRefinesReplay(safe: Address, store: OwnerStore, s: OwnerSet, call: OwnerCall)
    requires Reads(safe, store, s)
    requires call.AddOwnerWithThreshold? ==> !Reserved(call.owner, safe)
    ensures Manage(safe, store, call).Some? == ReplayOne(s, call).Some?
    ensures ReplayOne(s, call).Some? ==> Reads(safe, Manage(safe, store, call).value, ReplayOne(s, call).value)
  {
    match call
    case AddOwnerWithThreshold(owner, t) => ManageAddRefines(safe, store, s, owner, t);
    case RemoveOwner(prev, owner, t) => ManageRemoveRefines(safe, store, s, prev, owner, t);
    case ChangeThreshold(t) =>
  }

  /** Whole programs: the ring and the list go through the same states. */
  lemma {:induction false} ManageAllRefinesReplay(safe: Address, store: OwnerStore, s: OwnerSet, calls: seq<OwnerCall>)
    requires Reads(safe, store, s)
    requires forall c :: c in calls && c.AddOwnerWithThreshold? ==> !Reserved(c.owner, safe)
    ensures ManageAll(safe, store, calls).Some? == Replay(s, calls).Some?
    ensures Replay(s, calls).Some? ==> Reads(safe, ManageAll(safe, store, calls).value, Replay(s, calls).value)
    decreases |calls|
  {
    if calls != [] {
      assert calls[0] in calls;
      ManageRefinesReplay(safe, store, s, calls[0]);
      var next := ReplayOne(s, calls[0]);
      if next.Some? {
        ManageAllRefinesReplay(safe, Manage(safe, store, calls[0]).value, next.value, calls[1..]);
      }
    }
  }

  /** No batch the contract accepts, whoever wrote it, breaks the ring. */
  lemma {:induction false} ManageAllKeepsHealthy(safe: Address, store: OwnerStore, calls: seq<OwnerCall>)
    requires Healthy(safe, store) && ManageAll(safe, store, calls).Some?
    ensures Healthy(safe, ManageAll(safe, store, calls).value)
    decreases |calls|
  {
    if calls != [] {
      var s := OwnersOf(store);
      ManageRefinesReplay(safe, store, s, calls[0]);
      var next := Manage(safe, store, calls[0]).value;
      ReadsIsGetOwners(safe, next, ReplayOne(s, calls[0]).value);
      ManageAllKeepsHealthy(safe, next, calls[1..]);
    }
  }

  /** `setup` with the deployer alone. */
  function Setup(deployer: Address): OwnerStore {
    OwnerStore(map[SENTINEL_OWNERS := deployer, deployer := SENTINEL_OWNERS], 1, 1)
  }

  lemma SetupIsBootstrap(safe: Address, deployer: Address)
    requires !Reserved(deployer, safe)
    ensures Reads(safe, Setup(deployer), BootstrapOwners(deployer))
    ensures OwnersOf(Setup(deployer)) == BootstrapOwners(deployer) && Healthy(safe, Setup(deployer))
  {
    var list := [deployer];
    assert Elements(list) == {deployer};
    assert Linked(Setup(deployer).next, list) by {
      assert Node(list, 0) == SENTINEL_OWNERS && Node(list, 1) == deployer && Node(list, 2) == SENTINEL_OWNERS;
    }
    ReadsIsGetOwners(safe, Setup(deployer), BootstrapOwners(deployer));
  }
}
