/** The owner manager as the object it is: links, a count and a threshold
    rewritten in place, proved against the list the owners read as. */
module OwnerRing {
  import opened Prelude
  import opened OwnerSets
  import opened OwnerProgram
  import opened OwnerManager
  import opened Safes

  class Ring {
    const safe: Address
    var next: map<Address, Address>
    var count: nat
    var threshold: nat
    /** The owners, first one first. */
    ghost var list: seq<Address>

    ghost function Store(): OwnerStore
      reads this
    {
      OwnerStore(next, count, threshold)
    }

    ghost predicate Valid()
      reads this
    {
      Reads(safe, Store(), OwnerSet(list, threshold))
    }

    /** `setup` by a deployer that is to own the Safe alone. */
    constructor (safe: Address, deployer: Address)
      requires !Reserved(deployer, safe)
      ensures Valid() && this.safe == safe && list == [deployer] && threshold == 1
    {
      this.safe := safe;
      next, count, threshold := map[SENTINEL_OWNERS := deployer, deployer := SENTINEL_OWNERS], 1, 1;
      list := [deployer];
      new;
      SetupIsBootstrap(safe, deployer);
    }

    /** Follows the links from the sentinel back to it. */
    method GetOwners() returns (owners: seq<Address>)
      requires Valid()
      ensures owners == list
    {
      owners := [];
      var at := next[SENTINEL_OWNERS];
      assert next[Node(list, 0)] == Node(list, 1);
      while at != SENTINEL_OWNERS
        invariant |owners| <= |list| && owners == list[..|owners|] && at == Node(list, |owners| + 1)
        decreases |list| - |owners|
      {
        assert next[Node(list, |owners| + 1)] == Node(list, |owners| + 2);
        owners := owners + [at];
        at := next[at];
      }
      OnlyTheEndIsTheSentinel(list, |owners|);
    }

    /** Links `owner` in at the head, under a threshold the owners can meet. */
    method AddOwnerWithThreshold(owner: Address, t: nat) returns (ok: bool)
      requires Valid()
      modifies this
      ensures Valid()
      ensures ok <==> !Reserved(owner, safe) && owner !in old(list) && 1 <= t <= |old(list)| + 1
      ensures if ok then list == [owner] + old(list) && threshold == t
              else list == old(list) && threshold == old(threshold)
    {
      if Reserved(owner, safe) { return false; }  // GS203
      ghost var s := OwnerSet(list, threshold);
      ManageAddRefines(safe, Store(), s, owner, t);
      if owner in next && next[owner] != ZERO { return false; }  // GS204
      var first := next[SENTINEL_OWNERS];
      if t != threshold && (t > count + 1 || t < 1) { return false; }  // GS201, GS202
      next := next[owner := first][SENTINEL_OWNERS := owner];
      count, threshold := count + 1, t;
      list := [owner] + list;
      ok := true;
    }

    /** Unlinks `owner`, which has to follow `prev`. */
    method RemoveOwner(prev: Address, owner: Address, t: nat) returns (ok: bool)
      requires Valid()
      modifies this
      ensures Valid()
      ensures var i := Position(old(list), owner);
              && (ok <==> i < |old(list)| && prev == Previous(old(list), i) && 1 <= t < |old(list)|)
              && if ok then list == RemoveAt(old(list), i) && threshold == t
                 else list == old(list) && threshold == old(threshold)
    {
      ghost var s := OwnerSet(list, threshold);
      ManageRemoveRefines(safe, Store(), s, prev, owner, t);
      if count < t + 1 { return false; }  // GS201
      if owner == ZERO || owner == SENTINEL_OWNERS { return false; }  // GS203
      if prev !in next || next[prev] != owner { return false; }  // GS205
      var after := if owner in next then next[owner] else ZERO;
      if t != threshold && (t > count - 1 || t < 1) { return false; }  // GS201, GS202
      next := next[prev := after] - {owner};
      count, threshold := count - 1, t;
      list := RemoveAt(list, Position(list, owner));
      ok := true;
    }

    method ChangeThreshold(t: nat) returns (ok: bool)
      requires Valid()
      modifies this`threshold
      ensures Valid() && list == old(list)
      ensures ok <==> 1 <= t <= |list|
      ensures threshold == if ok then t else old(threshold)
    {
      ok := 1 <= t <= count;
      if ok { threshold := t; }
    }

    method Call(call: OwnerCall) returns (ok: bool)
      requires Valid() && (call.AddOwnerWithThreshold? ==> !Reserved(call.owner, safe))
      modifies this
      ensures Valid() && ok == ReplayOne(old(OwnerSet(list, threshold)), call).Some?
      ensures OwnerSet(list, threshold)
              == if ok then ReplayOne(old(OwnerSet(list, threshold)), call).value else old(OwnerSet(list, threshold))
    {
      match call
      case AddOwnerWithThreshold(owner, t) => ok := AddOwnerWithThreshold(owner, t);
      case RemoveOwner(prev, owner, t) => ok := RemoveOwner(prev, owner, t);
      case ChangeThreshold(t) => ok := ChangeThreshold(t);
    }

    /** The hand-over, call by call: none is refused, and the owners end as
        declared. */
    method HandOver(target: OwnerSet, calls: seq<OwnerCall>) returns (ok: bool)
      requires Valid() && Usable(safe, target) && calls == Program(OwnerSet(list, threshold), target)
      modifies this
      ensures ok && Valid() && OwnerSet(list, threshold).SameAs(target)
    {
      ghost var on := OwnerSet(list, threshold);
      ProgramReachesTarget(on, target);
      ok := true;
      for i := 0 to |calls|
        invariant ok && Valid() && Replay(on, calls[..i]) == Some(OwnerSet(list, threshold))
      {
        ReplayFurther(on, calls, i);
        AddsNoReserved(safe, on, target, calls[i]);
        ok := Call(calls[i]);
      }
      assert calls[..|calls|] == calls;
    }
  }

  lemma ReplayFurther(s: OwnerSet, calls: seq<OwnerCall>, i: nat)
    requires i < |calls| && Replay(s, calls).Some? && Replay(s, calls[..i]).Some?
    ensures ReplayOne(Replay(s, calls[..i]).value, calls[i]).Some?
    ensures Replay(s, calls[..i + 1]) == ReplayOne(Replay(s, calls[..i]).value, calls[i])
  {
    assert calls[..i + 1] == calls[..i] + [calls[i]] && calls == calls[..i + 1] + calls[i + 1..];
    ReplaySnoc(s, calls[..i], calls[i]);
    ReplayAppend(s, calls[..i + 1], calls[i + 1..]);
  }

  lemma AddsNoReserved(safe: Address, on: OwnerSet, target: OwnerSet, call: OwnerCall)
    requires Usable(safe, target) && call in Program(on, target)
    ensures call.AddOwnerWithThreshold? ==> !Reserved(call.owner, safe)
  {
    ProgramCalls(on, target);
  }

  lemma OnlyTheEndIsTheSentinel(list: seq<Address>, k: nat)
    requires SENTINEL_OWNERS !in list && k <= |list|
    ensures Node(list, k + 1) == SENTINEL_OWNERS <==> k == |list|
  {
    if k < |list| { assert list[k] in list; }
  }
}
