/** The owner-manager calls that turn one owner set into another, the list
    they are replayed on, and why no shorter program does much better. */
module OwnerProgram {
  import opened Prelude
  import opened OwnerSets

  datatype OwnerCall =
    | AddOwnerWithThreshold(owner: Address, threshold: nat)
    | RemoveOwner(prevOwner: Address, owner: Address, threshold: nat)
    | ChangeThreshold(threshold: nat)

  // ----- What a Safe does with a call, on its owners read as a list -----

  function Position(list: seq<Address>, owner: Address): (i: nat)
    ensures i <= |list|
    ensures forall k :: 0 <= k < i ==> list[k] != owner
    ensures i < |list| ==> list[i] == owner
  {
    if list == [] then 0
    else if list[0] == owner then 0
    else Position(list[1..], owner) + 1
  }

  /** The owner before index `i`, the sentinel before the first one. */
  function Previous(list: seq<Address>, i: nat): Address
    requires i <= |list|
  {
    if i == 0 then SENTINEL_OWNERS else list[i - 1]
  }

  /** One call, refused as Safe's owner manager refuses it. */
  function ReplayOne(s: OwnerSet, call: OwnerCall): Option<OwnerSet> {
    var next := match call
      case AddOwnerWithThreshold(owner, t) =>
        if owner in s.owners then None else Some(OwnerSet([owner] + s.owners, t))
      case RemoveOwner(prev, owner, t) =>
        var i := Position(s.owners, owner);
        if |s.owners| <= t || i == |s.owners| || prev != Previous(s.owners, i) then None
        else Some(OwnerSet(RemoveAt(s.owners, i), t))
      case ChangeThreshold(t) => Some(OwnerSet(s.owners, t));
    if next.Some? && 1 <= next.value.threshold <= |next.value.owners| then next else None
  }

  function Replay(s: OwnerSet, calls: seq<OwnerCall>): Option<OwnerSet>
    decreases |calls|
  {
    if calls == [] then Some(s)
    else
      var next := ReplayOne(s, calls[0]);
      if next.None? then None else Replay(next.value, calls[1..])
  }

  lemma ReplayCons(s: OwnerSet, call: OwnerCall, rest: seq<OwnerCall>)
    ensures Replay(s, [call] + rest) ==
            if ReplayOne(s, call).None? then None else Replay(ReplayOne(s, call).value, rest)
  {
    assert ([call] + rest)[1..] == rest;
  }

  lemma ReplaySingle(s: OwnerSet, call: OwnerCall)
    ensures Replay(s, [call]) == ReplayOne(s, call)
  {
    assert [call] + [] == [call];
    ReplayCons(s, call, []);
  }

  lemma {:induction false} ReplayAppend(s: OwnerSet, a: seq<OwnerCall>, b: seq<OwnerCall>)
    ensures Replay(s, a + b) ==
            if Replay(s, a).None? then None else Replay(Replay(s, a).value, b)
    decreases |a|
  {
    if a == [] {
      assert a + b == b;
    } else {
      assert (a + b)[1..] == a[1..] + b;
      var next := ReplayOne(s, a[0]);
      if next.Some? { ReplayAppend(next.value, a[1..], b); }
    }
  }

  lemma ReplaySnoc(s: OwnerSet, calls: seq<OwnerCall>, last: OwnerCall)
    ensures Replay(s, calls + [last]) ==
            if Replay(s, calls).None? then None else ReplayOne(Replay(s, calls).value, last)
  {
    ReplayAppend(s, calls, [last]);
    if Replay(s, calls).Some? { ReplaySingle(Replay(s, calls).value, last); }
  }

  // ----- The program -----

  /** The members of `s` outside `list`, in their order. */
  function Outside(s: seq<Address>, list: seq<Address>): (r: seq<Address>)
    ensures Elements(r) == Elements(s) - Elements(list)
  {
    if s == [] then []
    else
      var rest := Outside(s[1..], list);
      ElementsCons(s);
      ElementsAppend([s[0]], rest);
      if s[0] in list then rest else [s[0]] + rest
  }

  /** The members of `s` inside `list`, in their order. */
  function Inside(s: seq<Address>, list: seq<Address>): (r: seq<Address>)
    ensures Elements(r) == Elements(s) * Elements(list)
  {
    if s == [] then []
    else
      var rest := Inside(s[1..], list);
      ElementsCons(s);
      ElementsAppend([s[0]], rest);
      if s[0] in list then [s[0]] + rest else rest
  }

  /** One insertion at the head per owner of `missing`, last one first. */
  function AddCalls(missing: seq<Address>, threshold: nat): seq<OwnerCall> {
    if missing == [] then []
    else AddCalls(missing[1..], threshold) + [AddOwnerWithThreshold(missing[0], threshold)]
  }

  /** The index of the first owner the target lacks, the length if none. */
  function FirstExtra(list: seq<Address>, target: seq<Address>): (i: nat)
    ensures i <= |list|
    ensures forall k :: 0 <= k < i ==> list[k] in target
    ensures i < |list| ==> list[i] !in target
  {
    if list == [] then 0
    else if list[0] !in target then 0
    else FirstExtra(list[1..], target) + 1
  }

  function Min(a: nat, b: nat): nat { if a <= b then a else b }

  /** The removals, first extra owner first; each lowers the threshold to the
      owners it leaves. */
  function RemoveCalls(list: seq<Address>, target: seq<Address>, threshold: nat): seq<OwnerCall>
    decreases |list|
  {
    var i := FirstExtra(list, target);
    if i == |list| then []
    else
      var rest := RemoveAt(list, i);
      var t := Min(threshold, |rest|);
      [RemoveOwner(Previous(list, i), list[i], t)] + RemoveCalls(rest, target, t)
  }

  /** The list and threshold the additions and removals leave. */
  function Kept(on: OwnerSet, target: OwnerSet): OwnerSet {
    var owners := Outside(target.owners, on.owners) + Inside(on.owners, target.owners);
    OwnerSet(owners, Min(on.threshold, |owners|))
  }

  function OwnerCalls(on: OwnerSet, target: OwnerSet): seq<OwnerCall> {
    var missing := Outside(target.owners, on.owners);
    AddCalls(missing, on.threshold) + RemoveCalls(missing + on.owners, target.owners, on.threshold)
  }

  /** Add what is missing, remove what is extra, then set the threshold. */
  function Program(on: OwnerSet, target: OwnerSet): seq<OwnerCall> {
    OwnerCalls(on, target)
    + if Kept(on, target).threshold != target.threshold
      then [ChangeThreshold(target.threshold)] else []
  }

  // ----- The loops that build it -----

  lemma {:induction false} OutsideSnoc(s: seq<Address>, list: seq<Address>)
    requires s != []
    ensures Outside(s, list) ==
            Outside(s[..|s| - 1], list) + (if s[|s| - 1] in list then [] else [s[|s| - 1]])
  {
    if |s| > 1 {
      OutsideSnoc(s[1..], list);
      assert s[1..][..|s| - 2] == s[..|s| - 1][1..];
    } else {
      assert s[1..] == [];
    }
  }

  lemma {:induction false} OutsideCons(o: Address, s: seq<Address>, list: seq<Address>)
    ensures Outside([o] + s, list) == (if o in list then [] else [o]) + Outside(s, list)
  {
    assert ([o] + s)[1..] == s;
  }

  lemma {:induction false} OutsideDistinct(s: seq<Address>, list: seq<Address>)
    requires Distinct(s)
    ensures Distinct(Outside(s, list)) && |Outside(s, list)| <= |s|
  {
    if s != [] {
      OutsideDistinct(s[1..], list);
      assert s[0] !in Elements(s[1..]);
      var rest := Outside(s[1..], list);
      assert s[0] !in Elements(rest);
    }
  }

  lemma {:induction false} InsideDistinct(s: seq<Address>, list: seq<Address>)
    requires Distinct(s)
    ensures Distinct(Inside(s, list)) && |Inside(s, list)| <= |s|
  {
    if s != [] {
      InsideDistinct(s[1..], list);
      assert s[0] !in Elements(s[1..]);
      var rest := Inside(s[1..], list);
      assert s[0] !in Elements(rest);
    }
  }

  lemma {:induction false} InsideAll(s: seq<Address>, list: seq<Address>)
    requires Elements(s) <= Elements(list)
    ensures Inside(s, list) == s
  {
    if s != [] {
      assert s[0] in Elements(s);
      InsideAll(s[1..], list);
    }
  }

  lemma {:induction false} InsideNone(s: seq<Address>, list: seq<Address>)
    requires Elements(s) !! Elements(list)
    ensures Inside(s, list) == []
  {
    if s != [] {
      assert s[0] in Elements(s);
      InsideNone(s[1..], list);
    }
  }

  lemma {:induction false} InsideAppend(a: seq<Address>, b: seq<Address>, list: seq<Address>)
    ensures Inside(a + b, list) == Inside(a, list) + Inside(b, list)
  {
    if a == [] {
      assert a + b == b;
    } else {
      assert (a + b)[1..] == a[1..] + b;
      InsideAppend(a[1..], b, list);
    }
  }

  lemma InsideRemoveAt(list: seq<Address>, target: seq<Address>, i: nat)
    requires i < |list| && list[i] !in target
    ensures Inside(RemoveAt(list, i), target) == Inside(list, target)
  {
    assert list == list[..i] + ([list[i]] + list[i + 1..]);
    InsideAppend(list[..i], [list[i]] + list[i + 1..], target);
    InsideAppend([list[i]], list[i + 1..], target);
    InsideAppend(list[..i], list[i + 1..], target);
  }

  // ----- No call reverts, and the result is the kept set -----

  lemma {:induction false} AddsReplay(on: OwnerSet, missing: seq<Address>)
    requires 1 <= on.threshold <= |on.owners|
    requires Distinct(missing) && Elements(missing) !! Elements(on.owners)
    ensures Replay(on, AddCalls(missing, on.threshold)) == Some(OwnerSet(missing + on.owners, on.threshold))
  {
    if missing == [] {
      assert missing + on.owners == on.owners;
    } else {
      var rest := missing[1..];
      AddsReplay(on, rest);
      ReplayAppend(on, AddCalls(rest, on.threshold), [AddOwnerWithThreshold(missing[0], on.threshold)]);
      var mid := OwnerSet(rest + on.owners, on.threshold);
      assert missing[0] !in rest;
      assert missing[0] in Elements(missing);
      assert missing[0] !in mid.owners;
      assert [missing[0]] + mid.owners == missing + on.owners;
      ReplaySingle(mid, AddOwnerWithThreshold(missing[0], on.threshold));
    }
  }

  lemma PositionOfDistinct(list: seq<Address>, i: nat)
    requires Distinct(list) && i < |list|
    ensures Position(list, list[i]) == i
  {
  }

  lemma RemovalReplays(s: OwnerSet, i: nat, rest: seq<OwnerCall>)
    requires Distinct(s.owners) && i < |s.owners| && 1 < |s.owners| && 1 <= s.threshold
    ensures var left := RemoveAt(s.owners, i);
            var t := Min(s.threshold, |left|);
            Replay(s, [RemoveOwner(Previous(s.owners, i), s.owners[i], t)] + rest)
            == Replay(OwnerSet(left, t), rest)
  {
    PositionOfDistinct(s.owners, i);
    var t := Min(s.threshold, |s.owners| - 1);
    ReplayCons(s, RemoveOwner(Previous(s.owners, i), s.owners[i], t), rest);
  }

  lemma RemovalLeaves(list: seq<Address>, target: seq<Address>, i: nat)
    requires Distinct(list) && i < |list| && list[i] !in target
    requires Elements(target) * Elements(list) != {}
    ensures var rest := RemoveAt(list, i);
            && Distinct(rest) && rest != []
            && Elements(target) * Elements(rest) == Elements(target) * Elements(list)
            && Inside(rest, target) == Inside(list, target)
            && |Inside(list, target)| <= |rest|
  {
    InsideRemoveAt(list, target, i);
    RemoveAtElements(list, i);
    assert list[i] !in Elements(target);
    var rest := RemoveAt(list, i);
    assert rest != [] by { assert Elements(rest) != {}; }
    InsideDistinct(rest, target);
  }

  lemma NothingExtra(list: seq<Address>, target: seq<Address>)
    requires FirstExtra(list, target) == |list|
    ensures Elements(list) <= Elements(target) && Inside(list, target) == list
  {
    forall o | o in Elements(list) ensures o in Elements(target) {}
    InsideAll(list, target);
  }

  /** What a set of removals has to end at. */
  ghost predicate Trims(s: OwnerSet, calls: seq<OwnerCall>, target: seq<Address>) {
    var kept := Inside(s.owners, target);
    Replay(s, calls) == Some(OwnerSet(kept, Min(s.threshold, |kept|)))
  }

  lemma TrimsAfterRemoval(
    s: OwnerSet, left: OwnerSet, calls: seq<OwnerCall>, rest: seq<OwnerCall>, target: seq<Address>)
    requires Replay(s, calls) == Replay(left, rest)
    requires left.threshold == Min(s.threshold, |left.owners|)
    requires Inside(left.owners, target) == Inside(s.owners, target)
    requires |Inside(s.owners, target)| <= |left.owners|
    requires Trims(left, rest, target)
    ensures Trims(s, calls, target)
  {
  }

  lemma {:induction false} RemovalsReplay(s: OwnerSet, target: seq<Address>, calls: seq<OwnerCall>)
    requires calls == RemoveCalls(s.owners, target, s.threshold)
    requires Distinct(s.owners) && 1 <= s.threshold <= |s.owners|
    requires Elements(target) * Elements(s.owners) != {}
    ensures Trims(s, calls, target)
    decreases |s.owners|
  {
    var list := s.owners;
    var i := FirstExtra(list, target);
    if i == |list| {
      NothingExtra(list, target);
    } else {
      RemovalLeaves(list, target, i);
      var left := RemoveAt(list, i);
      var t := Min(s.threshold, |left|);
      var rest := RemoveCalls(left, target, t);
      RemovalReplays(s, i, rest);
      RemovalsReplay(OwnerSet(left, t), target, rest);
      TrimsAfterRemoval(s, OwnerSet(left, t), calls, rest, target);
    }
  }

  lemma KeptOwners(on: OwnerSet, target: OwnerSet)
    requires Distinct(on.owners) && Distinct(target.owners)
    ensures var k := Kept(on, target).owners;
            && Distinct(k) && Elements(k) == Elements(target.owners) && |k| == |target.owners|
            && k == Inside(Outside(target.owners, on.owners) + on.owners, target.owners)
  {
    var missing := Outside(target.owners, on.owners);
    var stay := Inside(on.owners, target.owners);
    OutsideDistinct(target.owners, on.owners);
    InsideDistinct(on.owners, target.owners);
    InsideAppend(missing, on.owners, target.owners);
    InsideAll(missing, target.owners);
    DistinctAppend(missing, stay);
    ElementsCount(missing + stay);
    ElementsCount(target.owners);
  }

  /** The owner calls never revert, whatever their order costs, and land on
      the missing owners in declared order before the kept ones in theirs. */
  lemma OwnerCallsReplay(on: OwnerSet, target: OwnerSet)
    requires Distinct(on.owners) && 1 <= on.threshold <= |on.owners|
    requires Distinct(target.owners) && target.owners != []
    ensures Replay(on, OwnerCalls(on, target)) == Some(Kept(on, target))
  {
    var missing := Outside(target.owners, on.owners);
    OutsideDistinct(target.owners, on.owners);
    AddsReplay(on, missing);
    var grown := OwnerSet(missing + on.owners, on.threshold);
    DistinctAppend(missing, on.owners);
    assert target.owners[0] in Elements(target.owners) * Elements(grown.owners);
    RemovalsReplay(grown, target.owners, RemoveCalls(grown.owners, target.owners, on.threshold));
    KeptOwners(on, target);
    ReplayAppend(on, AddCalls(missing, on.threshold), RemoveCalls(grown.owners, target.owners, on.threshold));
  }

  /** The hand-over program runs to its end on every on-chain set and leaves
      exactly the target: the owners read in the documented order. */
  lemma ProgramReachesTarget(on: OwnerSet, target: OwnerSet)
    requires Distinct(on.owners) && 1 <= on.threshold <= |on.owners|
    requires Distinct(target.owners) && 1 <= target.threshold <= |target.owners|
    ensures var end := OwnerSet(Kept(on, target).owners, target.threshold);
            Replay(on, Program(on, target)) == Some(end) && end.SameAs(target)
  {
    OwnerCallsReplay(on, target);
    KeptOwners(on, target);
    var kept := Kept(on, target);
    var end := OwnerSet(kept.owners, target.threshold);
    SameAsIsSetEquality(end, target);
    if kept.threshold != target.threshold {
      ReplayAppend(on, OwnerCalls(on, target), [ChangeThreshold(target.threshold)]);
      ReplaySingle(kept, ChangeThreshold(target.threshold));
    } else {
      assert OwnerCalls(on, target) + [] == OwnerCalls(on, target);
    }
  }

  /** A hand-over to owners the Safe does not have reads as declared. */
  lemma DisjointHandOverReadsAsDeclared(on: OwnerSet, target: OwnerSet)
    requires Distinct(on.owners) && 1 <= on.threshold <= |on.owners|
    requires Distinct(target.owners) && 1 <= target.threshold <= |target.owners|
    requires Elements(target.owners) !! Elements(on.owners)
    ensures Replay(on, Program(on, target)) == Some(target)
  {
    ProgramReachesTarget(on, target);
    OutsideAll(target.owners, on.owners);
    InsideNone(on.owners, target.owners);
    assert Kept(on, target).owners == target.owners + [];
    assert OwnerSet(target.owners + [], target.threshold) == target;
  }

  lemma {:induction false} OutsideAll(s: seq<Address>, list: seq<Address>)
    requires Elements(s) !! Elements(list)
    ensures Outside(s, list) == s
  {
    if s != [] {
      assert s[0] in Elements(s);
      OutsideAll(s[1..], list);
    }
  }

  // ----- Length -----

  /** How many owners separate a list from a target. */
  function Gap(list: seq<Address>, target: seq<Address>): nat {
    |Elements(target) - Elements(list)| + |Elements(list) - Elements(target)|
  }

  lemma {:induction false} AddCallsLength(missing: seq<Address>, t: nat)
    ensures |AddCalls(missing, t)| == |missing|
  {
    if missing != [] { AddCallsLength(missing[1..], t); }
  }

  lemma {:induction false} RemoveCallsLength(list: seq<Address>, target: seq<Address>, t: nat)
    ensures |RemoveCalls(list, target, t)| == |Outside(list, target)|
    decreases |list|
  {
    var i := FirstExtra(list, target);
    if i == |list| {
      OutsideNone(list, target);
    } else {
      var rest := RemoveAt(list, i);
      RemoveCallsLength(rest, target, Min(t, |rest|));
      assert list == list[..i] + ([list[i]] + list[i + 1..]);
      OutsideAppend(list[..i], [list[i]] + list[i + 1..], target);
      OutsideAppend([list[i]], list[i + 1..], target);
      OutsideAppend(list[..i], list[i + 1..], target);
    }
  }

  lemma {:induction false} OutsideAppend(a: seq<Address>, b: seq<Address>, list: seq<Address>)
    ensures Outside(a + b, list) == Outside(a, list) + Outside(b, list)
  {
    if a == [] {
      assert a + b == b;
    } else {
      assert (a + b)[1..] == a[1..] + b;
      OutsideAppend(a[1..], b, list);
    }
  }

  lemma {:induction false} OutsideNone(s: seq<Address>, list: seq<Address>)
    requires Elements(s) <= Elements(list)
    ensures Outside(s, list) == []
  {
    if s != [] {
      assert s[0] in Elements(s);
      OutsideNone(s[1..], list);
    }
  }

  lemma OutsideCount(s: seq<Address>, list: seq<Address>)
    requires Distinct(s)
    ensures |Outside(s, list)| == |Elements(s) - Elements(list)|
  {
    OutsideDistinct(s, list);
    ElementsCount(Outside(s, list));
    assert Elements(Outside(s, list)) == Elements(s) - Elements(list);
  }

  /** One call per owner to add or remove, and at most one for the threshold. */
  lemma ProgramLength(on: OwnerSet, target: OwnerSet)
    requires Distinct(on.owners) && Distinct(target.owners)
    ensures |OwnerCalls(on, target)| == Gap(on.owners, target.owners)
    ensures |Program(on, target)| ==
            Gap(on.owners, target.owners)
            + if Kept(on, target).threshold == target.threshold then 0 else 1
  {
    var missing := Outside(target.owners, on.owners);
    AddCallsLength(missing, on.threshold);
    RemoveCallsLength(missing + on.owners, target.owners, on.threshold);
    OutsideAppend(missing, on.owners, target.owners);
    OutsideNone(missing, target.owners);
    OutsideCount(target.owners, on.owners);
    OutsideCount(on.owners, target.owners);
  }

  lemma GapAfterAdd(list: seq<Address>, owner: Address, target: seq<Address>)
    requires owner !in list
    ensures Gap(list, target) <= Gap([owner] + list, target) + 1
  {
    var l, t := Elements(list), Elements(target);
    assert Elements([owner] + list) == l + {owner};
    if owner in t {
      assert t - l == (t - (l + {owner})) + {owner};
      assert (l + {owner}) - t == l - t;
    } else {
      assert t - (l + {owner}) == t - l;
      SubsetSize(l - t, (l + {owner}) - t);
    }
  }

  lemma GapAfterRemove(list: seq<Address>, i: nat, target: seq<Address>)
    requires Distinct(list) && i < |list|
    ensures Gap(list, target) <= Gap(RemoveAt(list, i), target) + 1
  {
    var l, t := Elements(list), Elements(target);
    RemoveAtElements(list, i);
    var o := list[i];
    if o in t {
      assert (l - {o}) - t == l - t;
      SubsetSize(t - l, t - (l - {o}));
    } else {
      assert t - (l - {o}) == t - l;
      assert l - t == ((l - {o}) - t) + {o};
    }
  }

  /** No call sequence that runs to its end closes the gap faster than one
      owner per call. */
  lemma {:induction false} NoFasterProgram(s: OwnerSet, calls: seq<OwnerCall>, target: seq<Address>)
    requires Distinct(s.owners)
    requires Replay(s, calls).Some?
    ensures Distinct(Replay(s, calls).value.owners)
    ensures Gap(s.owners, target) <= Gap(Replay(s, calls).value.owners, target) + |calls|
    decreases |calls|
  {
    if calls != [] {
      var next := ReplayOne(s, calls[0]).value;
      match calls[0] {
        case AddOwnerWithThreshold(owner, t) => GapAfterAdd(s.owners, owner, target);
        case RemoveOwner(prev, owner, t) =>
          var i := Position(s.owners, owner);
          RemoveAtElements(s.owners, i);
          GapAfterRemove(s.owners, i, target);
        case ChangeThreshold(t) =>
      }
      NoFasterProgram(next, calls[1..], target);
    }
  }

  /** The program is at most one call longer than any other that reaches the
      target. */
  lemma ProgramNearlyShortest(on: OwnerSet, target: OwnerSet, other: seq<OwnerCall>)
    requires Distinct(on.owners) && Distinct(target.owners)
    requires Replay(on, other).Some? && Replay(on, other).value.SameAs(target)
    ensures |Program(on, target)| <= |other| + 1
  {
    var end := Replay(on, other).value;
    NoFasterProgram(on, other, target.owners);
    SameAsIsSetEquality(end, target);
    assert Gap(end.owners, target.owners) == 0;
    ProgramLength(on, target);
  }

  function WithThreshold(call: OwnerCall, t: nat): OwnerCall {
    match call
    case AddOwnerWithThreshold(owner, _) => AddOwnerWithThreshold(owner, t)
    case RemoveOwner(prev, owner, _) => RemoveOwner(prev, owner, t)
    case ChangeThreshold(_) => ChangeThreshold(t)
  }

  /** The target's threshold on the last call. */
  function WithLastThreshold(calls: seq<OwnerCall>, t: nat): seq<OwnerCall>
    requires calls != []
  {
    calls[..|calls| - 1] + [WithThreshold(calls[|calls| - 1], t)]
  }

  lemma CallUnderAnotherThreshold(s: OwnerSet, call: OwnerCall, end: OwnerSet, t: nat)
    requires ReplayOne(s, call) == Some(end) && 1 <= t <= |end.owners|
    ensures ReplayOne(s, WithThreshold(call, t)) == Some(OwnerSet(end.owners, t))
  {
  }

  lemma LastCallUnderAnotherThreshold(s: OwnerSet, calls: seq<OwnerCall>, end: OwnerSet, t: nat)
    requires calls != [] && Replay(s, calls) == Some(end) && 1 <= t <= |end.owners|
    ensures Replay(s, WithLastThreshold(calls, t)) == Some(OwnerSet(end.owners, t))
  {
    var front, last := calls[..|calls| - 1], calls[|calls| - 1];
    assert calls == front + [last];
    ReplaySnoc(s, front, last);
    ReplaySnoc(s, front, WithThreshold(last, t));
    CallUnderAnotherThreshold(Replay(s, front).value, last, end, t);
  }

  /** The bound is met: whenever owners and threshold both change, folding
      the threshold into the last owner call is exactly one call shorter. */
  lemma ThresholdCallCanBeFolded(on: OwnerSet, target: OwnerSet)
    requires Distinct(on.owners) && 1 <= on.threshold <= |on.owners|
    requires Distinct(target.owners) && 1 <= target.threshold <= |target.owners|
    requires OwnerCalls(on, target) != [] && Kept(on, target).threshold != target.threshold
    ensures var folded := WithLastThreshold(OwnerCalls(on, target), target.threshold);
            && |Program(on, target)| == |folded| + 1
            && Replay(on, folded).Some? && Replay(on, folded).value.SameAs(target)
  {
    OwnerCallsReplay(on, target);
    KeptOwners(on, target);
    var kept := Kept(on, target);
    LastCallUnderAnotherThreshold(on, OwnerCalls(on, target), kept, target.threshold);
    SameAsIsSetEquality(OwnerSet(kept.owners, target.threshold), target);
  }

  /** The program is empty exactly when the sets are already the same. */
  lemma ProgramEmptyIffSame(on: OwnerSet, target: OwnerSet)
    requires Distinct(on.owners) && 1 <= on.threshold <= |on.owners|
    requires Distinct(target.owners) && 1 <= target.threshold <= |target.owners|
    ensures Program(on, target) == [] <==> on.SameAs(target)
  {
    ProgramLength(on, target);
    SameAsIsSetEquality(on, target);
    var l, t := Elements(on.owners), Elements(target.owners);
    if Program(on, target) == [] {
      assert |t - l| == 0 && |l - t| == 0;
      assert t - l == {} && l - t == {};
      assert l == t;
      ElementsCount(on.owners);
      KeptOwners(on, target);
      ElementsCount(target.owners);
    } else if l == t {
      assert t - l == {} && l - t == {};
      ElementsCount(on.owners);
      ElementsCount(target.owners);
      KeptOwners(on, target);
    }
  }
}
