/** The batch apply signs for a Safe, and the Safe executing it. */
module Safes {
  import opened Prelude
  import opened OwnerSets
  import opened OwnerProgram
  import opened OwnerManager
  import opened Abi
  import opened MultiSend

  const MULTI_SEND_CALL_ONLY: Address := 0x9641d764fc13c8B624c04430C7356C1C7C8102e2

  /** The arguments of `execTransaction`. */
  datatype ExecTransaction = ExecTransaction(
    to: Address, value: nat, data: Bytes, operation: nat,
    safeTxGas: nat, baseGas: nat, gasPrice: nat, gasToken: Address, refundReceiver: Address,
    signatures: Bytes)

  /** The signature a Safe accepts from the owner that sends the transaction. */
  function PreValidated(deployer: Address): Bytes {
    Word(deployer) + Zeros(WORD) + [1]
  }

  function Batch(safe: Address, deployer: Address, calls: seq<Bytes>): ExecTransaction {
    ExecTransaction(
      MULTI_SEND_CALL_ONLY, 0, EncodeMultiSend(PackAll(safe, calls)), 1, 0, 0, 0, ZERO, ZERO, PreValidated(deployer))
  }

  // ----- The loops -----

  /** The owner-manager calls, encoded, that turn the on-chain set into
      `target`. */
  method CallsTo(on: OwnerSet, target: OwnerSet) returns (calls: seq<Bytes>)
    requires Distinct(target.owners) && Distinct(on.owners) && on.threshold <= |on.owners|
    ensures calls == EncodeAll(Program(on, target))
  {
    var list, threshold: nat := on.owners, on.threshold;
    calls := [];
    for i := |target.owners| downto 0
      invariant list == Outside(target.owners[i..], on.owners) + on.owners
      invariant calls == EncodeAll(AddCalls(Outside(target.owners[i..], on.owners), on.threshold))
    {
      var owner := target.owners[i];
      AddStep(on, target.owners, i);
      if owner !in list {
        calls := calls + [Encode(AddOwnerWithThreshold(owner, threshold))];
        list := [owner] + list;
      }
    }
    assert target.owners[0..] == target.owners;
    RemovalsBegin(on, target);
    var index := FirstExtra(list, target.owners);
    while index < |list|
      invariant index == FirstExtra(list, target.owners)
      invariant calls + EncodeAll(RemoveCalls(list, target.owners, threshold)) == EncodeAll(OwnerCalls(on, target))
      invariant Inside(list, target.owners) == Kept(on, target).owners
      invariant threshold <= |list| && Min(threshold, |Kept(on, target).owners|) == Kept(on, target).threshold
      decreases |list|
    {
      var prev := if index == 0 then SENTINEL_OWNERS else list[index - 1];
      var owner := list[index];
      RemoveStep(list, target.owners, threshold, index, calls);
      list := RemoveAt(list, index);
      threshold := Min(threshold, |list|);
      calls := calls + [Encode(RemoveOwner(prev, owner, threshold))];
      index := FirstExtra(list, target.owners);
    }
    NothingExtra(list, target.owners);
    NoRemovals(list, target.owners, threshold);
    if threshold != target.threshold {
      EncodeAllAppend(OwnerCalls(on, target), [ChangeThreshold(target.threshold)]);
      EncodeAllOne(ChangeThreshold(target.threshold));
      calls := calls + [Encode(ChangeThreshold(target.threshold))];
    }
    assert OwnerCalls(on, target) + [] == OwnerCalls(on, target);
  }

  lemma AddStep(on: OwnerSet, owners: seq<Address>, i: nat)
    requires Distinct(owners) && i < |owners|
    ensures var owner, later := owners[i], Outside(owners[i + 1..], on.owners);
            && (owner in later + on.owners <==> owner in on.owners)
            && Outside(owners[i..], on.owners) == (if owner in on.owners then later else [owner] + later)
            && [owner] + (later + on.owners) == [owner] + later + on.owners
            && EncodeAll(AddCalls([owner] + later, on.threshold))
               == EncodeAll(AddCalls(later, on.threshold)) + [Encode(AddOwnerWithThreshold(owner, on.threshold))]
  {
    var owner, later := owners[i], Outside(owners[i + 1..], on.owners);
    assert owner !in Elements(owners[i + 1..]);
    assert owner !in Elements(later);
    OutsideCons(owner, owners[i + 1..], on.owners);
    assert owners[i..] == [owner] + owners[i + 1..];
    assert ([owner] + later)[1..] == later;
    EncodeAllAppend(AddCalls(later, on.threshold), [AddOwnerWithThreshold(owner, on.threshold)]);
  }

  lemma RemovalsBegin(on: OwnerSet, target: OwnerSet)
    requires Distinct(target.owners) && Distinct(on.owners)
    ensures var missing := Outside(target.owners, on.owners);
            && EncodeAll(AddCalls(missing, on.threshold))
               + EncodeAll(RemoveCalls(missing + on.owners, target.owners, on.threshold))
               == EncodeAll(OwnerCalls(on, target))
            && Inside(missing + on.owners, target.owners) == Kept(on, target).owners
  {
    var missing := Outside(target.owners, on.owners);
    EncodeAllAppend(AddCalls(missing, on.threshold), RemoveCalls(missing + on.owners, target.owners, on.threshold));
    KeptOwners(on, target);
  }

  lemma RemoveStep(list: seq<Address>, target: seq<Address>, threshold: nat, i: nat, calls: seq<Bytes>)
    requires i == FirstExtra(list, target) < |list|
    ensures var left := RemoveAt(list, i);
            var t := Min(threshold, |left|);
            && calls + EncodeAll(RemoveCalls(list, target, threshold))
               == calls + [Encode(RemoveOwner(Previous(list, i), list[i], t))] + EncodeAll(RemoveCalls(left, target, t))
            && Inside(left, target) == Inside(list, target)
            && Min(t, |Inside(list, target)|) == Min(threshold, |Inside(list, target)|)
  {
    var left := RemoveAt(list, i);
    var t := Min(threshold, |left|);
    var call, rest := RemoveOwner(Previous(list, i), list[i], t), RemoveCalls(left, target, t);
    assert RemoveCalls(list, target, threshold) == [call] + rest;
    EncodeAllAppend([call], rest);
    EncodeAllOne(call);
    AppendAssociates(calls, [Encode(call)], EncodeAll(rest));
    InsideRemoveAt(list, target, i);
    InsideLength(left, target);
  }

  lemma EncodeAllOne(call: OwnerCall)
    ensures EncodeAll([call]) == [Encode(call)]
  {
    assert [call][1..] == [];
  }

  lemma NoRemovals(list: seq<Address>, target: seq<Address>, threshold: nat)
    requires FirstExtra(list, target) == |list|
    ensures RemoveCalls(list, target, threshold) == []
  {
  }

  lemma {:induction false} InsideLength(s: seq<Address>, list: seq<Address>)
    ensures |Inside(s, list)| <= |s|
  {
    if s != [] { InsideLength(s[1..], list); }
  }

  /** Packs the calls byte by byte and spells out the signature. */
  method ExecBatch(safe: Address, deployer: Address, calls: seq<Bytes>) returns (exec: ExecTransaction)
    ensures exec == Batch(safe, deployer, calls)
  {
    var packed: Bytes := [];
    for i := 0 to |calls|
      invariant packed == PackAll(safe, calls[..i])
    {
      var data := calls[i];
      PackAllSnoc(safe, calls[..i], data);
      assert calls[..i + 1] == calls[..i] + [data];
      ghost var before := packed;
      packed := packed + [0];
      packed := packed + BigEndian(safe, ADDRESS_BYTES);
      packed := packed + Zeros(WORD);
      packed := packed + Word(|data|);
      packed := packed + data;
      assert packed == before + Packed(safe, data);
    }
    assert calls[..|calls|] == calls;
    var signature: Bytes := Word(deployer);
    signature := signature + Zeros(WORD);
    signature := signature + [1];
    exec := ExecTransaction(MULTI_SEND_CALL_ONLY, 0, EncodeMultiSend(packed), 1, 0, 0, 0, ZERO, ZERO, signature);
  }

  // ----- The Safe -----

  const SIGNATURE_BYTES := 65

  /** `checkSignatures` for the one kind of signature apply makes: type 1,
      whose r is the owner that sends the transaction. */
  predicate SignedBy(store: OwnerStore, sender: Address, signatures: Bytes) {
    && store.threshold == 1 && |signatures| >= SIGNATURE_BYTES
    && signatures[64] == 1
    && FromBigEndian(signatures[..WORD]) == sender
    && sender != SENTINEL_OWNERS && After(store, sender) != ZERO
  }

  /** The decoded owner calls of a batch in which every record is a plain
      call from the Safe to itself. */
  function DecodeAll(safe: Address, records: seq<Record>): Option<seq<OwnerCall>> {
    if records == [] then Some([])
    else
      var r := records[0];
      var call := if r.operation == 0 && r.to == safe && r.value == 0 then Decode(r.data) else None;
      var rest := DecodeAll(safe, records[1..]);
      if call.Some? && rest.Some? then Some([call.value] + rest.value) else None
  }

  /** The ether a Safe holds, and the gas it is charged for when it executes. */
  datatype Purse = Purse(ether: nat, gas: nat)

  /** `handlePayment`: a gas price asks the Safe to refund its sender, in ether
      it holds. A refund in a token is one it cannot make. */
  predicate Refunds(purse: Purse, exec: ExecTransaction) {
    exec.gasPrice > 0 ==> exec.gasToken == ZERO && (purse.gas + exec.baseGas) * exec.gasPrice <= purse.ether
  }

  /** `execTransaction` sent by `sender`; nothing when it reverts. */
  function Execute(safe: Address, store: OwnerStore, purse: Purse, sender: Address, exec: ExecTransaction)
    : Option<OwnerStore>
  {
    if !SignedBy(store, sender, exec.signatures) then None
    else if exec.to != MULTI_SEND_CALL_ONLY || exec.operation != 1 || !Refunds(purse, exec) then None
    else
      var blob := DecodeMultiSend(exec.data);
      var records := if blob.None? then None else Unpack(blob.value, 0x20);
      if records.None? then None
      else
        var calls := DecodeAll(safe, records.value);
        if calls.None? then None else ManageAll(safe, store, calls.value)
  }

  lemma DecodeAllCons(safe: Address, call: OwnerCall, rest: seq<Record>, calls: seq<OwnerCall>)
    requires call.threshold < Power256(WORD) && DecodeAll(safe, rest) == Some(calls)
    ensures DecodeAll(safe, [Record(0, safe, 0, Encode(call))] + rest) == Some([call] + calls)
  {
    DecodeEncode(call);
    var records := [Record(0, safe, 0, Encode(call))] + rest;
    assert records[1..] == rest;
  }

  lemma {:induction false} DecodeAllEncoded(safe: Address, calls: seq<OwnerCall>)
    requires forall c :: c in calls ==> c.threshold < Power256(WORD)
    ensures DecodeAll(safe, SelfCalls(safe, EncodeAll(calls))) == Some(calls)
  {
    if calls != [] {
      assert calls[0] in calls;
      var encoded := EncodeAll(calls);
      assert encoded[1..] == EncodeAll(calls[1..]);
      DecodeAllEncoded(safe, calls[1..]);
      DecodeAllCons(safe, calls[0], SelfCalls(safe, encoded[1..]), calls[1..]);
      assert [calls[0]] + calls[1..] == calls;
    }
  }

  lemma {:induction false} EncodedLengths(calls: seq<OwnerCall>)
    requires forall c :: c in calls ==> c.threshold < Power256(WORD)
    ensures forall data :: data in EncodeAll(calls) ==> |data| < Power256(WORD)
  {
    if calls != [] {
      assert calls[0] in calls;
      DecodeEncode(calls[0]);
      EncodedLengths(calls[1..]);
    }
  }

  lemma PreValidatedSigns(store: OwnerStore, deployer: Address)
    requires store.threshold == 1 && deployer != SENTINEL_OWNERS && After(store, deployer) != ZERO
    ensures SignedBy(store, deployer, PreValidated(deployer))
  {
    WordHolds(deployer);
    FromWord(deployer);
    assert PreValidated(deployer)[..WORD] == Word(deployer);
  }

  /** Packing, wrapping, signing, unwrapping, unpacking and decoding lose and
      change nothing: the Safe runs exactly the calls the batch was built from,
      as long as a word can count the blob's bytes, whatever it holds. */
  lemma BatchRunsItsCalls(safe: Address, store: OwnerStore, purse: Purse, deployer: Address, calls: seq<OwnerCall>)
    requires store.threshold == 1 && deployer != SENTINEL_OWNERS && After(store, deployer) != ZERO
    requires forall c :: c in calls ==> c.threshold < Power256(WORD)
    requires |PackAll(safe, EncodeAll(calls))| < Power256(WORD)
    ensures Execute(safe, store, purse, deployer, Batch(safe, deployer, EncodeAll(calls)))
            == ManageAll(safe, store, calls)
  {
    PreValidatedSigns(store, deployer);
    DecodeAllEncoded(safe, calls);
    EncodedLengths(calls);
    MultiSendRoundTrip(safe, EncodeAll(calls));
    DecodeEncodeMultiSend(PackAll(safe, EncodeAll(calls)));
  }

  lemma {:induction false} AddCallsThresholds(missing: seq<Address>, t: nat)
    ensures forall c :: c in AddCalls(missing, t) ==> c.threshold == t && c.AddOwnerWithThreshold? && c.owner in missing
  {
    if missing != [] {
      AddCallsThresholds(missing[1..], t);
    }
  }

  lemma {:induction false} RemoveCallsThresholds(list: seq<Address>, target: seq<Address>, t: nat)
    ensures forall c :: c in RemoveCalls(list, target, t) ==> c.threshold <= t && c.RemoveOwner?
    decreases |list|
  {
    var i := FirstExtra(list, target);
    if i < |list| { RemoveCallsThresholds(RemoveAt(list, i), target, Min(t, |list| - 1)); }
  }

  lemma ProgramCalls(on: OwnerSet, target: OwnerSet)
    ensures forall c :: c in Program(on, target) ==>
      && c.threshold <= on.threshold + target.threshold
      && (c.AddOwnerWithThreshold? ==> c.owner in target.owners)
  {
    var missing := Outside(target.owners, on.owners);
    AddCallsThresholds(missing, on.threshold);
    RemoveCallsThresholds(missing + on.owners, target.owners, on.threshold);
    forall c | c in AddCalls(missing, on.threshold) ensures c.owner in target.owners {
      assert c.owner in Elements(missing);
    }
  }

  const LONGEST_CALL := 100

  lemma {:induction false} EncodedAreShort(calls: seq<OwnerCall>)
    ensures |EncodeAll(calls)| == |calls|
    ensures forall data :: data in EncodeAll(calls) ==> |data| <= LONGEST_CALL
  {
    if calls != [] { EncodedAreShort(calls[1..]); }
  }

  lemma ProgramIsShort(on: OwnerSet, target: OwnerSet)
    requires Distinct(on.owners) && Distinct(target.owners)
    ensures |Program(on, target)| <= |on.owners| + |target.owners| + 1
  {
    ProgramLength(on, target);
    ElementsCount(on.owners);
    ElementsCount(target.owners);
    SubsetSize(Elements(target.owners) - Elements(on.owners), Elements(target.owners));
    SubsetSize(Elements(on.owners) - Elements(target.owners), Elements(on.owners));
  }

  lemma WordCounts(n: nat)
    requires n <= (HEADER + LONGEST_CALL) * (2 * 0x1_00000000_00000000_00000000_00000000_00000000 + 1)
    ensures n < Power256(WORD)
  {
    assert Power256(4) == 0x1_00000000;
    Power256Product(4, 4);
    Power256Product(8, 8);
    Power256Product(16, 16);
    assert Power256(16) == 0x1_00000000_00000000_00000000_00000000;
  }

  /** The blob of a hand-over is one a word can count. */
  lemma HandOverBlobFits(safe: Address, on: OwnerSet, target: OwnerSet)
    requires Distinct(on.owners) && 1 <= on.threshold <= |on.owners|
    requires Distinct(target.owners) && 1 <= target.threshold <= |target.owners|
    ensures |PackAll(safe, EncodeAll(Program(on, target)))| < Power256(WORD)
  {
    var calls := Program(on, target);
    AddressesAreFew(on.owners);
    AddressesAreFew(target.owners);
    ProgramIsShort(on, target);
    EncodedAreShort(calls);
    PackAllLength(safe, EncodeAll(calls), HEADER + LONGEST_CALL);
    WordCounts(|PackAll(safe, EncodeAll(calls))|);
  }

  /** The set a hand-over ends at. */
  function HandedOver(on: OwnerSet, target: OwnerSet): OwnerSet {
    OwnerSet(Kept(on, target).owners, target.threshold)
  }

  /** Any usable Safe run through the program, on the linked list itself,
      never reverts and reads as the kept owners under the declared threshold. */
  lemma ProgramRunsOnTheRing(safe: Address, store: OwnerStore, target: OwnerSet)
    requires Healthy(safe, store) && Usable(safe, target)
    ensures var on := OwnersOf(store);
            var end := ManageAll(safe, store, Program(on, target));
            && end.Some? && Reads(safe, end.value, HandedOver(on, target))
            && HandedOver(on, target).SameAs(target)
  {
    var on := OwnersOf(store);
    ProgramReachesTarget(on, target);
    ProgramCalls(on, target);
    forall c | c in Program(on, target) && c.AddOwnerWithThreshold? ensures !Reserved(c.owner, safe) {
      assert c.owner in target.owners;
    }
    ManageAllRefinesReplay(safe, store, on, Program(on, target));
  }

  /** The transaction that turns `on` into `target`. */
  function HandOverTransaction(safe: Address, deployer: Address, on: OwnerSet, target: OwnerSet): ExecTransaction {
    Batch(safe, deployer, EncodeAll(Program(on, target)))
  }

  /** End to end: the transaction apply sends while the deployer signs alone
      executes, even on a Safe without ether, and the owners it leaves are the
      declared ones. */
  lemma HandOverExecutes(safe: Address, store: OwnerStore, purse: Purse, deployer: Address, target: OwnerSet)
    returns (end: OwnerStore)
    requires Healthy(safe, store) && Usable(safe, target)
    requires OwnersOf(store).SignsAlone(deployer) && target.threshold < U64_BOUND
    ensures Execute(safe, store, purse, deployer, HandOverTransaction(safe, deployer, OwnersOf(store), target))
            == Some(end)
    ensures Healthy(safe, end) && OwnersOf(end) == HandedOver(OwnersOf(store), target)
    ensures OwnersOf(end).SameAs(target)
  {
    var on := OwnersOf(store);
    var calls := Program(on, target);
    ProgramRunsOnTheRing(safe, store, target);
    end := ManageAll(safe, store, calls).value;
    ReadsIsGetOwners(safe, end, HandedOver(on, target));
    ProgramCalls(on, target);
    WordHolds(2 * U64_BOUND);
    OwnerIsLinked(safe, store, deployer);
    HandOverBlobFits(safe, on, target);
    BatchRunsItsCalls(safe, store, purse, deployer, calls);
  }

  lemma OwnerIsLinked(safe: Address, store: OwnerStore, owner: Address)
    requires Healthy(safe, store) && owner in OwnersOf(store).owners
    ensures owner != SENTINEL_OWNERS && After(store, owner) != ZERO
  {
    var list := OwnersOf(store).owners;
    var k :| 0 <= k < |list| && list[k] == owner;
    assert store.next[Node(list, k + 1)] == Node(list, k + 2);
    assert owner in Elements(list);
  }

  lemma LinkedIsOwner(safe: Address, store: OwnerStore, owner: Address)
    requires Healthy(safe, store) && owner != SENTINEL_OWNERS && After(store, owner) != ZERO
    ensures owner in OwnersOf(store).owners
  {
    assert owner in store.next.Keys;
  }

  /** One plain call of the Safe to itself that changes its owners. */
  predicate ChangesOwnOwners(safe: Address, r: Record) {
    r.operation == 0 && r.to == safe && r.value == 0 && Decode(r.data).Some?
  }

  lemma {:induction false} DecodedAreOwnCalls(safe: Address, records: seq<Record>)
    requires DecodeAll(safe, records).Some?
    ensures forall r :: r in records ==> ChangesOwnOwners(safe, r)
  {
    if records != [] { DecodedAreOwnCalls(safe, records[1..]); }
  }

  /** Whatever the transaction, a Safe's owners change only when the sender signs
      for it alone, by a signature that names the sender and is of the kind
      that stands for sending, only through calls of the Safe to itself, and
      for no refund but in ether it holds. */
  lemma ExecutesOnlyItsOwn(safe: Address, store: OwnerStore, purse: Purse, sender: Address, exec: ExecTransaction)
    returns (records: seq<Record>)
    requires Healthy(safe, store) && Execute(safe, store, purse, sender, exec).Some?
    ensures OwnersOf(store).SignsAlone(sender)
    ensures |exec.signatures| >= 65 && FromBigEndian(exec.signatures[..32]) == sender && exec.signatures[64] == 1
    ensures exec.to == 0x9641d764fc13c8B624c04430C7356C1C7C8102e2 && exec.operation == 1
    ensures exec.gasPrice > 0 ==> exec.gasToken == 0 && (purse.gas + exec.baseGas) * exec.gasPrice <= purse.ether
    ensures DecodeMultiSend(exec.data).Some? && Unpack(DecodeMultiSend(exec.data).value, 0x20) == Some(records)
    ensures forall r :: r in records ==> ChangesOwnOwners(safe, r)
  {
    LinkedIsOwner(safe, store, sender);
    records := Unpack(DecodeMultiSend(exec.data).value, 0x20).value;
    DecodedAreOwnCalls(safe, records);
  }

  /** The same for a declared Safe the file was admitted with. */
  lemma DeclaredHandOver(decl: SafeDecl, safe: Address, store: OwnerStore, purse: Purse, deployer: Address)
    returns (end: OwnerStore)
    requires ValidateSafe(decl, safe).None? && decl.threshold < U64_BOUND
    requires Healthy(safe, store) && OwnersOf(store).SignsAlone(deployer)
    ensures Execute(safe, store, purse, deployer, HandOverTransaction(safe, deployer, OwnersOf(store), decl.Declared()))
            == Some(end)
    ensures OwnersOf(end).SameAs(decl.Declared()) && end.threshold == decl.threshold
  {
    AdmittedIsUsable(decl, safe);
    end := HandOverExecutes(safe, store, purse, deployer, decl.Declared());
  }
}
