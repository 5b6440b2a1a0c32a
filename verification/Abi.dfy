/** Big-endian words and the ABI encoding of the owner-manager calls. */
module Abi {
  import opened Prelude
  import opened OwnerProgram

  function Power256(k: nat): nat {
    if k == 0 then 1 else 0x100 * Power256(k - 1)
  }

  /** The low `k` bytes of `n`, most significant first. */
  function BigEndian(n: nat, k: nat): (b: Bytes)
    ensures |b| == k
    decreases k, n
  {
    if k == 0 then [] else BigEndian(n / 0x100, k - 1) + [n % 0x100]
  }

  function FromBigEndian(b: Bytes): nat {
    if b == [] then 0 else FromBigEndian(b[..|b| - 1]) * 0x100 + b[|b| - 1]
  }

  lemma {:induction false} BigEndianRoundTrip(n: nat, k: nat)
    requires n < Power256(k)
    ensures FromBigEndian(BigEndian(n, k)) == n
    decreases k
  {
    if k > 0 {
      BigEndianRoundTrip(n / 0x100, k - 1);
      assert BigEndian(n, k)[..k - 1] == BigEndian(n / 0x100, k - 1);
    }
  }

  const WORD := 32
  const ADDRESS_BYTES := 20

  lemma WordHolds(n: nat)
    requires n < 0x1_00000000_00000000_00000000_00000000_00000000
    ensures n < Power256(WORD) && n < Power256(ADDRESS_BYTES)
  {
    assert Power256(4) == 0x1_00000000;
    Power256Product(4, 4);
    Power256Product(8, 8);
    Power256Product(16, 4);
    Power256Product(16, 16);
  }

  lemma {:induction false} Power256Product(a: nat, b: nat)
    ensures Power256(a + b) == Power256(a) * Power256(b)
  {
    if b > 0 {
      Power256Product(a, b - 1);
      assert 0x100 * (Power256(a) * Power256(b - 1)) == Power256(a) * (0x100 * Power256(b - 1));
    }
  }

  function Word(n: nat): (b: Bytes)
    ensures |b| == WORD
  {
    BigEndian(n, WORD)
  }

  function Zeros(k: nat): Bytes {
    seq(k, _ => 0)
  }

  lemma {:induction false} ZerosRead(k: nat)
    ensures FromBigEndian(Zeros(k)) == 0
  {
    if k > 0 {
      ZerosRead(k - 1);
      assert Zeros(k)[..k - 1] == Zeros(k - 1);
    }
  }

  // ----- The owner-manager calls -----

  const ADD_OWNER_WITH_THRESHOLD: Bytes := [0x0d, 0x58, 0x2f, 0x13]
  const REMOVE_OWNER: Bytes := [0xf8, 0xdc, 0x5d, 0xd9]
  const CHANGE_THRESHOLD: Bytes := [0x69, 0x4e, 0x80, 0xc3]

  function Encode(call: OwnerCall): Bytes {
    match call
    case AddOwnerWithThreshold(owner, t) => ADD_OWNER_WITH_THRESHOLD + Word(owner) + Word(t)
    case RemoveOwner(prev, owner, t) => REMOVE_OWNER + Word(prev) + Word(owner) + Word(t)
    case ChangeThreshold(t) => CHANGE_THRESHOLD + Word(t)
  }

  function EncodeAll(calls: seq<OwnerCall>): seq<Bytes> {
    if calls == [] then [] else [Encode(calls[0])] + EncodeAll(calls[1..])
  }

  lemma {:induction false} EncodeAllAppend(a: seq<OwnerCall>, b: seq<OwnerCall>)
    ensures EncodeAll(a + b) == EncodeAll(a) + EncodeAll(b)
  {
    if a == [] {
      assert a + b == b;
    } else {
      assert (a + b)[1..] == a[1..] + b;
      EncodeAllAppend(a[1..], b);
    }
  }

  function Argument(data: Bytes, i: nat): nat
    requires |data| >= 4 + WORD * (i + 1)
  {
    FromBigEndian(data[4 + WORD * i..4 + WORD * (i + 1)])
  }

  predicate IsAddress(n: nat) {
    n < 0x1_00000000_00000000_00000000_00000000_00000000
  }

  /** How a Safe reads calldata; nothing when no owner-manager method takes it. */
  function Decode(data: Bytes): Option<OwnerCall> {
    if |data| < 4 then None
    else if data[..4] == ADD_OWNER_WITH_THRESHOLD && |data| >= 4 + 2 * WORD && IsAddress(Argument(data, 0)) then
      Some(AddOwnerWithThreshold(Argument(data, 0), Argument(data, 1)))
    else if data[..4] == REMOVE_OWNER && |data| >= 4 + 3 * WORD
      && IsAddress(Argument(data, 0)) && IsAddress(Argument(data, 1)) then
      Some(RemoveOwner(Argument(data, 0), Argument(data, 1), Argument(data, 2)))
    else if data[..4] == CHANGE_THRESHOLD && |data| >= 4 + WORD then
      Some(ChangeThreshold(Argument(data, 0)))
    else None
  }

  lemma FromWord(n: nat)
    requires n < Power256(WORD)
    ensures FromBigEndian(Word(n)) == n
  {
    BigEndianRoundTrip(n, WORD);
  }

  lemma DecodeAdd(owner: Address, t: nat)
    requires t < Power256(WORD)
    ensures Decode(Encode(AddOwnerWithThreshold(owner, t))) == Some(AddOwnerWithThreshold(owner, t))
  {
    var a, b := Word(owner), Word(t);
    WordHolds(owner);
    FromWord(owner);
    FromWord(t);
    FiveFields(ADD_OWNER_WITH_THRESHOLD, a, b, [], []);
    assert ADD_OWNER_WITH_THRESHOLD + a + b + [] + [] == ADD_OWNER_WITH_THRESHOLD + a + b;
  }

  lemma DecodeRemove(prev: Address, owner: Address, t: nat)
    requires t < Power256(WORD)
    ensures Decode(Encode(RemoveOwner(prev, owner, t))) == Some(RemoveOwner(prev, owner, t))
  {
    var a, b, c := Word(prev), Word(owner), Word(t);
    WordHolds(prev);
    WordHolds(owner);
    FromWord(prev);
    FromWord(owner);
    FromWord(t);
    FiveFields(REMOVE_OWNER, a, b, c, []);
    assert REMOVE_OWNER + a + b + c + [] == REMOVE_OWNER + a + b + c;
  }

  lemma DecodeChange(t: nat)
    requires t < Power256(WORD)
    ensures Decode(Encode(ChangeThreshold(t))) == Some(ChangeThreshold(t))
  {
    var a := Word(t);
    FromWord(t);
    FiveFields(CHANGE_THRESHOLD, a, [], [], []);
    assert CHANGE_THRESHOLD + a + [] + [] + [] == CHANGE_THRESHOLD + a;
  }

  /** A Safe reads back the call the calldata was encoded from. */
  lemma DecodeEncode(call: OwnerCall)
    requires call.threshold < Power256(WORD)
    ensures Decode(Encode(call)) == Some(call)
    ensures |Encode(call)| < Power256(WORD)
  {
    WordHolds(0x100);
    match call
    case AddOwnerWithThreshold(owner, t) => DecodeAdd(owner, t);
    case RemoveOwner(prev, owner, t) => DecodeRemove(prev, owner, t);
    case ChangeThreshold(t) => DecodeChange(t);
  }

  /** The methods called, by the first four bytes of the calldata. */
  lemma CallsByMethod(call: OwnerCall)
    ensures Encode(call)[..4] ==
            match call
            case AddOwnerWithThreshold(_, _) => [0x0d, 0x58, 0x2f, 0x13]
            case RemoveOwner(_, _, _) => [0xf8, 0xdc, 0x5d, 0xd9]
            case ChangeThreshold(_) => [0x69, 0x4e, 0x80, 0xc3]
  {
  }
}
