/** The packed transaction list a batch is sent as, and the index loop
    MultiSendCallOnly reads it with. */
module MultiSend {
  import opened Prelude
  import opened Abi

  /** Operation, target and value of a packed call, its data length and data. */
  function Packed(safe: Address, data: Bytes): Bytes {
    [0] + BigEndian(safe, ADDRESS_BYTES) + Zeros(WORD) + Word(|data|) + data
  }

  function PackAll(safe: Address, calls: seq<Bytes>): Bytes {
    if calls == [] then [] else Packed(safe, calls[0]) + PackAll(safe, calls[1..])
  }

  lemma {:induction false} PackAllSnoc(safe: Address, calls: seq<Bytes>, data: Bytes)
    ensures PackAll(safe, calls + [data]) == PackAll(safe, calls) + Packed(safe, data)
  {
    if calls == [] {
      assert [data][1..] == [];
      assert calls + [data] == [data];
    } else {
      assert (calls + [data])[1..] == calls[1..] + [data];
      PackAllSnoc(safe, calls[1..], data);
    }
  }

  datatype Record = Record(operation: nat, to: nat, value: nat, data: Bytes)

  const HEADER := 0x55

  /** Memory byte `i` of the blob, whose length word is the first 32 bytes. */
  function RecordAt(blob: Bytes, i: nat): (r: Option<Record>)
    requires 0x20 <= i
    ensures r.Some? ==> i - 0x20 + HEADER + |r.value.data| <= |blob|
  {
    var at := i - 0x20;
    if |blob| < at + HEADER then None
    else
      var length := FromBigEndian(blob[at + 0x35..at + HEADER]);
      if |blob| < at + HEADER + length then None
      else Some(Record(
        blob[at],
        FromBigEndian(blob[at + 0x01..at + 0x15]),
        FromBigEndian(blob[at + 0x15..at + 0x35]),
        blob[at + HEADER..at + HEADER + length]))
  }

  /** The loop: `i` starts at 0x20, runs while `i < length` and steps over
      one record; nothing when it would read past the blob. */
  function Unpack(blob: Bytes, i: nat): Option<seq<Record>>
    requires 0x20 <= i
    decreases |blob| + 0x20 - i
  {
    if i >= |blob| then Some([])
    else
      var r := RecordAt(blob, i);
      if r.None? then None
      else
        var rest := Unpack(blob, i + HEADER + |r.value.data|);
        if rest.None? then None else Some([r.value] + rest.value)
  }

  /** The records a batch should read back as. */
  function SelfCalls(safe: Address, calls: seq<Bytes>): seq<Record> {
    if calls == [] then [] else [Record(0, safe, 0, calls[0])] + SelfCalls(safe, calls[1..])
  }

  /** The bytes `p` spell the record `r`. */
  ghost predicate Spells(p: Bytes, r: Record) {
    && |p| == HEADER + |r.data|
    && p[0] == r.operation
    && FromBigEndian(p[0x01..0x15]) == r.to
    && FromBigEndian(p[0x15..0x35]) == r.value
    && FromBigEndian(p[0x35..HEADER]) == |r.data|
    && p[HEADER..HEADER + |r.data|] == r.data
  }

  lemma PackedSpells(safe: Address, data: Bytes)
    requires |data| < Power256(WORD)
    ensures Spells(Packed(safe, data), Record(0, safe, 0, data))
  {
    WordHolds(safe);
    BigEndianRoundTrip(safe, ADDRESS_BYTES);
    ZerosRead(WORD);
    FromWord(|data|);
    FiveFields([0 as Byte], BigEndian(safe, ADDRESS_BYTES), Zeros(WORD), Word(|data|), data);
  }

  lemma RecordInside(before: Bytes, p: Bytes, rest: Bytes, r: Record)
    requires Spells(p, r)
    ensures RecordAt(before + p + rest, |before| + 0x20) == Some(r)
  {
    SliceInside(before, p, rest, 0x01, 0x15);
    SliceInside(before, p, rest, 0x15, 0x35);
    SliceInside(before, p, rest, 0x35, HEADER);
    SliceInside(before, p, rest, HEADER, HEADER + |r.data|);
    assert (before + p + rest)[|before|] == p[0];
  }

  lemma PackedRecord(blob: Bytes, at: nat, safe: Address, data: Bytes, rest: Bytes)
    requires |data| < Power256(WORD)
    requires at <= |blob| && blob[at..] == Packed(safe, data) + rest
    ensures RecordAt(blob, at + 0x20) == Some(Record(0, safe, 0, data))
  {
    var p := Packed(safe, data);
    PackedSpells(safe, data);
    AppendAssociates(blob[..at], p, rest);
    assert blob == blob[..at] + (p + rest);
    RecordInside(blob[..at], p, rest, Record(0, safe, 0, data));
  }

  lemma UnpackStep(blob: Bytes, at: nat, next: nat, r: Record, rest: seq<Record>)
    requires next == at + HEADER + |r.data| <= |blob|
    requires RecordAt(blob, at + 0x20) == Some(r) && Unpack(blob, next + 0x20) == Some(rest)
    ensures Unpack(blob, at + 0x20) == Some([r] + rest)
  {
  }

  lemma DropDrop(b: Bytes, i: nat, p: Bytes, rest: Bytes)
    requires i <= |b| && b[i..] == p + rest
    ensures i + |p| <= |b| && b[i + |p|..] == rest
  {
    assert b[i + |p|..] == b[i..][|p|..];
  }

  lemma PackedLength(safe: Address, data: Bytes)
    ensures |Packed(safe, data)| == HEADER + |data|
  {
  }

  lemma {:induction false} PackedUnpacks(blob: Bytes, at: nat, safe: Address, calls: seq<Bytes>)
    requires forall data :: data in calls ==> |data| < Power256(WORD)
    requires at <= |blob| && blob[at..] == PackAll(safe, calls)
    ensures Unpack(blob, at + 0x20) == Some(SelfCalls(safe, calls))
    decreases |calls|
  {
    if calls != [] {
      assert calls[0] in calls;
      var data, rest := calls[0], PackAll(safe, calls[1..]);
      var next := at + HEADER + |data|;
      PackedLength(safe, data);
      DropDrop(blob, at, Packed(safe, data), rest);
      PackedUnpacks(blob, next, safe, calls[1..]);
      PackedRecord(blob, at, safe, data, rest);
      UnpackStep(blob, at, next, Record(0, safe, 0, data), SelfCalls(safe, calls[1..]));
    }
  }

  /** The loop's off-by-a-word test loses no record and adds none: it reads
      back exactly the calls, in order. */
  lemma MultiSendRoundTrip(safe: Address, calls: seq<Bytes>)
    requires forall data :: data in calls ==> |data| < Power256(WORD)
    ensures Unpack(PackAll(safe, calls), 0x20) == Some(SelfCalls(safe, calls))
  {
    PackedUnpacks(PackAll(safe, calls), 0, safe, calls);
  }

  // ----- The call that carries the blob -----

  const MULTI_SEND: Bytes := [0x8d, 0x80, 0xff, 0x0a]

  /** Zero bytes up to the next word. */
  function Padding(n: nat): Bytes {
    Zeros((WORD - n % WORD) % WORD)
  }

  /** `multiSend(bytes)`: where the argument starts, its length, its bytes. */
  function EncodeMultiSend(blob: Bytes): Bytes {
    MULTI_SEND + Word(WORD) + Word(|blob|) + blob + Padding(|blob|)
  }

  /** The argument the contract reads; nothing when the calldata is too short or
      for another method. */
  function DecodeMultiSend(data: Bytes): Option<Bytes> {
    if |data| < 4 + WORD || data[..4] != MULTI_SEND then None
    else
      var at := 4 + FromBigEndian(data[4..4 + WORD]);
      if |data| < at + WORD then None
      else
        var length := FromBigEndian(data[at..at + WORD]);
        if |data| < at + WORD + length then None else Some(data[at + WORD..at + WORD + length])
  }

  lemma MultiSendReads(data: Bytes, blob: Bytes)
    requires |data| >= 4 + WORD + WORD + |blob|
    requires data[..4] == MULTI_SEND
    requires FromBigEndian(data[4..4 + WORD]) == WORD
    requires FromBigEndian(data[4 + WORD..4 + WORD + WORD]) == |blob|
    requires data[4 + WORD + WORD..4 + WORD + WORD + |blob|] == blob
    ensures DecodeMultiSend(data) == Some(blob)
  {
  }

  lemma DecodeEncodeMultiSend(blob: Bytes)
    requires |blob| < Power256(WORD)
    ensures DecodeMultiSend(EncodeMultiSend(blob)) == Some(blob)
  {
    var start, length, data := Word(WORD), Word(|blob|), EncodeMultiSend(blob);
    WordHolds(WORD);
    FromWord(WORD);
    FromWord(|blob|);
    FiveFields(MULTI_SEND, start, length, blob, Padding(|blob|));
    MultiSendReads(data, blob);
  }

  lemma CallsMultiSend(blob: Bytes)
    ensures EncodeMultiSend(blob)[..4] == [0x8d, 0x80, 0xff, 0x0a]
  {
  }

  lemma AddOne(n: nat, each: nat)
    requires n > 0
    ensures n * each == each + (n - 1) * each
  {
  }

  lemma {:induction false} PackAllLength(safe: Address, calls: seq<Bytes>, each: nat)
    requires forall data :: data in calls ==> HEADER + |data| <= each
    ensures |PackAll(safe, calls)| <= |calls| * each
  {
    if calls != [] {
      assert calls[0] in calls;
      PackedLength(safe, calls[0]);
      PackAllLength(safe, calls[1..], each);
      AddOne(|calls|, each);
    }
  }
}
