/** A Safe's owners and threshold, and the rule that admits a declared set. */
module OwnerSets {
  import opened Prelude

  const U64_BOUND: nat := 0x1_0000_0000_0000_0000

  /** On-chain the owners are in the Safe's list order. */
  datatype OwnerSet = OwnerSet(owners: seq<Address>, threshold: nat) {

    /** Equality up to the order of the list. */
    predicate SameAs(other: OwnerSet) {
      && threshold == other.threshold
      && |owners| == |other.owners|
      && forall o | o in owners :: o in other.owners
    }

    /** One signature is enough, and this key's is one. */
    predicate SignsAlone(key: Address) {
      threshold == 1 && key in owners
    }
  }

  /** What every Safe starts as. */
  function BootstrapOwners(deployer: Address): OwnerSet {
    OwnerSet([deployer], 1)
  }

  /** An owner set a Safe at `safe` can hold. */
  ghost predicate Usable(safe: Address, s: OwnerSet) {
    && Distinct(s.owners)
    && ZERO !in s.owners && SENTINEL_OWNERS !in s.owners && safe !in s.owners
    && 1 <= s.threshold <= |s.owners|
  }

  // ----- same_as is set equality -----

  lemma SameAsIsSetEquality(a: OwnerSet, b: OwnerSet)
    requires Distinct(a.owners) && Distinct(b.owners)
    ensures a.SameAs(b) <==> a.threshold == b.threshold && Elements(a.owners) == Elements(b.owners)
  {
    ElementsCount(a.owners);
    ElementsCount(b.owners);
    if a.SameAs(b) {
      SubsetOfEqualSize(Elements(a.owners), Elements(b.owners));
    }
    if Elements(a.owners) == Elements(b.owners) {
      forall o | o in a.owners ensures o in b.owners { assert o in Elements(a.owners); }
    }
  }

  lemma SameAsIsAnEquivalence(a: OwnerSet, b: OwnerSet, c: OwnerSet)
    requires Distinct(a.owners) && Distinct(b.owners) && Distinct(c.owners)
    ensures a.SameAs(a)
    ensures a.SameAs(b) <==> b.SameAs(a)
    ensures a.SameAs(b) && b.SameAs(c) ==> a.SameAs(c)
  {
    SameAsIsSetEquality(a, b);
    SameAsIsSetEquality(b, a);
    SameAsIsSetEquality(b, c);
    SameAsIsSetEquality(a, c);
  }

  /** On a list with a repeated owner the test is one-sided, which is why the
      file's owner lists are checked for repeats when they are loaded. */
  lemma SameAsIsOneSidedOnRepeats(x: Address, y: Address, t: nat)
    requires x != y
    ensures OwnerSet([x, x], t).SameAs(OwnerSet([x, y], t))
    ensures !OwnerSet([x, y], t).SameAs(OwnerSet([x, x], t))
  {
    assert y in OwnerSet([x, y], t).owners by { assert [x, y][1] == y; }
  }

  // ----- Admission of a declared Safe -----

  datatype SafeDecl = SafeDecl(name: string, address: Option<Address>, owners: seq<Address>, threshold: nat) {
    /** The declared owners and threshold. */
    function Declared(): OwnerSet { OwnerSet(owners, threshold) }
  }

  datatype Fault =
    | BadName
    | NoAddress
    | WrongAddress
    | NoOwners
    | ReservedOwner(at: nat)
    | RepeatedOwner(at: nat)
    | BadThreshold

  predicate NameChar(c: char) {
    'a' <= c <= 'z' || '0' <= c <= '9' || c == '_'
  }

  /** An address no Safe accepts as its owner. */
  predicate Reserved(owner: Address, safe: Address) {
    owner == ZERO || owner == SENTINEL_OWNERS || owner == safe
  }

  /** The first owner, from index `i` on, that the file may not list. */
  function OwnerFault(owners: seq<Address>, safe: Address, i: nat): Option<Fault>
    requires i <= |owners|
    decreases |owners| - i
  {
    if i == |owners| then None
    else if Reserved(owners[i], safe) then Some(ReservedOwner(i))
    else if owners[i] in owners[..i] then Some(RepeatedOwner(i))
    else OwnerFault(owners, safe, i + 1)
  }

  /** What is wrong with one `[safes.<name>]` table whose name predicts the
      address `expected`; nothing when the file is admitted. */
  function ValidateSafe(decl: SafeDecl, expected: Address): Option<Fault> {
    if decl.name == "" || exists c | c in decl.name :: !NameChar(c) then Some(BadName)
    else if decl.address.None? then Some(NoAddress)
    else if decl.address.value != expected then Some(WrongAddress)
    else if decl.owners == [] then Some(NoOwners)
    else
      var fault := OwnerFault(decl.owners, expected, 0);
      if fault.Some? then fault
      else if decl.threshold == 0 || decl.threshold > |decl.owners| then Some(BadThreshold)
      else None
  }

  lemma {:induction false} OwnerFaultFindsTheFirst(owners: seq<Address>, safe: Address, i: nat)
    requires i <= |owners|
    requires Distinct(owners[..i])
    requires ZERO !in owners[..i] && SENTINEL_OWNERS !in owners[..i] && safe !in owners[..i]
    ensures OwnerFault(owners, safe, i).None? <==>
            Distinct(owners) && ZERO !in owners && SENTINEL_OWNERS !in owners && safe !in owners
    decreases |owners| - i
  {
    if i == |owners| {
      assert owners[..i] == owners;
    } else if owners[i] in owners[..i] {
      var k :| 0 <= k < i && owners[k] == owners[i];
      assert !Distinct(owners);
      assert owners[i] in owners;
    } else if !Reserved(owners[i], safe) {
      assert owners[..i + 1] == owners[..i] + [owners[i]];
      OwnerFaultFindsTheFirst(owners, safe, i + 1);
    }
  }

  /** The file is admitted exactly when the name is well formed, the address
      is the predicted one and a Safe there can hold the declared set. */
  lemma AdmittedIsUsable(decl: SafeDecl, expected: Address)
    ensures ValidateSafe(decl, expected).None? <==>
            && decl.name != "" && (forall c | c in decl.name :: NameChar(c))
            && decl.address == Some(expected)
            && Usable(expected, decl.Declared())
  {
    assert decl.owners[..0] == [];
    OwnerFaultFindsTheFirst(decl.owners, expected, 0);
  }

  /** Lower-case letters, digits and the underscore, as code points. */
  lemma NameCharsAre(c: char)
    ensures NameChar(c) <==> 0x61 <= c as int <= 0x7a || 0x30 <= c as int <= 0x39 || c as int == 0x5f
  {
  }

  ghost predicate WellNamed(decl: SafeDecl) {
    decl.name != "" && forall c :: c in decl.name ==> NameChar(c)
  }

  /** A Safe could list the owner at `i`, with those before it. */
  predicate Listable(owners: seq<Address>, safe: Address, i: nat)
    requires i < |owners|
  {
    !Reserved(owners[i], safe) && owners[i] !in owners[..i]
  }

  lemma {:induction false} OwnerFaultIsFirst(owners: seq<Address>, safe: Address, i: nat)
    requires i <= |owners|
    ensures match OwnerFault(owners, safe, i)
            case None => forall j :: i <= j < |owners| ==> Listable(owners, safe, j)
            case Some(ReservedOwner(k)) =>
              && i <= k < |owners| && (forall j :: i <= j < k ==> Listable(owners, safe, j))
              && owners[k] in {ZERO, SENTINEL_OWNERS, safe}
            case Some(RepeatedOwner(k)) =>
              && i <= k < |owners| && (forall j :: i <= j < k ==> Listable(owners, safe, j))
              && owners[k] !in {ZERO, SENTINEL_OWNERS, safe} && owners[k] in owners[..k]
            case Some(_) => false
    decreases |owners| - i
  {
    if i < |owners| && Listable(owners, safe, i) { OwnerFaultIsFirst(owners, safe, i + 1); }
  }

  /** What loading a file says of a table: the first fault in the order of the
      fields, and of the first owner that has one. */
  lemma FaultIsFirst(decl: SafeDecl, expected: Address)
    ensures var owners := decl.owners;
            match ValidateSafe(decl, expected)
            case None => WellNamed(decl) && decl.address == Some(expected)
            case Some(BadName) => !WellNamed(decl)
            case Some(NoAddress) => WellNamed(decl) && decl.address.None?
            case Some(WrongAddress) => WellNamed(decl) && decl.address.Some? && decl.address != Some(expected)
            case Some(NoOwners) => WellNamed(decl) && decl.address == Some(expected) && owners == []
            case Some(ReservedOwner(k)) =>
              && WellNamed(decl) && decl.address == Some(expected)
              && k < |owners| && (forall j :: 0 <= j < k ==> Listable(owners, expected, j))
              && owners[k] in {ZERO, SENTINEL_OWNERS, expected}
            case Some(RepeatedOwner(k)) =>
              && WellNamed(decl) && decl.address == Some(expected)
              && k < |owners| && (forall j :: 0 <= j < k ==> Listable(owners, expected, j))
              && owners[k] !in {ZERO, SENTINEL_OWNERS, expected} && owners[k] in owners[..k]
            case Some(BadThreshold) =>
              && WellNamed(decl) && decl.address == Some(expected) && owners != []
              && (forall j :: 0 <= j < |owners| ==> Listable(owners, expected, j))
              && (decl.threshold == 0 || decl.threshold > |owners|)
  {
    OwnerFaultIsFirst(decl.owners, expected, 0);
  }
}
