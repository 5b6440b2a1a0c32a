/** The plan: one line per component, read off the chain without sending. */
module Plan {
  import opened Prelude
  import opened OwnerSets
  import opened Config
  import opened Worlds
  import opened Converge
  import opened Checks

  datatype Line =
    | ChainIdLine
    | Create2Line
    | FactoryLine
    | ContractLine(name: Name)
    | SignerLine
    | FeeLine
    | RecipientLine
    | RegistryLine
    | EscrowLine
    | RootsLine
    | RotationLine
    | CircuitLine(circuit: Circuit)
    | TrustRootsLine(platform: Platform)
    | RegistrationLine(platform: Platform)
    | AcceptsLine(platform: Platform)
    | RecordLine(name: Name)
    | OwnerLine
    | ReleaseLine(index: nat)
    | SafeLine(index: nat)
    | OwnersLine(index: nat)

  datatype Item = Item(line: Line, status: Status)

  /** The owners a plan line shows: absent while the Safe has no code. */
  function OwnersShown(w: World, safe: Address): Option<Option<OwnerSet>> {
    if safe in w.safes then Some(ReadOwners(w, safe)) else None
  }

  /** What one line says about the chain. */
  function StatusOf(cfg: NetworkConfig, w: World, line: Line): Status {
    match line
    case ChainIdLine => if w.chainId == cfg.chainId then Good else Warn
    case Create2Line => PresenceStatus(w.create2Deployer)
    case FactoryLine => PresenceStatus(w.factory.Some?)
    case ContractLine(n) => PresenceStatus(n in w.proxies)
    case SignerLine => FlagStatus(TrustedAt(w, cfg.notary))
    case FeeLine => ValueStatus(cfg.fee, FeeAt(w))
    case RecipientLine => if cfg.feeRecipient.None? then Good else ValueStatus(cfg.feeRecipient.value, RecipientAt(w))
    case RegistryLine => ValueStatus(At(cfg, CeremonyProofVerifier), PointerAt(w, IdentityRegistry, ProofVerifier))
    case EscrowLine => EscrowStatus(At(cfg, IdentityRegistry), PointerAt(w, HandleEscrow, Registry))
    case RootsLine => ValueStatus(At(cfg, NotaryService), PointerAt(w, GoogleJwtRoots, RootsNotary))
    case RotationLine => RotationStatus(RotationAt(w))
    case CircuitLine(c) =>
      var site := SiteOf(cfg, w, c);
      CircuitStatus(site, CodeAt(w, site.address), Vendored(cfg, c))
    case TrustRootsLine(p) =>
      TrustRootsStatus(SiteOf(cfg, w, CircuitOf(p)).address, Vendored(cfg, CircuitOf(p)), WiredAt(cfg, w, p), PinnedAt(w, p))
    case RegistrationLine(p) =>
      RegistrationStatus(At(cfg, PlatformVerifier(p)),
        if CeremonyProofVerifier in w.proxies then Some(RegisteredAt(w, p)) else None)
    case AcceptsLine(p) => FlagStatus(AcceptsAt(cfg, w, p))
    case RecordLine(n) => if w.factory.None? then Skipped else RecordStatus(At(cfg, n), RecordAt(w.factory.value, n))
    case OwnerLine => if w.factory.None? then Skipped else OwnerStatus(cfg.owner, w.factory.value.owner)
    case ReleaseLine(i) => if i < |RELEASE| && IsCanonical(w, i) then Good else Warn
    case SafeLine(i) => PresenceStatus(i < |cfg.safes| && SafeAt(cfg.safes[i]) in w.safes)
    case OwnersLine(i) =>
      if i >= |cfg.safes| then Warn
      else SafeOwnersStatus(cfg.safes[i].Declared(), cfg.deployer, OwnersShown(w, SafeAt(cfg.safes[i])))
  }

  // ----- The lines of one chain, in order -----

  function If(present: bool, lines: seq<Line>): seq<Line> {
    if present then lines else []
  }

  function NotaryLines(cfg: NetworkConfig): seq<Line> {
    [SignerLine, FeeLine] + If(cfg.feeRecipient.Some?, [RecipientLine])
  }

  function ContractLines(cfg: NetworkConfig, w: World, n: Name): seq<Line> {
    [ContractLine(n)] + If(n in w.proxies,
      match n
      case NotaryService => NotaryLines(cfg)
      case IdentityRegistry => [RegistryLine]
      case HandleEscrow => [EscrowLine]
      case GoogleJwtRoots => [RootsLine, RotationLine]
      case PlatformVerifier(p) => [TrustRootsLine(p)]
      case _ => [])
  }

  function PlatformLines(cfg: NetworkConfig, w: World, p: Platform): seq<Line> {
    ContractLines(cfg, w, PlatformVerifier(p)) + [RegistrationLine(p)]
    + If(IdentityRegistry in w.proxies, [AcceptsLine(p)])
  }

  function PlatformsLines(cfg: NetworkConfig, w: World, k: nat): seq<Line>
    requires k <= |LAUNCH|
    decreases k, w
  {
    if k == 0 then [] else PlatformsLines(cfg, w, k - 1) + PlatformLines(cfg, w, LAUNCH[k - 1])
  }

  function RecordLines(k: nat): seq<Line>
    requires k <= |ENTRIES|
  {
    seq(k, i requires 0 <= i < k => RecordLine(ENTRIES[i]))
  }

  function FactoryLines(w: World): seq<Line> {
    If(w.factory.Some?, RecordLines(|ENTRIES|) + [OwnerLine])
  }

  function EntryLines(cfg: NetworkConfig, w: World): seq<Line> {
    ContractLines(cfg, w, NotaryService) + ContractLines(cfg, w, CeremonyProofVerifier)
    + ContractLines(cfg, w, IdentityRegistry) + ContractLines(cfg, w, HandleEscrow)
    + ContractLines(cfg, w, GoogleJwtRoots)
  }

  function CeremonyLines(cfg: NetworkConfig, w: World): seq<Line> {
    [CircuitLine(BearerLink), CircuitLine(OidcGoogle)] + PlatformsLines(cfg, w, |LAUNCH|)
  }

  function StackLines(cfg: NetworkConfig, w: World): seq<Line> {
    [Create2Line, FactoryLine]
    + EntryLines(cfg, w)
    + CeremonyLines(cfg, w)
    + FactoryLines(w)
  }

  function ReleaseLines(k: nat): seq<Line> {
    seq(k, i requires 0 <= i < k => ReleaseLine(i))
  }

  function SafeLines(k: nat): seq<Line> {
    if k == 0 then [] else SafeLines(k - 1) + [SafeLine(k - 1), OwnersLine(k - 1)]
  }

  /** No Safe is looked at where a release contract is missing. */
  function SafesLines(cfg: NetworkConfig, w: World): seq<Line> {
    if cfg.safes == [] then []
    else ReleaseLines(|RELEASE|) + If(forall i | 0 <= i < |RELEASE| :: IsCanonical(w, i), SafeLines(|cfg.safes|))
  }

  function ChainLines(cfg: NetworkConfig, w: World): seq<Line> {
    If(w.chainId != cfg.chainId, [ChainIdLine])
  }

  function Lines(cfg: NetworkConfig, w: World): seq<Line> {
    ChainLines(cfg, w) + StackLines(cfg, w) + SafesLines(cfg, w)
  }

  function ItemsOf(cfg: NetworkConfig, w: World, lines: seq<Line>): seq<Item> {
    seq(|lines|, i requires 0 <= i < |lines| => Item(lines[i], StatusOf(cfg, w, lines[i])))
  }

  function PlanOf(cfg: NetworkConfig, w: World): seq<Item> {
    ItemsOf(cfg, w, Lines(cfg, w))
  }

  lemma ItemsAppend(cfg: NetworkConfig, w: World, a: seq<Line>, b: seq<Line>)
    ensures ItemsOf(cfg, w, a + b) == ItemsOf(cfg, w, a) + ItemsOf(cfg, w, b)
  {
  }

  lemma AppendThree(at: seq<Line>, a: seq<Line>, b: seq<Line>, c: seq<Line>)
    ensures at + a + b + c == at + (a + b + c)
  {
  }

  lemma AppendFive(at: seq<Line>, a: seq<Line>, b: seq<Line>, c: seq<Line>, d: seq<Line>, e: seq<Line>)
    ensures at + a + b + c + d + e == at + (a + b + c + d + e)
  {
  }

  lemma PlanHolds(cfg: NetworkConfig, w: World, item: Item)
    ensures item in PlanOf(cfg, w) <==> item.line in Lines(cfg, w) && item.status == StatusOf(cfg, w, item.line)
  {
    var lines := Lines(cfg, w);
    if item.line in lines && item.status == StatusOf(cfg, w, item.line) {
      var i :| 0 <= i < |lines| && lines[i] == item.line;
      assert PlanOf(cfg, w)[i] == item;
    }
  }

  /** Whether apply would send a deployment. */
  predicate HasDeploys(items: seq<Item>) {
    exists item :: item in items && item.status == Deploy
  }

  // ----- The planner -----

  /** Goes over one chain in deploy order, adding a line per question it asks. */
  class Planner {
    const cfg: NetworkConfig
    const chain: World
    var items: seq<Item>
    /** The lines collected so far. */
    ghost var lines: seq<Line>

    ghost predicate Valid()
      reads this
    {
      items == ItemsOf(cfg, chain, lines)
    }

    constructor (cfg: NetworkConfig, chain: World)
      ensures Valid() && lines == [] && this.cfg == cfg && this.chain == chain
    {
      this.cfg, this.chain, items, lines := cfg, chain, [], [];
    }

    method Push(line: Line, status: Status)
      requires Valid() && status == StatusOf(cfg, chain, line)
      modifies this
      ensures Valid() && lines == old(lines) + [line]
    {
      ItemsAppend(cfg, chain, lines, [line]);
      items, lines := items + [Item(line, status)], lines + [line];
    }

    /** The line of a component that has code or not. */
    method Code(line: Line, present: bool) returns (found: bool)
      requires Valid() && PresenceStatus(present) == StatusOf(cfg, chain, line)
      modifies this
      ensures Valid() && lines == old(lines) + [line] && found == present
    {
      Push(line, PresenceStatus(present));
      found := present;
    }

    method Notary()
      requires Valid() && NotaryService in chain.proxies
      modifies this
      ensures Valid() && lines == old(lines) + NotaryLines(cfg)
    {
      Push(SignerLine, FlagStatus(TrustedAt(chain, cfg.notary)));
      Push(FeeLine, ValueStatus(cfg.fee, FeeAt(chain)));
      if cfg.feeRecipient.Some? {
        Push(RecipientLine, ValueStatus(cfg.feeRecipient.value, RecipientAt(chain)));
      }
    }

    method NotaryContract()
      requires Valid()
      modifies this
      ensures Valid() && lines == old(lines) + ContractLines(cfg, chain, NotaryService)
    {
      var present := Code(ContractLine(NotaryService), NotaryService in chain.proxies);
      if present { Notary(); }
      AppendAssociates(old(lines), [ContractLine(NotaryService)], If(present, NotaryLines(cfg)));
    }

    /** Whether the proof verifier is there to ask about registrations. */
    method ProofVerifierContract() returns (present: bool)
      requires Valid()
      modifies this
      ensures Valid() && lines == old(lines) + ContractLines(cfg, chain, CeremonyProofVerifier)
      ensures present == (CeremonyProofVerifier in chain.proxies)
    {
      present := Code(ContractLine(CeremonyProofVerifier), CeremonyProofVerifier in chain.proxies);
    }

    method RegistryContract() returns (present: bool)
      requires Valid()
      modifies this
      ensures Valid() && lines == old(lines) + ContractLines(cfg, chain, IdentityRegistry)
      ensures present == (IdentityRegistry in chain.proxies)
    {
      present := Code(ContractLine(IdentityRegistry), IdentityRegistry in chain.proxies);
      if present {
        Push(RegistryLine, ValueStatus(At(cfg, CeremonyProofVerifier), PointerAt(chain, IdentityRegistry, ProofVerifier)));
      }
    }

    method EscrowContract()
      requires Valid()
      modifies this
      ensures Valid() && lines == old(lines) + ContractLines(cfg, chain, HandleEscrow)
    {
      var present := Code(ContractLine(HandleEscrow), HandleEscrow in chain.proxies);
      if present {
        Push(EscrowLine, EscrowStatus(At(cfg, IdentityRegistry), PointerAt(chain, HandleEscrow, Registry)));
      }
    }

    method RootsContract()
      requires Valid()
      modifies this
      ensures Valid() && lines == old(lines) + ContractLines(cfg, chain, GoogleJwtRoots)
    {
      var present := Code(ContractLine(GoogleJwtRoots), GoogleJwtRoots in chain.proxies);
      if present {
        Push(RootsLine, ValueStatus(At(cfg, NotaryService), PointerAt(chain, GoogleJwtRoots, RootsNotary)));
        Push(RotationLine, RotationStatus(RotationAt(chain)));
      }
    }

    /** A circuit's line, and the address its platforms are held against. */
    method CircuitVerifierLine(c: Circuit) returns (address: Address)
      requires Valid()
      modifies this
      ensures Valid() && lines == old(lines) + [CircuitLine(c)]
      ensures address == SiteOf(cfg, chain, c).address
    {
      var site := LocateSite(cfg, chain, c);
      address := site.address;
      Push(CircuitLine(c), CircuitStatus(site, CodeAt(chain, address), Vendored(cfg, c)));
    }

    method PlatformContract(p: Platform, circuit: Address, proofVerifier: bool)
      requires Valid() && circuit == SiteOf(cfg, chain, CircuitOf(p)).address
      requires proofVerifier == (CeremonyProofVerifier in chain.proxies)
      modifies this
      ensures Valid()
      ensures lines == old(lines) + ContractLines(cfg, chain, PlatformVerifier(p)) + [RegistrationLine(p)]
    {
      var present := Code(ContractLine(PlatformVerifier(p)), PlatformVerifier(p) in chain.proxies);
      if present {
        Push(TrustRootsLine(p),
          TrustRootsStatus(circuit, Vendored(cfg, CircuitOf(p)), WiredAt(cfg, chain, p), PinnedAt(chain, p)));
      }
      assert lines == old(lines) + ContractLines(cfg, chain, PlatformVerifier(p));
      var registered := if proofVerifier then Some(RegisteredAt(chain, p)) else None;
      Push(RegistrationLine(p), RegistrationStatus(At(cfg, PlatformVerifier(p)), registered));
    }

    method Platforms(verifiers: map<Circuit, Address>, proofVerifier: bool, registry: bool)
      requires Valid() && (forall c :: c in verifiers && verifiers[c] == SiteOf(cfg, chain, c).address)
      requires proofVerifier == (CeremonyProofVerifier in chain.proxies)
      requires registry == (IdentityRegistry in chain.proxies)
      modifies this
      ensures Valid() && lines == old(lines) + PlatformsLines(cfg, chain, |LAUNCH|)
    {
      for i := 0 to |LAUNCH|
        invariant Valid() && lines == old(lines) + PlatformsLines(cfg, chain, i)
      {
        var p := LAUNCH[i];
        ghost var before := lines;
        PlatformContract(p, verifiers[CircuitOf(p)], proofVerifier);
        if registry { Push(AcceptsLine(p), FlagStatus(AcceptsAt(cfg, chain, p))); }
        assert lines == before + PlatformLines(cfg, chain, p);
        AppendAssociates(old(lines), PlatformsLines(cfg, chain, i), PlatformLines(cfg, chain, p));
      }
    }

    /** The factory's own records against the file, and its owner. */
    method FactoryRecords(factory: bool)
      requires Valid() && factory == chain.factory.Some?
      modifies this
      ensures Valid() && lines == old(lines) + FactoryLines(chain)
    {
      if !factory { return; }
      var f := chain.factory.value;
      for i := 0 to |ENTRIES|
        invariant Valid() && lines == old(lines) + RecordLines(i)
      {
        Push(RecordLine(ENTRIES[i]), RecordStatus(At(cfg, ENTRIES[i]), RecordAt(f, ENTRIES[i])));
        assert RecordLines(i + 1) == RecordLines(i) + [RecordLine(ENTRIES[i])];
        AppendAssociates(old(lines), RecordLines(i), [RecordLine(ENTRIES[i])]);
      }
      Push(OwnerLine, OwnerStatus(cfg.owner, f.owner));
      AppendAssociates(old(lines), RecordLines(|ENTRIES|), [OwnerLine]);
    }

    method Circuits() returns (verifiers: map<Circuit, Address>)
      requires Valid()
      modifies this
      ensures Valid() && lines == old(lines) + [CircuitLine(BearerLink), CircuitLine(OidcGoogle)]
      ensures forall c :: c in verifiers && verifiers[c] == SiteOf(cfg, chain, c).address
    {
      verifiers := map[];
      for i := 0 to |CIRCUITS|
        invariant Valid() && lines == old(lines) + [CircuitLine(BearerLink), CircuitLine(OidcGoogle)][..i]
        invariant forall c :: c in CIRCUITS[..i] ==> c in verifiers && verifiers[c] == SiteOf(cfg, chain, c).address
      {
        var address := CircuitVerifierLine(CIRCUITS[i]);
        verifiers := verifiers[CIRCUITS[i] := address];
      }
      forall c ensures c in CIRCUITS[..|CIRCUITS|] {
        assert CIRCUITS[if c.BearerLink? then 0 else 1] == c;
      }
    }

    method EntryContracts() returns (proofVerifier: bool, registry: bool)
      requires Valid()
      modifies this
      ensures Valid() && lines == old(lines) + EntryLines(cfg, chain)
      ensures proofVerifier == (CeremonyProofVerifier in chain.proxies)
      ensures registry == (IdentityRegistry in chain.proxies)
    {
      NotaryContract();
      proofVerifier := ProofVerifierContract();
      registry := RegistryContract();
      EscrowContract();
      RootsContract();
      AppendFive(old(lines), ContractLines(cfg, chain, NotaryService), ContractLines(cfg, chain, CeremonyProofVerifier),
        ContractLines(cfg, chain, IdentityRegistry), ContractLines(cfg, chain, HandleEscrow),
        ContractLines(cfg, chain, GoogleJwtRoots));
    }

    /** The ceremony circuits and the platforms proved under them. */
    method Ceremonies(proofVerifier: bool, registry: bool)
      requires Valid()
      requires proofVerifier == (CeremonyProofVerifier in chain.proxies)
      requires registry == (IdentityRegistry in chain.proxies)
      modifies this
      ensures Valid() && lines == old(lines) + CeremonyLines(cfg, chain)
    {
      var verifiers := Circuits();
      Platforms(verifiers, proofVerifier, registry);
      AppendAssociates(old(lines), [CircuitLine(BearerLink), CircuitLine(OidcGoogle)],
        PlatformsLines(cfg, chain, |LAUNCH|));
    }

    /** The chain id, a line of its own only when it is not the file's. */
    method ChainId()
      requires Valid() && lines == []
      modifies this
      ensures Valid() && lines == ChainLines(cfg, chain)
    {
      if chain.chainId != cfg.chainId { Push(ChainIdLine, Warn); }
    }

    /** The onboarding gate; whether the factory is there. */
    method Gate() returns (factory: bool)
      requires Valid()
      modifies this
      ensures Valid() && lines == old(lines) + [Create2Line, FactoryLine] && factory == chain.factory.Some?
    {
      Push(Create2Line, PresenceStatus(chain.create2Deployer));
      factory := Code(FactoryLine, chain.factory.Some?);
    }

    method Entries() returns (factory: bool, proofVerifier: bool, registry: bool)
      requires Valid()
      modifies this
      ensures Valid() && lines == old(lines) + ([Create2Line, FactoryLine] + EntryLines(cfg, chain))
      ensures factory == chain.factory.Some?
      ensures proofVerifier == (CeremonyProofVerifier in chain.proxies)
      ensures registry == (IdentityRegistry in chain.proxies)
    {
      factory := Gate();
      proofVerifier, registry := EntryContracts();
      AppendAssociates(old(lines), [Create2Line, FactoryLine], EntryLines(cfg, chain));
    }

    /** Every component, in deploy order. */
    method Stack()
      requires Valid()
      modifies this
      ensures Valid() && lines == old(lines) + StackLines(cfg, chain)
    {
      var factory, proofVerifier, registry := Entries();
      Ceremonies(proofVerifier, registry);
      FactoryRecords(factory);
      AppendThree(old(lines), [Create2Line, FactoryLine] + EntryLines(cfg, chain), CeremonyLines(cfg, chain),
        FactoryLines(chain));
    }

    method ReleaseContracts() returns (canonical: bool)
      requires Valid()
      modifies this
      ensures Valid() && lines == old(lines) + ReleaseLines(|RELEASE|)
      ensures canonical <==> forall i | 0 <= i < |RELEASE| :: IsCanonical(chain, i)
    {
      canonical := true;
      for i := 0 to |RELEASE|
        invariant Valid() && lines == old(lines) + ReleaseLines(i)
        invariant canonical <==> forall j | 0 <= j < i :: IsCanonical(chain, j)
      {
        Push(ReleaseLine(i), if IsCanonical(chain, i) then Good else Warn);
        canonical := canonical && IsCanonical(chain, i);
        assert ReleaseLines(i + 1) == ReleaseLines(i) + [ReleaseLine(i)];
        AppendAssociates(old(lines), ReleaseLines(i), [ReleaseLine(i)]);
      }
    }

    /** The release first; no Safe is looked at behind an incomplete one. */
    method Safes()
      requires Valid()
      modifies this
      ensures Valid() && lines == old(lines) + SafesLines(cfg, chain)
    {
      if cfg.safes == [] { return; }
      var canonical := ReleaseContracts();
      if !canonical { return; }
      ghost var before := lines;
      for i := 0 to |cfg.safes|
        invariant Valid() && lines == before + SafeLines(i)
      {
        var safe := SafeAt(cfg.safes[i]);
        var present := Code(SafeLine(i), safe in chain.safes);
        var on := if present then Some(ReadOwners(chain, safe)) else None;
        Push(OwnersLine(i), SafeOwnersStatus(cfg.safes[i].Declared(), cfg.deployer, on));
        AppendAssociates(before, SafeLines(i), [SafeLine(i), OwnersLine(i)]);
      }
    }
  }

  /** The plan of a file against a chain. */
  method Build(cfg: NetworkConfig, chain: World) returns (items: seq<Item>)
    ensures items == PlanOf(cfg, chain)
  {
    var planner := new Planner(cfg, chain);
    planner.ChainId();
    planner.Stack();
    planner.Safes();
    items := planner.items;
  }
}
