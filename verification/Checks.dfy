/** What the chain answers, and what each answer means for a plan line. */
module Checks {
  import opened Prelude
  import opened OwnerSets
  import opened Config
  import opened Worlds
  import opened Converge

  // ----- Reads: nothing where the contract does not answer -----

  function TrustedAt(w: World, key: Address): Option<bool> {
    if Answers(w, NotaryService, IsTrustedNotary) then Some(key in SlotsOf(w, NotaryService).trusted) else None
  }

  function FeeAt(w: World): Option<nat> {
    if Answers(w, NotaryService, Fee) then Some(SlotsOf(w, NotaryService).fee) else None
  }

  function RecipientAt(w: World): Option<Address> {
    if Answers(w, NotaryService, FeeRecipient) then Some(SlotsOf(w, NotaryService).recipient) else None
  }

  /** The one pointer of a registry, an escrow or a root list. */
  function PointerAt(w: World, n: Name, getter: Method): Option<Address> {
    if Answers(w, n, getter) then Some(SlotsOf(w, n).pointer) else None
  }

  function RotationAt(w: World): Option<bool> {
    if Answers(w, GoogleJwtRoots, NeedsRotation) then Some(SlotsOf(w, GoogleJwtRoots).rotationDue) else None
  }

  function RootsAt(w: World): Option<Address> {
    if Answers(w, PlatformVerifier(Google), JwtRoots) then Some(SlotsOf(w, PlatformVerifier(Google)).roots) else None
  }

  function PlatformNotaryAt(w: World, p: Platform): Option<Address> {
    if Answers(w, PlatformVerifier(p), PlatformNotary) then Some(SlotsOf(w, PlatformVerifier(p)).notary) else None
  }

  /** The code a Platform Verifier's implementation compiles in. */
  function PinnedAt(w: World, p: Platform): Option<Option<Code>> {
    if Answers(w, PlatformVerifier(p), CircuitCodehash) then Some(w.proxies[PlatformVerifier(p)].impl.pins) else None
  }

  /** The verifier registered for a platform, zero for none. */
  function RegisteredAt(w: World, p: Platform): Option<Address> {
    if !Answers(w, CeremonyProofVerifier, VerifierOf) then None
    else if p in SlotsOf(w, CeremonyProofVerifier).versions then Some(SlotsOf(w, CeremonyProofVerifier).versions[p])
    else Some(ZERO)
  }

  function AcceptsAt(cfg: NetworkConfig, w: World, p: Platform): Option<bool> {
    if Answers(w, IdentityRegistry, AcceptsBindings) then Some(AcceptsNow(cfg, w, p)) else None
  }

  /** The verifier a Platform Verifier uses, and whether its code is the
      vendored one. */
  datatype Wired = Wired(address: Address, vendored: bool)

  function WiredAt(cfg: NetworkConfig, w: World, p: Platform): Option<Wired> {
    if !Answers(w, PlatformVerifier(p), HonkVerifier) then None
    else
      var honk := SlotsOf(w, PlatformVerifier(p)).honk;
      Some(Wired(honk, CodeAt(w, honk) == Some(Vendored(cfg, CircuitOf(p)))))
  }

  /** Where a circuit's verifier is: the first platform of the circuit, in launch
      order, that can be read and uses the vendored code decides. */
  method LocateSite(cfg: NetworkConfig, w: World, c: Circuit) returns (site: Site)
    ensures site == SiteOf(cfg, w, c)
  {
    for i := 0 to |LAUNCH|
      invariant forall j :: 0 <= j < i && CircuitOf(LAUNCH[j]) == c ==> !UsesVendored(cfg, w, LAUNCH[j])
    {
      if CircuitOf(LAUNCH[i]) == c {
        var wired := WiredAt(cfg, w, LAUNCH[i]);
        FirstInUse(cfg, w, c, i);
        if wired.Some? && wired.value.vendored { return InUse(wired.value.address); }
      }
    }
    NoneInUse(cfg, w, c);
    site := Named(At(cfg, OwnVerifier(cfg, c)));
  }

  /** A site is in use exactly at the first platform of the circuit that uses
      the vendored code. */
  lemma FirstInUse(cfg: NetworkConfig, w: World, c: Circuit, i: nat)
    requires i < |LAUNCH| && CircuitOf(LAUNCH[i]) == c
    requires forall j :: 0 <= j < i && CircuitOf(LAUNCH[j]) == c ==> !UsesVendored(cfg, w, LAUNCH[j])
    ensures UsesVendored(cfg, w, LAUNCH[i]) ==>
              SiteOf(cfg, w, c) == InUse(SlotsOf(w, PlatformVerifier(LAUNCH[i])).honk)
  {
    if i == 1 { assert LAUNCH[0] == X; }
  }

  lemma NoneInUse(cfg: NetworkConfig, w: World, c: Circuit)
    requires forall j :: 0 <= j < |LAUNCH| && CircuitOf(LAUNCH[j]) == c ==> !UsesVendored(cfg, w, LAUNCH[j])
    ensures SiteOf(cfg, w, c) == Named(At(cfg, CircuitVerifier(c, cfg.artifacts.version)))
  {
    assert LAUNCH[0] == X && LAUNCH[1] == GitHub && LAUNCH[2] == Google;
  }

  /** `deployedAt`: zero for a name without a record. */
  function RecordAt(f: Factory, n: Name): Address {
    if n in f.records then f.records[n] else ZERO
  }

  // ----- What an answer means -----

  datatype Status =
    | Good
    /** Missing; apply would deploy it. */
    | Deploy
    /** Present; apply would configure it. */
    | Configure
    | Skipped
    /** Apply does not fix it silently. */
    | Warn

  function PresenceStatus(present: bool): Status {
    if present then Good else Deploy
  }

  /** A flag apply turns on: trust of a key, acceptance of a platform. */
  function FlagStatus(answer: Option<bool>): Status {
    if answer.None? then Warn else if answer.value then Good else Configure
  }

  /** A value apply sets when it differs. */
  function ValueStatus<T(==)>(declared: T, answer: Option<T>): Status {
    if answer.None? then Warn else if answer.value == declared then Good else Configure
  }

  /** The escrow's registry has no setter. */
  function EscrowStatus(declared: Address, answer: Option<Address>): Status {
    if answer == Some(declared) then Good else Warn
  }

  function RotationStatus(needed: Option<bool>): Status {
    if needed == Some(false) then Good else Warn
  }

  function CircuitStatus(site: Site, code: Option<Code>, vendored: Code): Status {
    if site.InUse? then Good
    else if code.None? then Deploy
    else if code.value == vendored then Good
    else Warn
  }

  /** The pin is looked at before the pointer. */
  function TrustRootsStatus(circuit: Address, vendored: Code, wired: Option<Wired>, pinned: Option<Option<Code>>): Status {
    if wired.None? || pinned.None? || pinned.value != Some(vendored) then Warn
    else if wired.value.address == circuit || wired.value.vendored then Good
    else Configure
  }

  /** `registered` is nothing at all where there is no contract to ask. */
  function RegistrationStatus(proxy: Address, registered: Option<Option<Address>>): Status {
    if registered.None? then Deploy else ValueStatus(proxy, registered.value)
  }

  function RecordStatus(declared: Address, recorded: Address): Status {
    if recorded == ZERO then Skipped else if recorded == declared then Good else Warn
  }

  /** Any owner will do where the file declares none. */
  function OwnerStatus(declared: Option<Address>, owner: Address): Status {
    if declared.Some? && declared.value != owner then Configure else Good
  }

  /** `on` is absent while the Safe has no code. */
  function SafeOwnersStatus(declared: OwnerSet, deployer: Address, on: Option<Option<OwnerSet>>): Status {
    if on.None? then Deploy
    else if on.value.None? then Warn
    else if on.value.value.SameAs(declared) then Good
    else if on.value.value.SignsAlone(deployer) then Configure
    else Warn
  }
}
