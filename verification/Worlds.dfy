/** What a chain holds, and what each transaction apply sends does to it. */
module Worlds {
  import opened Prelude
  import opened OwnerManager
  import opened MultiSend
  import opened Safes
  import opened Config

  /** The methods apply and plan call through a proxy. */
  datatype Method =
    | IsTrustedNotary | SetNotary | Fee | SetFee | FeeRecipient | SetFeeRecipient
    | VerifierOf | SetVerifier
    | ProofVerifier | SetProofVerifier | AcceptsBindings | NodeKeyed
    | Registry
    | RootsNotary | SetNotaryService | NeedsRotation
    | HonkVerifier | CircuitCodehash | PlatformNotary | SetTrustRoots
    | JwtRoots | SetJwtRoots
    | UpgradeToAndCall

  /** An implementation: the methods it answers and the circuit verifier code
      it compiles in. An older one may lack a method apply calls. */
  datatype Impl = Impl(answers: set<Method>, pins: Option<Code>)

  /** The storage behind a proxy. `pointer` is the registry's proof verifier,
      the escrow's registry and the root list's notary service. */
  datatype Slots = Slots(
    trusted: set<Address>, fee: nat, recipient: Address,
    versions: map<Platform, Address>,
    pointer: Address,
    notary: Address, honk: Address, roots: Address,
    rotationDue: bool)

  /** An ERC-1967 proxy; upgrades replace `impl` and keep the rest. */
  datatype Proxy = Proxy(impl: Impl, owner: Address, slots: Slots)

  /** The LibidFactory: Ownable2Step, and a record per deployed name. */
  datatype Factory = Factory(owner: Address, pending: Address, records: map<Name, Address>)

  datatype World = World(
    chainId: nat,
    /** The node reports anvil or hardhat. */
    dev: bool,
    /** The chain accepts the keyless CREATE2 deployer's transaction. */
    acceptsKeyless: bool,
    /** The chain derives CREATE2 addresses the standard way. */
    standardCreate2: bool,
    create2Deployer: bool,
    factory: Option<Factory>,
    /** The proxies at the declared entry addresses. */
    proxies: map<Name, Proxy>,
    /** Other code: Honk verifiers and the Safe release contracts. */
    code: map<Address, Code>,
    safes: map<Address, OwnerStore>,
    /** What each Safe can pay a refund from. */
    purses: map<Address, Purse>)

  /** A Safe nobody has paid holds nothing; what its execution is charged for
      is never nothing. */
  function PurseOf(w: World, safe: Address): Purse {
    if safe in w.purses then w.purses[safe] else Purse(0, 1)
  }

  function CodeAt(w: World, a: Address): Option<Code> {
    if a in w.code then Some(w.code[a]) else None
  }

  /** Whether the chain holds code at the address of `n`. */
  predicate Present(cfg: NetworkConfig, w: World, n: Name) {
    if n.CircuitVerifier? then At(cfg, n) in w.code else n in w.proxies
  }

  /** Whether a call of `m` on `n` is answered. */
  predicate Answers(w: World, n: Name, m: Method) {
    n in w.proxies && m in w.proxies[n].impl.answers
  }

  // ----- The embedded implementations -----

  function Interface(n: Name): set<Method> {
    match n
    case NotaryService =>
      {IsTrustedNotary, SetNotary, Fee, SetFee, FeeRecipient, SetFeeRecipient, UpgradeToAndCall}
    case CeremonyProofVerifier => {VerifierOf, SetVerifier, UpgradeToAndCall}
    case IdentityRegistry => {ProofVerifier, SetProofVerifier, AcceptsBindings, NodeKeyed, UpgradeToAndCall}
    case HandleEscrow => {Registry, UpgradeToAndCall}
    case GoogleJwtRoots => {RootsNotary, SetNotaryService, NeedsRotation, UpgradeToAndCall}
    case PlatformVerifier(Google) =>
      {HonkVerifier, CircuitCodehash, PlatformNotary, SetTrustRoots, JwtRoots, SetJwtRoots, UpgradeToAndCall}
    case PlatformVerifier(_) => {HonkVerifier, CircuitCodehash, PlatformNotary, SetTrustRoots, UpgradeToAndCall}
    case CircuitVerifier(_, _) => {}
  }

  function Release(cfg: NetworkConfig, n: Name): Impl {
    Impl(Interface(n), if n.PlatformVerifier? then Some(Vendored(cfg, CircuitOf(n.platform))) else None)
  }

  // ----- Transactions -----

  /** A setter call on a proxy. */
  datatype Change =
    | TrustNotary(key: Address)
    | ChargeFee(fee: nat)
    | SweepTo(recipient: Address)
    | PointAt(to: Address)
    | VerifyWith(notary: Address, honk: Address)
    | ReadRootsFrom(roots: Address)
    | RegisterVerifier(platform: Platform, verifier: Address)

  function Setter(n: Name, change: Change): Method {
    match change
    case TrustNotary(_) => SetNotary
    case ChargeFee(_) => SetFee
    case SweepTo(_) => SetFeeRecipient
    case PointAt(_) => if n.IdentityRegistry? then SetProofVerifier else SetNotaryService
    case VerifyWith(_, _) => SetTrustRoots
    case ReadRootsFrom(_) => SetJwtRoots
    case RegisterVerifier(_, _) => SetVerifier
  }

  function Changed(slots: Slots, change: Change): Slots {
    match change
    case TrustNotary(key) => slots.(trusted := slots.trusted + {key})
    case ChargeFee(fee) => slots.(fee := fee)
    case SweepTo(recipient) => slots.(recipient := recipient)
    case PointAt(to) => slots.(pointer := to)
    case VerifyWith(notary, honk) => slots.(notary := notary, honk := honk)
    case ReadRootsFrom(roots) => slots.(roots := roots)
    case RegisterVerifier(p, verifier) => slots.(versions := slots.versions[p := verifier])
  }

  datatype Tx =
    | InstallCreate2Deployer
    | InstallFactory
    | TransferOwnership(to: Address)
    | AcceptOwnership(key: Address)
    | DeployImplementation(name: Name)
    | DeployProxy(name: Name, slots: Slots)
    | DeployCircuit(circuit: Circuit)
    | SetOn(name: Name, change: Change)
    | Upgrade(name: Name)
    | CreateSafe(safe: Address)
    | ExecSafe(safe: Address, exec: ExecTransaction)

  /** What an initializer refuses: an escrow's registry that is not node-keyed;
      a Platform Verifier's verifier whose code is not the one its
      implementation compiles in, a Notary Service on the platform that
      notarizes nothing or none on one that does, and no list of Google's
      roots. */
  predicate Initializes(cfg: NetworkConfig, w: World, n: Name, slots: Slots) {
    match n
    case HandleEscrow => slots.pointer == At(cfg, IdentityRegistry) && Answers(w, IdentityRegistry, NodeKeyed)
    case PlatformVerifier(p) =>
      && CodeAt(w, slots.honk) == Some(Vendored(cfg, CircuitOf(p)))
      && (slots.notary == ZERO <==> p.Google?) && (p.Google? ==> slots.roots != ZERO)
    case CircuitVerifier(_, _) => false
    case _ => true
  }

  /** The owner gate and the single-use names of `factory.deploy`. */
  predicate FactoryDeploys(cfg: NetworkConfig, w: World, n: Name) {
    && w.factory.Some? && w.factory.value.owner == cfg.deployer
    && n !in w.factory.value.records && !Present(cfg, w, n)
  }

  function Recorded(cfg: NetworkConfig, w: World, n: Name): Option<Factory>
    requires w.factory.Some?
  {
    Some(w.factory.value.(records := w.factory.value.records[n := At(cfg, n)]))
  }

  /** The world after `tx`, sent by the deployer (an acceptance by the key it
      names); nothing when the transaction reverts. */
  function Apply(cfg: NetworkConfig, tx: Tx, w: World): Option<World> {
    match tx
    case InstallCreate2Deployer =>
      if w.acceptsKeyless then Some(w.(create2Deployer := true)) else None
    case InstallFactory =>
      if !w.create2Deployer || w.factory.Some? then None
      else if !w.standardCreate2 then Some(w)  // lands at another address
      else Some(w.(factory := Some(Factory(cfg.deployer, ZERO, map[]))))
    case TransferOwnership(to) =>
      if w.factory.Some? && w.factory.value.owner == cfg.deployer
      then Some(w.(factory := Some(w.factory.value.(pending := to)))) else None
    case AcceptOwnership(key) =>
      if w.factory.Some? && w.factory.value.pending == key
      then Some(w.(factory := Some(w.factory.value.(owner := key, pending := ZERO)))) else None
    case DeployImplementation(_) => Some(w)
    case DeployProxy(n, slots) =>
      if FactoryDeploys(cfg, w, n) && Initializes(cfg, w, n, slots)
      then Some(w.(
        factory := Recorded(cfg, w, n),
        proxies := w.proxies[n := Proxy(Release(cfg, n), cfg.deployer, slots)]))
      else None
    case DeployCircuit(c) =>
      var n := OwnVerifier(cfg, c);
      if FactoryDeploys(cfg, w, n)
      then Some(w.(factory := Recorded(cfg, w, n), code := w.code[At(cfg, n) := Vendored(cfg, c)]))
      else None
    case SetOn(n, change) =>
      if Answers(w, n, Setter(n, change)) && w.proxies[n].owner == cfg.deployer
        && (change.VerifyWith? ==> CodeAt(w, change.honk).Some? && CodeAt(w, change.honk) == w.proxies[n].impl.pins)
      then Some(w.(proxies := w.proxies[n := w.proxies[n].(slots := Changed(w.proxies[n].slots, change))]))
      else None
    case Upgrade(n) =>
      if Answers(w, n, UpgradeToAndCall) && w.proxies[n].owner == cfg.deployer
      then Some(w.(proxies := w.proxies[n := w.proxies[n].(impl := Release(cfg, n))]))
      else None
    case CreateSafe(safe) =>
      if safe in w.safes || OwnerSets.Reserved(cfg.deployer, safe) then None
      else Some(w.(safes := w.safes[safe := Setup(cfg.deployer)]))
    case ExecSafe(safe, exec) =>
      if safe !in w.safes then None
      else
        var end := Execute(safe, w.safes[safe], PurseOf(w, safe), cfg.deployer, exec);
        if end.None? then None else Some(w.(safes := w.safes[safe := end.value]))
  }

  /** The worlds a list of transactions leads through, none reverting. */
  function ApplyAll(cfg: NetworkConfig, txs: seq<Tx>, w: World): Option<World>
    decreases |txs|
  {
    if txs == [] then Some(w)
    else
      var next := Apply(cfg, txs[0], w);
      if next.None? then None else ApplyAll(cfg, txs[1..], next.value)
  }

  lemma {:induction false} ApplyAllAppend(cfg: NetworkConfig, a: seq<Tx>, b: seq<Tx>, w: World)
    ensures ApplyAll(cfg, a + b, w) ==
            if ApplyAll(cfg, a, w).None? then None else ApplyAll(cfg, b, ApplyAll(cfg, a, w).value)
    decreases |a|
  {
    if a == [] {
      assert a + b == b;
    } else {
      assert (a + b)[1..] == a[1..] + b;
      var next := Apply(cfg, a[0], w);
      if next.Some? { ApplyAllAppend(cfg, a[1..], b, next.value); }
    }
  }

  lemma ApplyAllOne(cfg: NetworkConfig, tx: Tx, w: World)
    ensures ApplyAll(cfg, [tx], w) == Apply(cfg, tx, w)
  {
    assert [tx][1..] == [];
  }

  lemma ApplyAllImplementation(cfg: NetworkConfig, n: Name, tx: Tx, w: World)
    ensures ApplyAll(cfg, [DeployImplementation(n), tx], w) == Apply(cfg, tx, w)
  {
    assert [DeployImplementation(n), tx][1..] == [tx];
    ApplyAllOne(cfg, tx, w);
  }

  // ----- What every reachable chain holds -----

  /** The factory records a name only when it put code at its address. */
  ghost predicate RecordsHold(cfg: NetworkConfig, w: World) {
    w.factory.Some? ==>
      forall n :: n in w.factory.value.records ==>
        w.factory.value.records[n] == At(cfg, n) && Present(cfg, w, n)
  }

  /** Every Safe's owner list is one its owners can use. */
  ghost predicate SafesHealthy(w: World) {
    forall a :: a in w.safes ==> Healthy(a, w.safes[a])
  }

  lemma RecordingHolds(cfg: NetworkConfig, w: World, w': World, n: Name)
    requires RecordsHold(cfg, w) && w.factory.Some? && w'.factory == Recorded(cfg, w, n)
    requires Present(cfg, w', n)
    requires forall m :: Present(cfg, w, m) ==> Present(cfg, w', m)
    ensures RecordsHold(cfg, w')
  {
  }

  /** No transaction, whoever built it, breaks a record. */
  lemma ApplyKeepsRecords(cfg: NetworkConfig, tx: Tx, w: World)
    requires RecordsHold(cfg, w) && Apply(cfg, tx, w).Some?
    ensures RecordsHold(cfg, Apply(cfg, tx, w).value)
  {
    var w' := Apply(cfg, tx, w).value;
    match tx {
      case DeployProxy(n, _) => RecordingHolds(cfg, w, w', n);
      case DeployCircuit(c) => RecordingHolds(cfg, w, w', OwnVerifier(cfg, c));
      case InstallFactory =>
      case _ =>
        assert forall m :: Present(cfg, w', m) == Present(cfg, w, m);
    }
  }

  /** A transaction some file's apply sent. */
  datatype Sent = Sent(cfg: NetworkConfig, tx: Tx)

  function ApplyEach(sent: seq<Sent>, w: World): Option<World>
    decreases |sent|
  {
    if sent == [] then Some(w)
    else
      var next := Apply(sent[0].cfg, sent[0].tx, w);
      if next.None? then None else ApplyEach(sent[1..], next.value)
  }

  /** The files agree on where the factory puts each name; deployers, settings,
      Safes and circuits releases may differ. */
  predicate OneFactory(a: NetworkConfig, b: NetworkConfig) {
    a.contracts == b.contracts && a.verifiers == b.verifiers
  }

  lemma RecordsHoldForAll(a: NetworkConfig, b: NetworkConfig, w: World)
    requires OneFactory(a, b) && RecordsHold(a, w)
    ensures RecordsHold(b, w)
  {
    forall n ensures At(a, n) == At(b, n) && (Present(a, w, n) <==> Present(b, w, n)) {}
  }

  lemma {:induction false} EachKeeps(cfg: NetworkConfig, sent: seq<Sent>, w: World)
    requires RecordsHold(cfg, w) && SafesHealthy(w) && ApplyEach(sent, w).Some?
    requires forall s :: s in sent ==> OneFactory(s.cfg, cfg)
    ensures RecordsHold(cfg, ApplyEach(sent, w).value) && SafesHealthy(ApplyEach(sent, w).value)
    decreases |sent|
  {
    if sent != [] {
      var s := sent[0];
      assert s in sent && forall t :: t in sent[1..] ==> t in sent;
      RecordsHoldForAll(cfg, s.cfg, w);
      ApplyKeepsRecords(s.cfg, s.tx, w);
      ApplyKeepsSafesHealthy(s.cfg, s.tx, w);
      RecordsHoldForAll(s.cfg, cfg, Apply(s.cfg, s.tx, w).value);
      EachKeeps(cfg, sent[1..], Apply(s.cfg, s.tx, w).value);
    }
  }

  /** On every chain that started without the factory and any Safe, the records
      hold and the Safes can be used, whatever any files of any circuits
      releases sent since. */
  lemma EveryChainHolds(cfg: NetworkConfig, sent: seq<Sent>, w: World)
    requires w.factory.None? && w.safes == map[] && ApplyEach(sent, w).Some?
    requires forall s :: s in sent ==> OneFactory(s.cfg, cfg)
    ensures RecordsHold(cfg, ApplyEach(sent, w).value) && SafesHealthy(ApplyEach(sent, w).value)
  {
    EachKeeps(cfg, sent, w);
  }

  lemma ExecuteKeepsHealthy(safe: Address, store: OwnerStore, purse: Purse, sender: Address, exec: ExecTransaction)
    requires Healthy(safe, store) && Execute(safe, store, purse, sender, exec).Some?
    ensures Healthy(safe, Execute(safe, store, purse, sender, exec).value)
  {
    var calls := DecodeAll(safe, Unpack(DecodeMultiSend(exec.data).value, 0x20).value).value;
    ManageAllKeepsHealthy(safe, store, calls);
  }

  /** No transaction, whoever built it, breaks an owner list. */
  lemma ApplyKeepsSafesHealthy(cfg: NetworkConfig, tx: Tx, w: World)
    requires SafesHealthy(w) && Apply(cfg, tx, w).Some?
    ensures SafesHealthy(Apply(cfg, tx, w).value)
  {
    match tx {
      case CreateSafe(safe) => SetupIsBootstrap(safe, cfg.deployer);
      case ExecSafe(safe, exec) => ExecuteKeepsHealthy(safe, w.safes[safe], PurseOf(w, safe), cfg.deployer, exec);
      case _ =>
    }
  }
}
