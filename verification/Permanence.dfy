/** What no transaction can undo, whichever file's apply sent it: records, code,
    the owners of proxies, and the pointers a contract cannot work without. */
module Permanence {
  import opened Prelude
  import opened OwnerSets
  import opened OwnerManager
  import opened Safes
  import opened Config
  import opened Worlds
  import opened Converge

  /** Records and code are there for good, and only the owner of the factory
      adds to them, under a name and at an address nothing holds. */
  ghost predicate RecordsOnlyGrow(cfg: NetworkConfig, w: World, w': World) {
    && (forall a :: a in w.code ==> a in w'.code && w'.code[a] == w.code[a])
    && (w.factory.Some? ==> w'.factory.Some?)
    && (w.factory.Some? ==>
          forall n :: n in w.factory.value.records ==>
            n in w'.factory.value.records && w'.factory.value.records[n] == w.factory.value.records[n])
    && (w'.factory.Some? ==>
          forall n :: n in w'.factory.value.records && !(w.factory.Some? && n in w.factory.value.records) ==>
            && w.factory.Some? && w.factory.value.owner == cfg.deployer
            && !Present(cfg, w, n) && Present(cfg, w', n))
  }

  lemma TxRecordsOnlyGrow(cfg: NetworkConfig, tx: Tx, w: World, w': World)
    requires Apply(cfg, tx, w) == Some(w')
    ensures RecordsOnlyGrow(cfg, w, w')
  {
  }

  /** The method through which each setting of a contract moves, and the code a
      Platform Verifier lets itself be pointed at. */
  ghost predicate SettingsMoveBy(w: World, n: Name, impl: Impl, a: Slots, b: Slots) {
    && (b.trusted != a.trusted ==> SetNotary in impl.answers)
    && (b.fee != a.fee ==> SetFee in impl.answers)
    && (b.recipient != a.recipient ==> SetFeeRecipient in impl.answers)
    && (b.versions != a.versions ==> SetVerifier in impl.answers)
    && (b.pointer != a.pointer ==>
          if n == IdentityRegistry then SetProofVerifier in impl.answers else SetNotaryService in impl.answers)
    && (b.roots != a.roots ==> SetJwtRoots in impl.answers)
    && ((b.notary, b.honk) != (a.notary, a.honk) ==>
          SetTrustRoots in impl.answers && b.honk in w.code && impl.pins == Some(w.code[b.honk]))
    && b.rotationDue == a.rotationDue
  }

  /** A proxy keeps its owner, and moves only at its owner's word: its settings
      through the setters its implementation has, or its implementation, and
      then none of its settings. */
  ghost predicate ProxyMoves(cfg: NetworkConfig, w: World, n: Name, a: Proxy, b: Proxy) {
    && b.owner == a.owner
    && (b != a ==> a.owner == cfg.deployer)
    && (b.impl != a.impl ==> b == Proxy(Release(cfg, n), a.owner, a.slots) && UpgradeToAndCall in a.impl.answers)
    && (b.impl == a.impl ==> SettingsMoveBy(w, n, a.impl, a.slots, b.slots))
  }

  lemma SettingMoves(cfg: NetworkConfig, n: Name, change: Change, w: World)
    requires Apply(cfg, SetOn(n, change), w).Some?
    ensures n in w.proxies
    ensures var a := w.proxies[n]; SettingsMoveBy(w, n, a.impl, a.slots, Changed(a.slots, change))
  {
  }

  lemma OtherProxiesStay(cfg: NetworkConfig, tx: Tx, w: World, w': World, n: Name)
    requires n in w.proxies && Apply(cfg, tx, w) == Some(w')
    requires (tx.SetOn? || tx.Upgrade?) ==> tx.name != n
    ensures n in w'.proxies && w'.proxies[n] == w.proxies[n]
  {
  }

  lemma TxProxyMoves(cfg: NetworkConfig, tx: Tx, w: World, w': World, n: Name)
    requires n in w.proxies && Apply(cfg, tx, w) == Some(w')
    ensures n in w'.proxies && ProxyMoves(cfg, w, n, w.proxies[n], w'.proxies[n])
  {
    if (tx.SetOn? || tx.Upgrade?) && tx.name == n {
      if tx.SetOn? { SettingMoves(cfg, n, tx.change, w); }
    } else {
      OtherProxiesStay(cfg, tx, w, w', n);
    }
  }

  /** What a contract needs around it the day it is deployed. */
  ghost predicate ProxyStarts(cfg: NetworkConfig, w: World, n: Name, b: Proxy) {
    && b.impl == Release(cfg, n) && b.owner == cfg.deployer
    && w.factory.Some? && w.factory.value.owner == cfg.deployer
    && (n == HandleEscrow ==>
          && b.slots.pointer == cfg.contracts.identityRegistry
          && IdentityRegistry in w.proxies && NodeKeyed in w.proxies[IdentityRegistry].impl.answers)
    && (n.PlatformVerifier? ==> b.slots.honk in w.code && b.impl.pins == Some(w.code[b.slots.honk]))
  }

  lemma TxProxyStarts(cfg: NetworkConfig, tx: Tx, w: World, w': World, n: Name)
    requires n !in w.proxies && n in w'.proxies && Apply(cfg, tx, w) == Some(w')
    ensures ProxyStarts(cfg, w, n, w'.proxies[n])
  {
  }

  // ----- Over any transactions of any files of one factory -----

  /** Every implementation is some release's, the escrow is bound to the
      registry, and every Platform Verifier points at code. */
  ghost predicate Wired(cfg: NetworkConfig, w: World) {
    forall n :: n in w.proxies ==>
      && w.proxies[n].impl.answers == Interface(n)
      && (n == HandleEscrow ==> w.proxies[n].slots.pointer == cfg.contracts.identityRegistry)
      && (n.PlatformVerifier? ==> w.proxies[n].slots.honk in w.code)
  }

  lemma TxKeepsWired(cfg: NetworkConfig, tx: Tx, w: World, w': World)
    requires Wired(cfg, w) && Apply(cfg, tx, w) == Some(w')
    ensures Wired(cfg, w')
  {
    TxRecordsOnlyGrow(cfg, tx, w, w');
    forall n | n in w'.proxies
      ensures w'.proxies[n].impl.answers == Interface(n)
      ensures n == HandleEscrow ==> w'.proxies[n].slots.pointer == cfg.contracts.identityRegistry
      ensures n.PlatformVerifier? ==> w'.proxies[n].slots.honk in w'.code
    {
      if n in w.proxies { TxProxyMoves(cfg, tx, w, w', n); } else { TxProxyStarts(cfg, tx, w, w', n); }
    }
  }

  /** A Safe moves only at the word of an owner who signs for it alone. */
  lemma TxMovesOwnSafe(cfg: NetworkConfig, tx: Tx, w: World, w': World, safe: Address)
    requires SafesHealthy(w) && safe in w.safes && Apply(cfg, tx, w) == Some(w')
    ensures safe in w'.safes
    ensures w'.safes[safe] != w.safes[safe] ==> OwnersOf(w.safes[safe]).SignsAlone(cfg.deployer)
  {
    if tx.ExecSafe? && tx.safe == safe {
      var _ := ExecutesOnlyItsOwn(safe, w.safes[safe], PurseOf(w, safe), cfg.deployer, tx.exec);
    } else {
      OtherSafesStay(cfg, tx, w, w', safe);
    }
  }

  lemma OtherSafesStay(cfg: NetworkConfig, tx: Tx, w: World, w': World, safe: Address)
    requires safe in w.safes && Apply(cfg, tx, w) == Some(w') && !(tx.ExecSafe? && tx.safe == safe)
    ensures safe in w'.safes && w'.safes[safe] == w.safes[safe]
  {
  }

  /** A Safe that no deployer signs for alone is beyond any transaction of any
      files, whatever it carries. */
  lemma {:induction false} HeldAgainstAll(sent: seq<Sent>, w: World, safe: Address)
    requires SafesHealthy(w) && safe in w.safes && ApplyEach(sent, w).Some?
    requires forall s :: s in sent ==> !OwnersOf(w.safes[safe]).SignsAlone(s.cfg.deployer)
    ensures safe in ApplyEach(sent, w).value.safes && ApplyEach(sent, w).value.safes[safe] == w.safes[safe]
    decreases |sent|
  {
    if sent != [] {
      var s := sent[0];
      assert s in sent && forall t :: t in sent[1..] ==> t in sent;
      var next := Apply(s.cfg, s.tx, w).value;
      TxMovesOwnSafe(s.cfg, s.tx, w, next, safe);
      ApplyKeepsSafesHealthy(s.cfg, s.tx, w);
      HeldAgainstAll(sent[1..], next, safe);
    }
  }

  /** What stays between two states of a chain. */
  ghost predicate Keeps(w: World, end: World) {
    && (forall a :: a in w.code ==> a in end.code && end.code[a] == w.code[a])
    && (forall n :: n in w.proxies ==> n in end.proxies && end.proxies[n].owner == w.proxies[n].owner)
    && (w.factory.Some? ==> end.factory.Some?)
    && (w.factory.Some? ==>
          forall n :: n in w.factory.value.records ==>
            n in end.factory.value.records && end.factory.value.records[n] == w.factory.value.records[n])
  }

  lemma TxKeeps(cfg: NetworkConfig, tx: Tx, w: World, w': World)
    requires Apply(cfg, tx, w) == Some(w')
    ensures Keeps(w, w')
  {
    TxRecordsOnlyGrow(cfg, tx, w, w');
    forall n | n in w.proxies ensures n in w'.proxies && w'.proxies[n].owner == w.proxies[n].owner {
      TxProxyMoves(cfg, tx, w, w', n);
    }
  }

  lemma {:induction false} NothingIsReplaced(sent: seq<Sent>, w: World)
    requires ApplyEach(sent, w).Some?
    ensures Keeps(w, ApplyEach(sent, w).value)
    decreases |sent|
  {
    if sent != [] {
      var next := Apply(sent[0].cfg, sent[0].tx, w).value;
      TxKeeps(sent[0].cfg, sent[0].tx, w, next);
      NothingIsReplaced(sent[1..], next);
    }
  }

  lemma WiredForAll(a: NetworkConfig, b: NetworkConfig, w: World)
    requires OneFactory(a, b) && Wired(a, w)
    ensures Wired(b, w)
  {
  }

  lemma {:induction false} EachKeepsWired(cfg: NetworkConfig, sent: seq<Sent>, w: World)
    requires Wired(cfg, w) && ApplyEach(sent, w).Some?
    requires forall s :: s in sent ==> OneFactory(s.cfg, cfg)
    ensures Wired(cfg, ApplyEach(sent, w).value)
    decreases |sent|
  {
    if sent != [] {
      var s := sent[0];
      assert s in sent && forall t :: t in sent[1..] ==> t in sent;
      var next := Apply(s.cfg, s.tx, w).value;
      WiredForAll(cfg, s.cfg, w);
      TxKeepsWired(s.cfg, s.tx, w, next);
      WiredForAll(s.cfg, cfg, next);
      EachKeepsWired(cfg, sent[1..], next);
    }
  }

  /** On every chain that started without the contracts, the escrow is bound to
      the registry for good and no Platform Verifier points at an address
      without code, whatever any files of one factory sent since. */
  lemma EveryChainIsWired(cfg: NetworkConfig, sent: seq<Sent>, w: World)
    requires w.proxies == map[] && ApplyEach(sent, w).Some?
    requires forall s :: s in sent ==> OneFactory(s.cfg, cfg)
    ensures Wired(cfg, ApplyEach(sent, w).value)
  {
    EachKeepsWired(cfg, sent, w);
  }

  /** So the one setting apply can only check, the escrow's registry, stops no
      run on such a chain. */
  lemma EscrowCheckPasses(ctx: Ctx, sent: seq<Sent>, w: World)
    requires w.proxies == map[] && ApplyEach(sent, w).Some?
    requires forall s :: s in sent ==> OneFactory(s.cfg, ctx.cfg)
    ensures HandleEscrow in ApplyEach(sent, w).value.proxies ==> MoveFor(ctx, EscrowBound, ApplyEach(sent, w).value) == Keep
  {
    EveryChainIsWired(ctx.cfg, sent, w);
    if HandleEscrow in ApplyEach(sent, w).value.proxies { WiredEscrow(ctx, ApplyEach(sent, w).value); }
  }

  lemma WiredEscrow(ctx: Ctx, w: World)
    requires Wired(ctx.cfg, w) && HandleEscrow in w.proxies
    ensures MoveFor(ctx, EscrowBound, w) == Keep
  {
  }
}
