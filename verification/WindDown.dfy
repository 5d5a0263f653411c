/**
  * A builder can always get out: a short plan that returns all capital, closes every listing and frees the whole
  * bond.
  */
module WindDown {
  import opened Types
  import opened Machine
  import opened Lifecycle
  import opened Accounting
  import Escrow
  import Unbonding

  // ---- plans ----

  /** The first `n` transactions of `plan` take effect from `s`, with no signature but the builder's and the vault's. */
  predicate Carried(s: State, plan: seq<Tx>, n: nat, b: Pubkey, vault: Pubkey)
    requires n <= |plan|
  {
    n == 0 ||
    (Carried(s, plan, n - 1, b, vault) && Did(s, plan, n - 1) &&
     (plan[n - 1].signer == b || plan[n - 1].signer == vault))
  }

  /** All of `plan` does, and it leads to `s'`. */
  ghost predicate Carries(s: State, plan: seq<Tx>, s': State, b: Pubkey, vault: Pubkey) {
    StateAt(s, plan, |plan|) == s' && Carried(s, plan, |plan|, b, vault)
  }

  lemma {:induction false} CarriedPrefix(s: State, p: seq<Tx>, q: seq<Tx>, n: nat, b: Pubkey, vault: Pubkey)
    requires n <= |p| && Carried(s, p, n, b, vault)
    ensures Carried(s, p + q, n, b, vault)
  {
    hide Machine.Process, Machine.Succeeds;
    if n > 0 {
      CarriedPrefix(s, p, q, n - 1, b, vault);
      StateAtPrefix(s, p, q, n - 1);
    }
  }

  lemma {:induction false} CarriedAppend(s: State, p: seq<Tx>, q: seq<Tx>, n: nat, b: Pubkey, vault: Pubkey)
    requires n <= |q| && Carried(s, p, |p|, b, vault) && Carried(StateAt(s, p, |p|), q, n, b, vault)
    ensures Carried(s, p + q, |p| + n, b, vault)
  {
    hide Machine.Process, Machine.Succeeds;
    if n == 0 {
      CarriedPrefix(s, p, q, |p|, b, vault);
    } else {
      CarriedAppend(s, p, q, n - 1, b, vault);
      StateAtAppend(s, p, q, n - 1);
    }
  }

  lemma CarriesThrough(s: State, p: seq<Tx>, s1: State, q: seq<Tx>, s2: State, b: Pubkey, vault: Pubkey)
    requires Carries(s, p, s1, b, vault) && Carries(s1, q, s2, b, vault)
    ensures Carries(s, p + q, s2, b, vault)
  {
    hide Machine.Process, Machine.Succeeds;
    StateAtAppend(s, p, q, |q|);
    CarriedAppend(s, p, q, |q|, b, vault);
  }

  lemma CarriesOn(s: State, plan: seq<Tx>, s': State, b: Pubkey, vault: Pubkey, tx: Tx)
    requires Carries(s, plan, s', b, vault) && Succeeds(s', tx) && (tx.signer == b || tx.signer == vault)
    ensures Carries(s, plan + [tx], Process(s', tx), b, vault)
  {
    hide Machine.Apply;
    assert StateAt(s', [tx], 0) == s' && StateAt(s', [tx], 1) == Process(s', tx);
    assert Did(s', [tx], 0) && Carried(s', [tx], 0, b, vault) && Carried(s', [tx], 1, b, vault);
    CarriesThrough(s, plan, s', [tx], Process(s', tx), b, vault);
  }

  /** What a plan needs of the state it starts from; every reachable state provides it. */
  ghost predicate Ready(s: State, b: Pubkey) {
    && Escrow.Sound(s) && b in s.builders && Indexed(s, b) && Gap(s, b) >= 0
    && s.builders[b].unbondRequestedAt <= s.now
  }

  lemma {:induction false} AlwaysReady(s0: State, txs: seq<Tx>, n: nat, b: Pubkey)
    requires IsGenesis(s0) && n <= |txs| && b in StateAt(s0, txs, n).builders
    ensures Ready(StateAt(s0, txs, n), b)
  {
    hide Machine.Apply, Machine.Process;
    Escrow.AlwaysSound(s0, txs, n);
    AlwaysIndexed(s0, txs, n, b);
    AumAgreement(s0, txs, n, b);
    if StateAt(s0, txs, n).builders[b].IsUnbonding() {
      var q := Unbonding.RequestBehind(s0, txs, n, b);
      DidSetsClock(s0, txs, q);
      ClockAdvances(s0, txs, q + 1, n);
    }
  }

  // ---- returning the capital ----

  /** The vault returns all of one listing's capital: nobody's status or consent is asked. */
  lemma DrainOne(s: State, b: Pubkey, id: ListingId)
    requires Ready(s, b) && s.admin.config.vaultAuthority != DEFAULT_PUBKEY
    requires id in s.listings && id.builder == b && s.listings[id].aumCurrent > 0
    ensures var tx := Tx(s.now, s.admin.config.vaultAuthority,
                         OfAum(RecordWithdrawal(b, id, s.listings[id].aumCurrent, false)));
            var s' := Process(s, tx);
            && Succeeds(s, tx) && Ready(s', b) && s'.now == s.now && s'.admin == s.admin && s'.tokens == s.tokens
            && s'.listings.Keys == s.listings.Keys
            && s'.builders[b] == s.builders[b].(totalAum := s'.builders[b].totalAum)
            && s'.listings[id].aumCurrent == 0
            && (forall other | other in s.listings && other != id :: s'.listings[other] == s.listings[other])
  {
    var amount := s.listings[id].aumCurrent;
    var tx := Tx(s.now, s.admin.config.vaultAuthority, OfAum(RecordWithdrawal(b, id, amount, false)));
    assert At(s, tx) == s;
    assert Succeeds(s, tx);
    Escrow.SoundStep(s, tx);
    IndexedStep(s, tx, b);
    WithdrawalGap(s, tx.signer, b, id, amount, false, b);
  }

  lemma {:induction false} Drain(s: State, b: Pubkey, n: nat) returns (plan: seq<Tx>, s': State)
    requires Ready(s, b) && s.admin.config.vaultAuthority != DEFAULT_PUBKEY && n <= s.builders[b].agentCount
    ensures |plan| <= n && Carries(s, plan, s', b, s.admin.config.vaultAuthority)
    ensures Ready(s', b) && s'.now == s.now && s'.admin == s.admin && s'.tokens == s.tokens
    ensures s'.listings.Keys == s.listings.Keys
    ensures s'.builders[b] == s.builders[b].(totalAum := s'.builders[b].totalAum)
    ensures forall i: nat | i < n :: AumOf(s'.listings, ListingId(b, i)) == 0
  {
    hide Machine.Apply, Machine.Process, Escrow.Sound, Gap;
    if n == 0 {
      plan, s' := [], s;
    } else {
      plan, s' := Drain(s, b, n - 1);
      var id := ListingId(b, n - 1);
      assert id in s'.listings;
      if s'.listings[id].aumCurrent > 0 {
        DrainOne(s', b, id);
        var tx := Tx(s'.now, s'.admin.config.vaultAuthority,
                     OfAum(RecordWithdrawal(b, id, s'.listings[id].aumCurrent, false)));
        CarriesOn(s, plan, s', b, s.admin.config.vaultAuthority, tx);
        plan, s' := plan + [tx], Process(s', tx);
      }
    }
  }

  lemma {:induction false} EmptySum(m: map<ListingId, AgentListing>, b: Pubkey, n: nat)
    requires n <= U16_MAX && forall i: nat | i < n :: AumOf(m, ListingId(b, i)) == 0
    ensures ListedAum(m, b, n) == 0
  {
    if n > 0 {
      EmptySum(m, b, n - 1);
    }
  }

  // ---- closing the listings ----

  lemma DelistOne(s: State, b: Pubkey, id: ListingId)
    requires Ready(s, b) && id in s.listings && id.builder == b
    requires s.listings[id].aumCurrent == 0 && s.listings[id].status != Delisted
    ensures var tx := Tx(s.now, b, OfListing(Delist(b, id)));
            && Succeeds(s, tx)
            && Process(s, tx) == s.(listings := s.listings[id := s.listings[id].(status := Delisted)])
            && Ready(Process(s, tx), b)
  {
    var tx := Tx(s.now, b, OfListing(Delist(b, id)));
    assert At(s, tx) == s;
    assert Process(s, tx) == s.(listings := s.listings[id := s.listings[id].(status := Delisted)]);
    Escrow.SoundStep(s, tx);
    ListingGap(s, b, tx.instr.listing, b);
  }

  lemma {:induction false} CloseAll(s: State, b: Pubkey, vault: Pubkey, n: nat) returns (plan: seq<Tx>, s': State)
    requires Ready(s, b) && n <= s.builders[b].agentCount
    requires forall i: nat | i < s.builders[b].agentCount :: AumOf(s.listings, ListingId(b, i)) == 0
    ensures |plan| <= n && Carries(s, plan, s', b, vault)
    ensures Ready(s', b) && s' == s.(listings := s'.listings) && s'.listings.Keys == s.listings.Keys
    ensures forall i: nat | i < s.builders[b].agentCount :: AumOf(s'.listings, ListingId(b, i)) == 0
    ensures forall i: nat | i < n :: ListingId(b, i) in s'.listings && s'.listings[ListingId(b, i)].status == Delisted
  {
    hide Machine.Apply, Machine.Process, Escrow.Sound, Gap;
    if n == 0 {
      plan, s' := [], s;
    } else {
      plan, s' := CloseAll(s, b, vault, n - 1);
      var id := ListingId(b, n - 1);
      assert id in s'.listings && AumOf(s'.listings, id) == 0;
      if s'.listings[id].status != Delisted {
        DelistOne(s', b, id);
        var tx := Tx(s'.now, b, OfListing(Delist(b, id)));
        CarriesOn(s, plan, s', b, vault, tx);
        plan, s' := plan + [tx], Process(s', tx);
      }
    }
  }

  // ---- freeing the bond ----

  lemma Ask(s: State, b: Pubkey)
    requires b in s.builders && !s.builders[b].IsUnbonding()
    ensures var tx := Tx(s.now, b, OfBond(RequestUnbond));
            && Succeeds(s, tx)
            && Process(s, tx) == s.(builders := s.builders[b := s.builders[b].(unbondRequestedAt := s.now)])
  {
    assert At(s, Tx(s.now, b, OfBond(RequestUnbond))) == s;
  }

  /** Between `s` and `s'` the destination received the whole bond `b` has in `s`, unless it is the vault itself. */
  predicate Paid(s: State, b: Pubkey, destination: TokenAddress, s': State)
    requires b in s.builders
  {
    Escrow.Balance(s'.tokens, destination) ==
    Escrow.Balance(s.tokens, destination) + Escrow.When(destination != BondVault(b), s.builders[b].bondAmount)
  }

  lemma TakeAll(s: State, b: Pubkey, destination: TokenAddress, now: Timestamp)
    requires Escrow.Sound(s) && b in s.builders && Escrow.HoldsAgent(s, destination)
    requires s.builders[b].IsUnbonding() && s.builders[b].totalAum == 0 && s.builders[b].bondAmount > 0
    requires now >= s.now && now - s.builders[b].unbondRequestedAt >= s.admin.config.unbondPeriod
    ensures var tx := Tx(now, b, OfBond(WithdrawBond(destination, s.builders[b].bondAmount))); var s' := Process(s, tx);
            && Succeeds(s, tx) && b in s'.builders && s'.builders[b].bondAmount == 0 && s'.builders[b].totalAum == 0
            && s'.listings == s.listings && s'.now == now && Paid(s, b, destination, s')
  {
    var tx := Tx(now, b, OfBond(WithdrawBond(destination, s.builders[b].bondAmount)));
    var at := At(s, tx);
    forall x ensures Escrow.Escrowed(at, x) {
      assert Escrow.Escrowed(s, x);
    }
    Escrow.WithdrawExactly(at, b, destination, s.builders[b].bondAmount);
    Escrow.WithdrawEffect(at, b, destination, s.builders[b].bondAmount, destination);
  }

  /** Request if need be, then withdraw the whole bond one period later; nothing to do when there is no bond. */
  lemma {:induction false} FreeBond(s: State, b: Pubkey, vault: Pubkey, destination: TokenAddress)
    returns (plan: seq<Tx>, s': State)
    requires Ready(s, b) && s.builders[b].totalAum == 0 && Escrow.HoldsAgent(s, destination)
    requires s.now + s.admin.config.unbondPeriod <= I64_MAX
    ensures |plan| <= 2 && Carries(s, plan, s', b, vault)
    ensures b in s'.builders && s'.builders[b].bondAmount == 0 && s'.builders[b].totalAum == 0
    ensures s'.listings == s.listings && Paid(s, b, destination, s')
    ensures s.now <= s'.now <= s.now + s.admin.config.unbondPeriod
  {
    hide Machine.Apply, Machine.Process;
    plan, s' := [], s;
    if s.builders[b].bondAmount > 0 {
      if !s.builders[b].IsUnbonding() {
        Ask(s, b);
        var ask := Tx(s.now, b, OfBond(RequestUnbond));
        Escrow.SoundStep(s, ask);
        CarriesOn(s, plan, s', b, vault, ask);
        plan, s' := plan + [ask], Process(s', ask);
      }
      var now: Timestamp := s.now + s.admin.config.unbondPeriod;
      TakeAll(s', b, destination, now);
      var take := Tx(now, b, OfBond(WithdrawBond(destination, s'.builders[b].bondAmount)));
      CarriesOn(s, plan, s', b, vault, take);
      plan, s' := plan + [take], Process(s', take);
    }
  }

  // ---- the whole plan ----

  /**
    * From any reachable state with a vault authority, the builder and the vault alone can unwind in at most twice
    * the number of listings plus two transactions, within one unbonding period: all of them succeed, and they end
    * with no capital, no bond, every listing delisted, and the whole bond at the destination.
    */
  lemma {:induction false} WindDownAlwaysPossible(s0: State, txs: seq<Tx>, n: nat, b: Pubkey, destination: TokenAddress)
    returns (plan: seq<Tx>, end: State)
    requires IsGenesis(s0) && n <= |txs| && b in StateAt(s0, txs, n).builders
    requires StateAt(s0, txs, n).admin.config.vaultAuthority != DEFAULT_PUBKEY
    requires Escrow.HoldsAgent(StateAt(s0, txs, n), destination)
    requires StateAt(s0, txs, n).now + StateAt(s0, txs, n).admin.config.unbondPeriod <= I64_MAX
    ensures |plan| <= 2 * StateAt(s0, txs, n).builders[b].agentCount + 2
    ensures Carries(StateAt(s0, txs, n), plan, end, b, StateAt(s0, txs, n).admin.config.vaultAuthority)
    ensures b in end.builders && end.builders[b].bondAmount == 0 && end.builders[b].totalAum == 0
    ensures end.now <= StateAt(s0, txs, n).now + StateAt(s0, txs, n).admin.config.unbondPeriod
    ensures Paid(StateAt(s0, txs, n), b, destination, end)
    ensures end.listings.Keys == StateAt(s0, txs, n).listings.Keys
    ensures forall id | id in end.listings && id.builder == b ::
              end.listings[id].status == Delisted && end.listings[id].aumCurrent == 0
  {
    hide Machine.Apply, Machine.Process, Escrow.Sound, Carries;
    var s := StateAt(s0, txs, n);
    var vault, count := s.admin.config.vaultAuthority, s.builders[b].agentCount;
    AlwaysReady(s0, txs, n, b);
    var p1, s1 := Drain(s, b, count);
    EmptySum(s1.listings, b, count);
    var p2, s2 := CloseAll(s1, b, vault, count);
    var p3, s3 := FreeBond(s2, b, vault, destination);
    CarriesThrough(s, p1, s1, p2, s2, b, vault);
    CarriesThrough(s, p1 + p2, s2, p3, s3, b, vault);
    plan, end := p1 + p2 + p3, s3;
    forall id | id in end.listings && id.builder == b
      ensures end.listings[id].status == Delisted && end.listings[id].aumCurrent == 0
    {
      assert id == ListingId(b, id.index) && id.index < count;
      assert AumOf(s2.listings, ListingId(b, id.index)) == 0;
    }
  }
}
