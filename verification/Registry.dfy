/** The program itself: accounts updated in place, instruction by instruction, inside transactions. */
module Registry {
  import opened Types
  import opened Tiers
  import Tokens
  import AdminSpec
  import BondSpec
  import ListingSpec
  import AumSpec
  import Machine

  const U64_MODULUS: int := U64_MAX + 1
  const U128_MAX: int := U64_MODULUS * U64_MODULUS - 1

  /** A handler meets its specification: same verdict, and on success the same state. */
  ghost predicate Meets(r: Outcome, after: State, spec: Result<State>) {
    r == spec.Outcome() && (spec.Ok? ==> after == spec.value)
  }

  /** The same for handlers that concern the administrative accounts only. */
  ghost predicate MeetsAdmin(r: Outcome, after: State, before: State, spec: Result<Admin>) {
    Meets(r, after, Machine.WithAdmin(before, spec))
  }

  class Program {
    const localnet: bool
    var now: Timestamp
    var config: Config
    var governance: Option<Governance>
    var pending: map<u8, PendingChange>
    var builders: map<Pubkey, Builder>
    var listings: map<ListingId, AgentListing>
    var tokens: Ledger

    ghost function Snapshot(): State
      reads this
    {
      State(now, Admin(localnet, config, governance, pending), builders, listings, tokens)
    }

    constructor (localnet: bool, now: Timestamp, tokens: Ledger, authority: Pubkey, agentMint: Pubkey,
                 tierBonds: TierTable, tierCeilings: TierTable, unbondPeriod: i64)
      ensures Snapshot() == State(now, Admin(localnet, Config(authority, agentMint, DEFAULT_PUBKEY, tierBonds,
                                             tierCeilings, unbondPeriod), None, map[]), map[], map[], tokens)
    {
      this.localnet := localnet;
      this.now := now;
      this.tokens := tokens;
      config := Config(authority, agentMint, DEFAULT_PUBKEY, tierBonds, tierCeilings, unbondPeriod);
      governance := None;
      pending := map[];
      builders := map[];
      listings := map[];
    }

    /** `initialize_config` on a cluster that holds nothing but other people's tokens. */
    static method InitializeConfig(localnet: bool, now: Timestamp, tokens: Ledger, authority: Pubkey, agentMint: Pubkey,
                                   tierBonds: TierTable, tierCeilings: TierTable, unbondPeriod: Option<i64>)
      returns (r: Outcome, program: Program?)
      requires forall b :: BondVault(b) !in tokens
      requires Tokens.Supply(tokens, agentMint) <= U64_MAX
      ensures r == AdminSpec.InitialConfig(authority, agentMint, tierBonds, tierCeilings, unbondPeriod).Outcome()
      ensures r.Pass? <==> program != null
      ensures r.Pass? ==> fresh(program) && Machine.IsGenesis(program.Snapshot()) && program.now == now
      ensures r.Pass? ==> program.tokens == tokens && program.localnet == localnet
      ensures r.Pass? ==> Ok(program.config) == AdminSpec.InitialConfig(authority, agentMint, tierBonds, tierCeilings,
                                                                        unbondPeriod)
    {
      var period := unbondPeriod.GetOr(DEFAULT_UNBOND_PERIOD);
      var p := new Program(localnet, now, tokens, authority, agentMint, tierBonds, tierCeilings, period);
      r := ValidateTiers(p.config);
      program := if r.Pass? then p else null;
    }

    // ---- configuration ----

    method SetUnbondPeriod(signer: Pubkey, period: i64) returns (r: Outcome)
      modifies this`config
      ensures MeetsAdmin(r, Snapshot(), old(Snapshot()),
                         AdminSpec.SetUnbondPeriod(old(Snapshot()).admin, signer, period))
    {
      if signer != config.authority { return Fail(Unauthorized); }
      if period <= 0 || period > MAX_UNBOND_PERIOD { return Fail(InvalidUnbondPeriod); }
      config := config.(unbondPeriod := period);
      return Pass;
    }

    // ---- governance ----

    method InitializeGovernance(signer: Pubkey, guardian: Pubkey, timelockDelay: Option<i64>) returns (r: Outcome)
      modifies this`governance
      ensures MeetsAdmin(r, Snapshot(), old(Snapshot()),
                         AdminSpec.InitializeGovernance(old(Snapshot()).admin, signer, guardian, timelockDelay))
    {
      if governance.Some? { return Fail(AccountAlreadyInUse); }
      if signer != config.authority { return Fail(Unauthorized); }
      if guardian == DEFAULT_PUBKEY { return Fail(Unauthorized); }
      if guardian == config.authority { return Fail(Unauthorized); }
      var delay := timelockDelay.GetOr(DEFAULT_TIMELOCK_DELAY);
      if delay < MinTimelockDelay(localnet) || delay > MAX_TIMELOCK_DELAY { return Fail(InvalidTimelockDelay); }
      governance := Some(Governance(guardian, delay));
      return Pass;
    }

    method SetGuardian(signer: Pubkey, newGuardian: Pubkey) returns (r: Outcome)
      modifies this`governance
      ensures MeetsAdmin(r, Snapshot(), old(Snapshot()),
                         AdminSpec.SetGuardian(old(Snapshot()).admin, signer, newGuardian))
    {
      if governance.None? { return Fail(AccountNotInitialized); }
      if signer != config.authority { return Fail(Unauthorized); }
      if newGuardian == DEFAULT_PUBKEY { return Fail(Unauthorized); }
      if newGuardian == config.authority { return Fail(Unauthorized); }
      governance := Some(governance.value.(guardian := newGuardian));
      return Pass;
    }

    method SetTimelockDelay(signer: Pubkey, delay: i64) returns (r: Outcome)
      modifies this`governance
      ensures MeetsAdmin(r, Snapshot(), old(Snapshot()),
                         AdminSpec.SetTimelockDelay(old(Snapshot()).admin, signer, delay))
    {
      if governance.None? { return Fail(AccountNotInitialized); }
      if signer != config.authority { return Fail(Unauthorized); }
      if delay > MAX_TIMELOCK_DELAY || delay <= governance.value.timelockDelay { return Fail(InvalidTimelockDelay); }
      governance := Some(governance.value.(timelockDelay := delay));
      return Pass;
    }

    /** The account rules of the queue instructions. */
    method OpenSlot(signer: Pubkey, slot: ActionKind) returns (r: Outcome)
      ensures r == AdminSpec.QueueAccounts(Snapshot().admin, signer, slot)
    {
      if governance.None? { return Fail(AccountNotInitialized); }
      if Seed(slot) in pending { return Fail(AccountAlreadyInUse); }
      if signer != config.authority { return Fail(Unauthorized); }
      return Pass;
    }

    method Queue(slot: ActionKind, kind: ActionKind, newKey: Pubkey, bonds: TierTable, ceilings: TierTable,
                 payer: Pubkey)
      returns (r: Outcome)
      requires AdminSpec.QueueAccounts(Snapshot().admin, config.authority, slot).Pass?
      modifies this`pending
      ensures MeetsAdmin(r, Snapshot(), old(Snapshot()),
                         AdminSpec.Queue(old(Snapshot()).admin, now, config.authority, slot, kind, newKey, bonds,
                           ceilings, payer))
    {
      var eta := now + governance.value.timelockDelay;
      if eta > I64_MAX || eta < -I64_MAX - 1 { return Fail(MathOverflow); }
      pending := pending[Seed(slot) := PendingChange(kind, newKey, bonds, ceilings, eta, now, payer)];
      return Pass;
    }

    method QueueTransferAuthority(signer: Pubkey, slot: ActionKind, newAuthority: Pubkey, payer: Pubkey)
      returns (r: Outcome)
      modifies this`pending
      ensures MeetsAdmin(r, Snapshot(), old(Snapshot()),
                         AdminSpec.QueueTransferAuthority(old(Snapshot()).admin, now, signer, slot, newAuthority,
                           payer))
    {
      r := OpenSlot(signer, slot);
      if r.Fail? { return; }
      if newAuthority == DEFAULT_PUBKEY { return Fail(Unauthorized); }
      r := Queue(slot, TransferAuthority, newAuthority, NO_TIERS, NO_TIERS, payer);
    }

    method QueueSetVaultAuthority(signer: Pubkey, slot: ActionKind, vaultAuthority: Pubkey, payer: Pubkey)
      returns (r: Outcome)
      modifies this`pending
      ensures MeetsAdmin(r, Snapshot(), old(Snapshot()),
                         AdminSpec.Queue(old(Snapshot()).admin, now, signer, slot, SetVaultAuthority,
                           vaultAuthority, NO_TIERS, NO_TIERS, payer))
    {
      r := OpenSlot(signer, slot);
      if r.Fail? { return; }
      r := Queue(slot, SetVaultAuthority, vaultAuthority, NO_TIERS, NO_TIERS, payer);
    }

    method QueueUpdateTiers(signer: Pubkey, slot: ActionKind, bonds: TierTable, ceilings: TierTable, payer: Pubkey)
      returns (r: Outcome)
      modifies this`pending
      ensures MeetsAdmin(r, Snapshot(), old(Snapshot()),
                         AdminSpec.QueueUpdateTiers(old(Snapshot()).admin, now, signer, slot, bonds, ceilings,
                           payer))
    {
      r := OpenSlot(signer, slot);
      if r.Fail? { return; }
      r := ValidateTierShape(bonds, ceilings);
      if r.Fail? { return; }
      r := Queue(slot, UpdateTiers, DEFAULT_PUBKEY, bonds, ceilings, payer);
    }

    /** The account rules of execution and veto. */
    method FindSlot(kind: ActionKind, rentRefund: Pubkey) returns (r: Outcome)
      ensures r == AdminSpec.ResolveAccounts(Snapshot().admin, kind, rentRefund)
    {
      if governance.None? || Seed(kind) !in pending { return Fail(AccountNotInitialized); }
      if pending[Seed(kind)].kind != kind { return Fail(PendingChangeKindMismatch); }
      if pending[Seed(kind)].payer != rentRefund { return Fail(WrongRentRecipient); }
      return Pass;
    }

    /** The new tiers are written before they are checked; a failure here is undone by the transaction. */
    method ExecuteChange(signer: Pubkey, kind: ActionKind, rentRefund: Pubkey) returns (r: Outcome)
      modifies this`config, this`pending
      ensures MeetsAdmin(r, Snapshot(), old(Snapshot()),
                         AdminSpec.ExecuteChange(old(Snapshot()).admin, now, signer, kind, rentRefund))
    {
      r := FindSlot(kind, rentRefund);
      if r.Fail? { return; }
      if signer != config.authority { return Fail(Unauthorized); }
      var p := pending[Seed(kind)];
      if now < p.eta { return Fail(TimelockNotElapsed); }
      match p.kind {
        case TransferAuthority =>
          config := config.(authority := p.newKey);
        case SetVaultAuthority =>
          config := config.(vaultAuthority := p.newKey);
        case UpdateTiers =>
          config := config.(tierBonds := p.tierBonds);
          config := config.(tierCeilings := p.tierCeilings);
          r := ValidateTiers(config);
          if r.Fail? { return; }
      }
      pending := pending - {Seed(kind)};
      return Pass;
    }

    method VetoChange(signer: Pubkey, kind: ActionKind, rentRefund: Pubkey) returns (r: Outcome)
      modifies this`pending
      ensures MeetsAdmin(r, Snapshot(), old(Snapshot()),
                         AdminSpec.VetoChange(old(Snapshot()).admin, signer, kind, rentRefund))
    {
      r := FindSlot(kind, rentRefund);
      if r.Fail? { return; }
      if signer != governance.value.guardian && signer != config.authority { return Fail(NotGuardianOrAuthority); }
      pending := pending - {Seed(kind)};
      return Pass;
    }

    // ---- builders and bonds ----

    method RegisterBuilder(signer: Pubkey, agentMint: Pubkey) returns (r: Outcome)
      modifies this`builders, this`tokens
      ensures Meets(r, Snapshot(), BondSpec.RegisterBuilder(old(Snapshot()), signer, agentMint))
    {
      if signer in builders || BondVault(signer) in tokens { return Fail(AccountAlreadyInUse); }
      if agentMint != config.agentMint { return Fail(ConstraintViolated); }
      tokens := tokens[BondVault(signer) := TokenAccount(agentMint, BuilderPda(signer), 0)];
      builders := builders[signer := Builder(0, 0, 0, 0, 0, 0, now)];
      return Pass;
    }

    /** One token transfer on behalf of an instruction. */
    method Move(from: TokenAddress, to: TokenAddress, amount: u64) returns (r: Outcome)
      modifies this`tokens
      ensures r == Tokens.Transfer(old(tokens), from, to, amount).Outcome()
      ensures tokens == if r.Pass? then Tokens.Transfer(old(tokens), from, to, amount).value else old(tokens)
    {
      if from !in tokens || to !in tokens { return Fail(AccountNotInitialized); }
      if tokens[from].amount < amount { return Fail(InsufficientFunds); }
      if tokens[from].mint != tokens[to].mint { return Fail(MintMismatch); }
      if from == to { return Pass; }
      if tokens[to].amount + amount > U64_MAX { return Fail(TokenOverflow); }
      tokens := tokens[from := tokens[from].(amount := tokens[from].amount - amount)];
      tokens := tokens[to := tokens[to].(amount := tokens[to].amount + amount)];
      return Pass;
    }

    method StakeBond(signer: Pubkey, source: TokenAddress, amount: u64) returns (r: Outcome)
      modifies this`builders, this`tokens
      ensures Meets(r, Snapshot(), BondSpec.StakeBond(old(Snapshot()), signer, source, amount))
    {
      if signer !in builders || BondVault(signer) !in tokens || source !in tokens {
        return Fail(AccountNotInitialized);
      }
      if tokens[source].mint != config.agentMint || tokens[source].owner != Wallet(signer) {
        return Fail(ConstraintViolated);
      }
      if amount == 0 { return Fail(ZeroAmount); }
      if builders[signer].IsUnbonding() { return Fail(BuilderUnbonding); }
      r := Move(source, BondVault(signer), amount);
      if r.Fail? { return; }
      var b := builders[signer];
      if b.bondAmount + amount > U64_MAX { return Fail(MathOverflow); }
      b := b.(bondAmount := b.bondAmount + amount);
      var tier := ComputeTier(config.tierBonds, b.bondAmount);
      builders := builders[signer := b.(tier := tier)];
      return Pass;
    }

    method RequestUnbond(signer: Pubkey) returns (r: Outcome)
      modifies this`builders
      ensures Meets(r, Snapshot(), BondSpec.RequestUnbond(old(Snapshot()), signer))
    {
      if signer !in builders { return Fail(AccountNotInitialized); }
      if builders[signer].IsUnbonding() { return Fail(UnbondAlreadyRequested); }
      builders := builders[signer := builders[signer].(unbondRequestedAt := now)];
      return Pass;
    }

    method CancelUnbond(signer: Pubkey) returns (r: Outcome)
      modifies this`builders
      ensures Meets(r, Snapshot(), BondSpec.CancelUnbond(old(Snapshot()), signer))
    {
      if signer !in builders { return Fail(AccountNotInitialized); }
      if !builders[signer].IsUnbonding() { return Fail(UnbondNotRequested); }
      builders := builders[signer := builders[signer].(unbondRequestedAt := 0)];
      return Pass;
    }

    method WithdrawBond(signer: Pubkey, destination: TokenAddress, amount: u64) returns (r: Outcome)
      modifies this`builders, this`tokens
      ensures Meets(r, Snapshot(), BondSpec.WithdrawBond(old(Snapshot()), signer, destination, amount))
    {
      if signer !in builders || BondVault(signer) !in tokens || destination !in tokens {
        return Fail(AccountNotInitialized);
      }
      if tokens[destination].mint != config.agentMint { return Fail(ConstraintViolated); }
      if amount == 0 { return Fail(ZeroAmount); }
      var b := builders[signer];
      if !b.IsUnbonding() { return Fail(UnbondNotRequested); }
      if amount > b.bondAmount { return Fail(InsufficientBond); }
      // Both stamps are positive, so the checked subtraction cannot overflow.
      if now - b.unbondRequestedAt < config.unbondPeriod { return Fail(UnbondPeriodNotElapsed); }
      var remaining := b.bondAmount - amount;
      var newTier := ComputeTier(config.tierBonds, remaining);
      if CeilingForTier(config.tierCeilings, newTier) < b.totalAum { return Fail(TierWouldNotCoverAum); }
      r := Move(BondVault(signer), destination, amount);
      if r.Fail? { return; }
      b := b.(bondAmount := remaining);
      b := b.(tier := newTier);
      b := b.(unbondRequestedAt := 0);
      builders := builders[signer := b];
      return Pass;
    }

    /** The traders' share, computed in 128 bits and cast back to 64. */
    method SplitSlash(amount: u64) returns (traderCut: u64, buybackCut: u64)
      ensures traderCut == BondSpec.TraderCut(amount) && traderCut + buybackCut == amount
    {
      var product := amount * SLASH_TRADER_BPS;
      assert 0 <= product <= U128_MAX;
      var quotient := product / BPS_DENOMINATOR;
      traderCut := quotient % U64_MODULUS;
      buybackCut := amount - traderCut;
    }

    /** The transfers of a slash; a share of nothing is not sent. */
    method PayShares(vault: TokenAddress, traderCompensation: TokenAddress, buyback: TokenAddress, amount: u64)
      returns (r: Outcome)
      modifies this`tokens
      ensures r == BondSpec.SlashPayments(old(tokens), vault, traderCompensation, buyback, amount).Outcome()
      ensures r.Pass? ==>
                tokens == BondSpec.SlashPayments(old(tokens), vault, traderCompensation, buyback, amount).value
    {
      var traderCut, buybackCut := SplitSlash(amount);
      r := Pass;
      if traderCut > 0 {
        r := Move(vault, traderCompensation, traderCut);
        if r.Fail? { return; }
      }
      if buybackCut > 0 {
        r := Move(vault, buyback, buybackCut);
      }
    }

    method SlashBond(signer: Pubkey, builder: Pubkey, traderCompensation: TokenAddress, buyback: TokenAddress,
                     amount: u64)
      returns (r: Outcome)
      modifies this`builders, this`tokens
      ensures Meets(r, Snapshot(),
                    BondSpec.SlashBond(old(Snapshot()), signer, builder, traderCompensation, buyback, amount))
    {
      if builder !in builders || BondVault(builder) !in tokens { return Fail(AccountNotInitialized); }
      if traderCompensation !in tokens || buyback !in tokens { return Fail(AccountNotInitialized); }
      if signer != config.authority { return Fail(Unauthorized); }
      if tokens[traderCompensation].mint != config.agentMint { return Fail(ConstraintViolated); }
      if tokens[buyback].mint != config.agentMint { return Fail(ConstraintViolated); }
      if amount == 0 { return Fail(ZeroAmount); }
      var b := builders[builder];
      if amount > b.bondAmount { return Fail(InsufficientBond); }
      r := PayShares(BondVault(builder), traderCompensation, buyback, amount);
      if r.Fail? { return; }
      b := b.(bondAmount := b.bondAmount - amount);
      var tier := ComputeTier(config.tierBonds, b.bondAmount);
      b := b.(tier := tier);
      b := b.(slashCount := if b.slashCount == U16_MAX then U16_MAX else b.slashCount + 1);
      builders := builders[builder := b];
      return Pass;
    }

    // ---- listings ----

    method SubmitListing(signer: Pubkey, agentAuthority: Pubkey, market: u8, metadataHash: Hash) returns (r: Outcome)
      modifies this`builders, this`listings
      ensures Meets(r, Snapshot(),
                    ListingSpec.SubmitListing(old(Snapshot()), signer, agentAuthority, market, metadataHash))
    {
      if signer !in builders { return Fail(AccountNotInitialized); }
      var b := builders[signer];
      var id := ListingId(signer, b.agentCount);
      if id in listings { return Fail(AccountAlreadyInUse); }
      if b.tier < 1 { return Fail(BondBelowTierOne); }
      if b.IsUnbonding() { return Fail(BuilderUnbonding); }
      listings := listings[id := AgentListing(agentAuthority, Vetting, market, metadataHash, ZERO_FEES, 0, 0, now, 0)];
      if b.agentCount == U16_MAX { return Fail(MathOverflow); }
      builders := builders[signer := b.(agentCount := b.agentCount + 1)];
      return Pass;
    }

    method ApproveListing(signer: Pubkey, id: ListingId, feeConfig: Option<FeeConfig>) returns (r: Outcome)
      modifies this`listings
      ensures Meets(r, Snapshot(), ListingSpec.ApproveListing(old(Snapshot()), signer, id, feeConfig))
    {
      if id !in listings { return Fail(AccountNotInitialized); }
      if signer != config.authority { return Fail(Unauthorized); }
      var l := listings[id];
      if l.status != Vetting { return Fail(ListingNotVetting); }
      var fees := feeConfig.GetOr(DEFAULT_FEES);
      r := ListingSpec.ValidateFees(fees);
      if r.Fail? { return; }
      l := l.(fees := fees);
      l := l.(status := Live);
      l := l.(approvedAt := now);
      listings := listings[id := l];
      return Pass;
    }

    /** The account rules of the lifecycle instructions, and their "one of two signers" check. */
    method CheckManager(signer: Pubkey, builder: Pubkey, id: ListingId) returns (r: Outcome)
      ensures r == ListingSpec.ManageAccounts(Snapshot(), signer, builder, id)
    {
      if builder !in builders || id !in listings { return Fail(AccountNotInitialized); }
      if id.builder != builder { return Fail(ConstraintViolated); }
      if signer != builder && signer != config.authority { return Fail(Unauthorized); }
      return Pass;
    }

    method PauseListing(signer: Pubkey, builder: Pubkey, id: ListingId) returns (r: Outcome)
      modifies this`listings
      ensures Meets(r, Snapshot(), ListingSpec.PauseListing(old(Snapshot()), signer, builder, id))
    {
      r := CheckManager(signer, builder, id);
      if r.Fail? { return; }
      if listings[id].status != Live { return Fail(ListingNotLive); }
      listings := listings[id := listings[id].(status := Paused)];
      return Pass;
    }

    method ResumeListing(signer: Pubkey, builder: Pubkey, id: ListingId) returns (r: Outcome)
      modifies this`listings
      ensures Meets(r, Snapshot(), ListingSpec.ResumeListing(old(Snapshot()), signer, builder, id))
    {
      r := CheckManager(signer, builder, id);
      if r.Fail? { return; }
      if listings[id].status != Paused { return Fail(ListingNotPaused); }
      listings := listings[id := listings[id].(status := Live)];
      return Pass;
    }

    method Delist(signer: Pubkey, builder: Pubkey, id: ListingId) returns (r: Outcome)
      modifies this`listings
      ensures Meets(r, Snapshot(), ListingSpec.Delist(old(Snapshot()), signer, builder, id))
    {
      r := CheckManager(signer, builder, id);
      if r.Fail? { return; }
      if listings[id].status == Delisted { return Fail(ListingDelisted); }
      if listings[id].aumCurrent != 0 { return Fail(ListingHasAum); }
      listings := listings[id := listings[id].(status := Delisted)];
      return Pass;
    }

    method RotateAgentAuthority(signer: Pubkey, id: ListingId, newAgentAuthority: Pubkey) returns (r: Outcome)
      modifies this`listings
      ensures Meets(r, Snapshot(), ListingSpec.RotateAgentAuthority(old(Snapshot()), signer, id, newAgentAuthority))
    {
      if signer !in builders || id !in listings { return Fail(AccountNotInitialized); }
      if id.builder != signer { return Fail(Unauthorized); }
      if listings[id].status == Delisted { return Fail(ListingDelisted); }
      listings := listings[id := listings[id].(agentAuthority := newAgentAuthority)];
      return Pass;
    }

    method GuardianPauseListing(signer: Pubkey, id: ListingId) returns (r: Outcome)
      modifies this`listings
      ensures Meets(r, Snapshot(), ListingSpec.GuardianPauseListing(old(Snapshot()), signer, id))
    {
      if governance.None? || id !in listings { return Fail(AccountNotInitialized); }
      if governance.value.guardian != signer { return Fail(NotGuardian); }
      if listings[id].status != Live { return Fail(ListingNotLive); }
      listings := listings[id := listings[id].(status := Paused)];
      return Pass;
    }

    // ---- assets under management ----

    method CheckVault(signer: Pubkey, builder: Pubkey, id: ListingId) returns (r: Outcome)
      ensures r == AumSpec.AumAccounts(Snapshot(), signer, builder, id)
    {
      if builder !in builders || id !in listings { return Fail(AccountNotInitialized); }
      if id.builder != builder { return Fail(ConstraintViolated); }
      if config.vaultAuthority == DEFAULT_PUBKEY { return Fail(VaultAuthorityUnset); }
      if signer != config.vaultAuthority { return Fail(NotVaultAuthority); }
      return Pass;
    }

    method RecordDeposit(signer: Pubkey, builder: Pubkey, id: ListingId, amount: u64, isNewVault: bool)
      returns (r: Outcome)
      modifies this`builders, this`listings
      ensures Meets(r, Snapshot(), AumSpec.RecordDeposit(old(Snapshot()), signer, builder, id, amount, isNewVault))
    {
      r := CheckVault(signer, builder, id);
      if r.Fail? { return; }
      if amount == 0 { return Fail(ZeroAmount); }
      if listings[id].status != Live { return Fail(ListingNotLive); }
      var b := builders[builder];
      if b.IsUnbonding() { return Fail(BuilderUnbonding); }
      var newTotal := b.totalAum + amount;
      if newTotal > U64_MAX { return Fail(MathOverflow); }
      if newTotal > CeilingForTier(config.tierCeilings, b.tier) { return Fail(AumCeilingExceeded); }
      builders := builders[builder := b.(totalAum := newTotal)];
      var l := listings[id];
      if l.aumCurrent + amount > U64_MAX { return Fail(MathOverflow); }
      l := l.(aumCurrent := l.aumCurrent + amount);
      if isNewVault {
        if l.vaultCount == U32_MAX { return Fail(MathOverflow); }
        l := l.(vaultCount := l.vaultCount + 1);
      }
      listings := listings[id := l];
      return Pass;
    }

    method RecordWithdrawal(signer: Pubkey, builder: Pubkey, id: ListingId, amount: u64, vaultClosed: bool)
      returns (r: Outcome)
      modifies this`builders, this`listings
      ensures Meets(r, Snapshot(), AumSpec.RecordWithdrawal(old(Snapshot()), signer, builder, id, amount, vaultClosed))
    {
      r := CheckVault(signer, builder, id);
      if r.Fail? { return; }
      if amount == 0 { return Fail(ZeroAmount); }
      var b := builders[builder];
      builders := builders[builder := b.(totalAum := if b.totalAum < amount then 0 else b.totalAum - amount)];
      var l := listings[id];
      l := l.(aumCurrent := if l.aumCurrent < amount then 0 else l.aumCurrent - amount);
      if vaultClosed {
        l := l.(vaultCount := if l.vaultCount < 1 then 0 else l.vaultCount - 1);
      }
      listings := listings[id := l];
      return Pass;
    }

    // ---- transactions ----

    method RunAdmin(signer: Pubkey, i: AdminInstr) returns (r: Outcome)
      modifies this`config, this`governance, this`pending
      ensures MeetsAdmin(r, Snapshot(), old(Snapshot()),
                         AdminSpec.ApplyAdmin(old(Snapshot()).admin, now, signer, i))
    {
      match i {
        case InitializeConfig(_, _, _, _, _) => r := Fail(AccountAlreadyInUse);
        case SetUnbondPeriod(period) => r := SetUnbondPeriod(signer, period);
        case InitializeGovernance(guardian, delay) => r := InitializeGovernance(signer, guardian, delay);
        case SetGuardian(guardian) => r := SetGuardian(signer, guardian);
        case SetTimelockDelay(delay) => r := SetTimelockDelay(signer, delay);
        case QueueTransferAuthority(slot, key, payer) => r := QueueTransferAuthority(signer, slot, key, payer);
        case QueueSetVaultAuthority(slot, key, payer) => r := QueueSetVaultAuthority(signer, slot, key, payer);
        case QueueUpdateTiers(slot, bonds, ceilings, payer) =>
          r := QueueUpdateTiers(signer, slot, bonds, ceilings, payer);
        case ExecuteChange(kind, refund) => r := ExecuteChange(signer, kind, refund);
        case VetoChange(kind, refund) => r := VetoChange(signer, kind, refund);
      }
    }

    method RunBond(signer: Pubkey, i: BondInstr) returns (r: Outcome)
      modifies this`builders, this`tokens
      ensures Meets(r, Snapshot(), BondSpec.ApplyBond(old(Snapshot()), signer, i))
    {
      match i {
        case RegisterBuilder(mint) => r := RegisterBuilder(signer, mint);
        case StakeBond(source, amount) => r := StakeBond(signer, source, amount);
        case RequestUnbond => r := RequestUnbond(signer);
        case CancelUnbond => r := CancelUnbond(signer);
        case WithdrawBond(destination, amount) => r := WithdrawBond(signer, destination, amount);
        case SlashBond(builder, traders, buyback, amount) => r := SlashBond(signer, builder, traders, buyback, amount);
      }
    }

    method RunListing(signer: Pubkey, i: ListingInstr) returns (r: Outcome)
      modifies this`builders, this`listings
      ensures Meets(r, Snapshot(), ListingSpec.ApplyListing(old(Snapshot()), signer, i))
    {
      match i {
        case SubmitListing(agent, market, hash) => r := SubmitListing(signer, agent, market, hash);
        case ApproveListing(id, fees) => r := ApproveListing(signer, id, fees);
        case PauseListing(builder, id) => r := PauseListing(signer, builder, id);
        case ResumeListing(builder, id) => r := ResumeListing(signer, builder, id);
        case Delist(builder, id) => r := Delist(signer, builder, id);
        case RotateAgentAuthority(id, agent) => r := RotateAgentAuthority(signer, id, agent);
        case GuardianPauseListing(id) => r := GuardianPauseListing(signer, id);
      }
    }

    method RunAum(signer: Pubkey, i: AumInstr) returns (r: Outcome)
      modifies this`builders, this`listings
      ensures Meets(r, Snapshot(), AumSpec.ApplyAum(old(Snapshot()), signer, i))
    {
      match i {
        case RecordDeposit(builder, id, amount, isNew) => r := RecordDeposit(signer, builder, id, amount, isNew);
        case RecordWithdrawal(builder, id, amount, closed) =>
          r := RecordWithdrawal(signer, builder, id, amount, closed);
      }
    }

    method RunToken(signer: Pubkey, i: TokenInstr) returns (r: Outcome)
      modifies this`tokens
      ensures Meets(r, Snapshot(), Machine.WithTokens(old(Snapshot()), Machine.ApplyToken(old(tokens), signer, i)))
    {
      match i {
        case OpenTokenAccount(id, mint, owner) =>
          if Account(id) in tokens { return Fail(AccountAlreadyInUse); }
          tokens := tokens[Account(id) := TokenAccount(mint, owner, 0)];
          r := Pass;
        case TransferTokens(from, to, amount) =>
          if from !in tokens || to !in tokens { return Fail(AccountNotInitialized); }
          if tokens[from].owner != Wallet(signer) { return Fail(Unauthorized); }
          r := Move(from, to, amount);
      }
    }

    method Dispatch(signer: Pubkey, i: Instr) returns (r: Outcome)
      modifies this`config, this`governance, this`pending, this`builders, this`listings, this`tokens
      ensures Meets(r, Snapshot(), Machine.Apply(old(Snapshot()), signer, i))
    {
      match i {
        case OfAdmin(i) => r := RunAdmin(signer, i);
        case OfBond(i) => r := RunBond(signer, i);
        case OfListing(i) => r := RunListing(signer, i);
        case OfAum(i) => r := RunAum(signer, i);
        case OfToken(i) => r := RunToken(signer, i);
      }
    }

    /** A transaction: the handler may leave anything behind when it fails, the runtime puts it all back. */
    method Submit(tx: Tx) returns (r: Outcome)
      requires now <= tx.now
      modifies this
      ensures r.Pass? <==> Machine.Succeeds(old(Snapshot()), tx)
      ensures r == Machine.Apply(Machine.At(old(Snapshot()), tx), tx.signer, tx.instr).Outcome()
      ensures Snapshot() == Machine.Process(old(Snapshot()), tx)
    {
      now := tx.now;
      var config0, governance0, pending0 := config, governance, pending;
      var builders0, listings0, tokens0 := builders, listings, tokens;
      r := Dispatch(tx.signer, tx.instr);
      if r.Fail? {
        config, governance, pending := config0, governance0, pending0;
        builders, listings, tokens := builders0, listings0, tokens0;
      }
    }

    /** A transaction stamped before the ledger clock never reaches the program. */
    method Land(tx: Tx) returns (r: Outcome)
      modifies this
      ensures r.Pass? <==> Machine.Succeeds(old(Snapshot()), tx)
      ensures Snapshot() == Machine.Process(old(Snapshot()), tx)
    {
      if tx.now < now { return Fail(ConstraintViolated); }
      r := Submit(tx);
    }

    /** A whole run, transaction by transaction. */
    method SubmitAll(txs: seq<Tx>) returns (outcomes: seq<Outcome>)
      modifies this
      ensures |outcomes| == |txs|
      ensures Snapshot() == Machine.StateAt(old(Snapshot()), txs, |txs|)
      ensures forall i | 0 <= i < |txs| :: outcomes[i].Pass? <==> Machine.Did(old(Snapshot()), txs, i)
    {
      hide Machine.Process, Machine.Succeeds;
      ghost var s0 := Snapshot();
      outcomes := [];
      for i := 0 to |txs|
        invariant |outcomes| == i
        invariant Snapshot() == Machine.StateAt(s0, txs, i)
        invariant forall j | 0 <= j < i :: outcomes[j].Pass? <==> Machine.Did(s0, txs, j)
      {
        var r := Land(txs[i]);
        outcomes := outcomes + [r];
      }
    }
  }
}
