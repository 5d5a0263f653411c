/** Every error means what its message says: an instruction fails exactly when one of the documented reasons holds. */
module Errors {
  import opened Types
  import opened Tiers
  import opened Tokens
  import AdminSpec
  import BondSpec
  import ListingSpec
  import AumSpec
  import opened Machine
  import Timelock
  import Escrow
  import Lifecycle

  // ---- what an instruction names ----

  /** The slot a queue instruction names. */
  function QueuedSlot(i: AdminInstr): Option<u8> {
    match i
    case QueueTransferAuthority(k, _, _) => Some(Seed(k))
    case QueueSetVaultAuthority(k, _, _) => Some(Seed(k))
    case QueueUpdateTiers(k, _, _, _) => Some(Seed(k))
    case _ => None
  }

  /** The kind of change whose slot an execution or veto names, and the account its rent should go to. */
  function Resolved(i: AdminInstr): Option<(ActionKind, Pubkey)> {
    match i
    case ExecuteChange(kind, refund) => Some((kind, refund))
    case VetoChange(kind, refund) => Some((kind, refund))
    case _ => None
  }

  function NewGuardian(i: AdminInstr): Option<Pubkey> {
    match i
    case InitializeGovernance(guardian, _) => Some(guardian)
    case SetGuardian(guardian) => Some(guardian)
    case _ => None
  }

  /** The delay an instruction would set, and the range it must lie in. */
  predicate DelayOutOfRange(a: Admin, i: AdminInstr) {
    match i
    case InitializeGovernance(_, delay) =>
      var d := delay.GetOr(259_200); d < (if a.localnet then 2 else 3_600) || d > 2_592_000
    case SetTimelockDelay(d) =>
      a.governance.Some? && (d <= a.governance.value.timelockDelay || d > 2_592_000)
    case _ => false
  }

  /** The listing a listing instruction works on. */
  function Subject(i: ListingInstr): Option<ListingId> {
    match i
    case SubmitListing(_, _, _) => None
    case ApproveListing(id, _) => Some(id)
    case PauseListing(_, id) => Some(id)
    case ResumeListing(_, id) => Some(id)
    case Delist(_, id) => Some(id)
    case RotateAgentAuthority(id, _) => Some(id)
    case GuardianPauseListing(id) => Some(id)
  }

  /** The builder account a listing instruction names. */
  function Maker(signer: Pubkey, i: ListingInstr): Option<Pubkey> {
    match i
    case SubmitListing(_, _, _) => Some(signer)
    case RotateAgentAuthority(_, _) => Some(signer)
    case PauseListing(builder, _) => Some(builder)
    case ResumeListing(builder, _) => Some(builder)
    case Delist(builder, _) => Some(builder)
    case _ => None
  }

  /** The amount of a bond instruction. */
  function Amount(i: BondInstr): Option<u64> {
    match i
    case StakeBond(_, amount) => Some(amount)
    case WithdrawBond(_, amount) => Some(amount)
    case SlashBond(_, _, _, amount) => Some(amount)
    case _ => None
  }

  /** The builder account a bond instruction works on, unless it is the one that creates it. */
  function Bonded(signer: Pubkey, i: BondInstr): Option<Pubkey> {
    match i
    case RegisterBuilder(_) => None
    case SlashBond(builder, _, _, _) => Some(builder)
    case _ => Some(signer)
  }

  /** The token accounts a bond instruction names beside the vault. */
  function Named(i: BondInstr): set<TokenAddress> {
    match i
    case StakeBond(source, _) => {source}
    case WithdrawBond(destination, _) => {destination}
    case SlashBond(_, traders, buyback, _) => {traders, buyback}
    case _ => {}
  }

  // ---- what each error says ----

  predicate AdminReason(a: Admin, now: Timestamp, signer: Pubkey, i: AdminInstr, e: Error) {
    var slot := QueuedSlot(i);
    match e
    case Unauthorized =>
      || (signer != a.config.authority && !i.InitializeConfig? && !i.VetoChange?)
      || (NewGuardian(i).Some? && NewGuardian(i).value in {0, a.config.authority})
      || (i.QueueTransferAuthority? && i.newAuthority == 0)
    case TierBondsNotIncreasing => i.QueueUpdateTiers? && !(i.newBonds[0] < i.newBonds[1] < i.newBonds[2])
    case TierCeilingsNotIncreasing =>
      i.QueueUpdateTiers? && !(i.newCeilings[0] < i.newCeilings[1] < i.newCeilings[2])
    case InvalidUnbondPeriod => i.SetUnbondPeriod? && !(0 < i.period <= 7_776_000)
    case InvalidTimelockDelay => DelayOutOfRange(a, i)
    case TimelockNotElapsed =>
      i.ExecuteChange? && Seed(i.kind) in a.pending && now < a.pending[Seed(i.kind)].eta
    case PendingChangeKindMismatch =>
      var r := Resolved(i);
      r.Some? && Seed(r.value.0) in a.pending && a.pending[Seed(r.value.0)].kind != r.value.0
    case WrongRentRecipient =>
      var r := Resolved(i);
      r.Some? && Seed(r.value.0) in a.pending && a.pending[Seed(r.value.0)].payer != r.value.1
    case NotGuardianOrAuthority => i.VetoChange? && a.governance.Some? && !Timelock.HoldsVeto(a, signer)
    // The time at which the change could be executed does not fit 64 bits.
    case MathOverflow =>
      slot.Some? && a.governance.Some? && now + a.governance.value.timelockDelay >= 0x8000_0000_0000_0000
    case AccountNotInitialized =>
      || ((slot.Some? || Resolved(i).Some? || i.SetGuardian? || i.SetTimelockDelay?) && a.governance.None?)
      || (Resolved(i).Some? && Seed(Resolved(i).value.0) !in a.pending)
    case AccountAlreadyInUse =>
      || i.InitializeConfig?
      || (i.InitializeGovernance? && a.governance.Some?)
      || (slot.Some? && slot.value in a.pending)
    case _ => false
  }

  predicate BondReason(s: State, signer: Pubkey, i: BondInstr, e: Error) {
    var x, c := Bonded(signer, i), s.admin.config;
    var known := x.Some? && x.value in s.builders;
    match e
    case Unauthorized => i.SlashBond? && signer != c.authority
    case ZeroAmount => Amount(i) == Some(0)
    case BuilderUnbonding => i.StakeBond? && known && s.builders[signer].IsUnbonding()
    case UnbondNotRequested => (i.WithdrawBond? || i.CancelUnbond?) && known && !s.builders[signer].IsUnbonding()
    case UnbondAlreadyRequested => i.RequestUnbond? && known && s.builders[signer].IsUnbonding()
    case UnbondPeriodNotElapsed =>
      i.WithdrawBond? && known && s.now < s.builders[signer].unbondRequestedAt + c.unbondPeriod
    case InsufficientBond =>
      (i.WithdrawBond? || i.SlashBond?) && known && Amount(i).value > s.builders[x.value].bondAmount
    // What stays does not reach the cheapest tier whose ceiling covers the capital, or there is no such tier.
    case TierWouldNotCoverAum =>
      i.WithdrawBond? && known &&
      var b := s.builders[signer]; var k := LeastCoveringTier(c.tierCeilings, b.totalAum);
      b.totalAum > 0 && i.amount <= b.bondAmount && (k > TIER_COUNT || b.bondAmount - i.amount < c.tierBonds[k - 1])
    case AccountNotInitialized => (x.Some? && !known) || exists a :: a in Named(i) && a !in s.tokens
    case AccountAlreadyInUse => i.RegisterBuilder? && signer in s.builders
    case ConstraintViolated =>
      || (i.RegisterBuilder? && i.agentMint != c.agentMint)
      || (exists a :: a in Named(i) && a in s.tokens && s.tokens[a].mint != c.agentMint)
      || (i.StakeBond? && i.source in s.tokens && s.tokens[i.source].owner != Wallet(signer))
    case InsufficientFunds => i.StakeBond? && i.source in s.tokens && s.tokens[i.source].amount < i.amount
    case _ => false
  }

  predicate ListingReason(s: State, signer: Pubkey, i: ListingInstr, e: Error) {
    var id, x := Subject(i), Maker(signer, i);
    var listed := id.Some? && id.value in s.listings;
    var known := x.Some? && x.value in s.builders;
    match e
    case Unauthorized =>
      || (i.ApproveListing? && signer != s.admin.config.authority)
      || ((i.PauseListing? || i.ResumeListing? || i.Delist?) && signer !in {i.builder, s.admin.config.authority})
      || (i.RotateAgentAuthority? && i.id.builder != signer)
    case ListingFeeTooHigh => i.ApproveListing? && i.feeConfig.Some? && i.feeConfig.value.listingFeeBps > 500
    case PerformanceFeeTooHigh => i.ApproveListing? && i.feeConfig.Some? && i.feeConfig.value.performanceFeeBps > 2_000
    case BuilderSplitTooLow => i.ApproveListing? && i.feeConfig.Some? && i.feeConfig.value.builderSplitBps < 5_000
    case BpsOutOfRange =>
      i.ApproveListing? && i.feeConfig.Some? &&
      var f := i.feeConfig.value;
      f.builderSplitBps > 10_000 || f.positionCapBps > 10_000 || f.maxDrawdownBps > 10_000
    case BuilderUnbonding => i.SubmitListing? && known && s.builders[signer].IsUnbonding()
    case BondBelowTierOne => i.SubmitListing? && known && s.builders[signer].tier == 0
    case ListingNotVetting => i.ApproveListing? && listed && s.listings[i.id].status != Vetting
    case ListingNotLive => (i.PauseListing? || i.GuardianPauseListing?) && listed && s.listings[id.value].status != Live
    case ListingNotPaused => i.ResumeListing? && listed && s.listings[i.id].status != Paused
    case ListingDelisted => (i.Delist? || i.RotateAgentAuthority?) && listed && s.listings[id.value].status == Delisted
    case ListingHasAum => i.Delist? && listed && s.listings[i.id].aumCurrent > 0
    case NotGuardian =>
      i.GuardianPauseListing? && s.admin.governance.Some? && signer != s.admin.governance.value.guardian
    case MathOverflow => i.SubmitListing? && known && s.builders[signer].agentCount == 65_535
    case AccountNotInitialized =>
      (id.Some? && !listed) || (x.Some? && !known) || (i.GuardianPauseListing? && s.admin.governance.None?)
    case ConstraintViolated => (i.PauseListing? || i.ResumeListing? || i.Delist?) && i.id.builder != i.builder
    case _ => false
  }

  predicate AumReason(s: State, signer: Pubkey, i: AumInstr, e: Error) {
    var known, listed := i.builder in s.builders, i.id in s.listings;
    match e
    case VaultAuthorityUnset => s.admin.config.vaultAuthority == 0
    case NotVaultAuthority => signer != s.admin.config.vaultAuthority
    case ZeroAmount => i.amount == 0
    case ListingNotLive => i.RecordDeposit? && listed && s.listings[i.id].status != Live
    case BuilderUnbonding => i.RecordDeposit? && known && s.builders[i.builder].IsUnbonding()
    case AumCeilingExceeded =>
      i.RecordDeposit? && known &&
      var b := s.builders[i.builder]; b.totalAum + i.amount > CeilingForTier(s.admin.config.tierCeilings, b.tier)
    // The listing's own counters matter within the ceiling only.
    case MathOverflow =>
      i.RecordDeposit? && known && listed &&
      var b, l := s.builders[i.builder], s.listings[i.id];
      || b.totalAum + i.amount >= 0x1_0000_0000_0000_0000
      || (b.totalAum + i.amount <= CeilingForTier(s.admin.config.tierCeilings, b.tier) &&
          (l.aumCurrent + i.amount >= 0x1_0000_0000_0000_0000 || (i.isNewVault && l.vaultCount == 0xFFFF_FFFF)))
    case AccountNotInitialized => !known || !listed
    case ConstraintViolated => i.id.builder != i.builder
    case _ => false
  }

  predicate TokenReason(s: State, signer: Pubkey, i: TokenInstr, e: Error) {
    match i
    case OpenTokenAccount(id, _, _) => e == AccountAlreadyInUse && Account(id) in s.tokens
    case TransferTokens(from, to, amount) =>
      match e
      case AccountNotInitialized => from !in s.tokens || to !in s.tokens
      case Unauthorized => from in s.tokens && s.tokens[from].owner != Wallet(signer)
      case InsufficientFunds => from in s.tokens && s.tokens[from].amount < amount
      case MintMismatch => from in s.tokens && to in s.tokens && s.tokens[from].mint != s.tokens[to].mint
      // The supply of the agent mint fits 64 bits, so only a foreign token can overflow.
      case TokenOverflow =>
        && from != to && to in s.tokens && s.tokens[to].mint != s.admin.config.agentMint
        && s.tokens[to].amount + amount >= 0x1_0000_0000_0000_0000
      case _ => false
  }

  /** In state `s`, error `e` states a true reason why `signer` cannot do `i`. */
  predicate Reason(s: State, signer: Pubkey, i: Instr, e: Error) {
    match i
    case OfAdmin(i) => AdminReason(s.admin, s.now, signer, i, e)
    case OfBond(i) => BondReason(s, signer, i, e)
    case OfListing(i) => ListingReason(s, signer, i, e)
    case OfAum(i) => AumReason(s, signer, i, e)
    case OfToken(i) => TokenReason(s, signer, i, e)
  }

  /** The order of the checks. Constraints on accounts come before signers, except where a slash checks its accounts. */
  function Rank(i: Instr, e: Error): nat {
    match e
    case AccountNotInitialized => 0
    case AccountAlreadyInUse => 1
    case ConstraintViolated => if i.OfBond? && i.bond.SlashBond? then 5 else 2
    case PendingChangeKindMismatch => 2
    case WrongRentRecipient => 3
    case Unauthorized => 4
    case VaultAuthorityUnset => 4
    case NotVaultAuthority => 5
    case NotGuardian => 5
    case NotGuardianOrAuthority => 5
    case ZeroAmount => 6
    case ListingNotVetting => 7
    case ListingNotLive => 7
    case ListingNotPaused => 7
    case ListingDelisted => 7
    case ListingHasAum => 8
    case BondBelowTierOne => 8
    case BuilderUnbonding => 9
    case UnbondAlreadyRequested => 9
    case UnbondNotRequested => 9
    case InsufficientBond => 10
    case UnbondPeriodNotElapsed => 11
    case TierWouldNotCoverAum => 12
    case ListingFeeTooHigh => 13
    case PerformanceFeeTooHigh => 14
    case BuilderSplitTooLow => 15
    case BpsOutOfRange => 16
    case TierBondsNotIncreasing => 13
    case TierCeilingsNotIncreasing => 14
    case InvalidUnbondPeriod => 15
    case InvalidTimelockDelay => 15
    case TimelockNotElapsed => 15
    case InsufficientFunds => 17
    case MintMismatch => 18
    case TokenOverflow => 19
    case MathOverflow => 19
    case AumCeilingExceeded => 20
  }

  /** Failing `i` with `error` takes note of reason `e`: it is the error given, or comes later. */
  predicate NotBefore(i: Instr, e: Error, error: Error) {
    e == error || Rank(i, error) < Rank(i, e)
  }

  /** The verdict is the first reason that holds, and success when none does. */
  predicate Justified(r: Outcome, i: Instr, e: Error, reason: bool) {
    (r == Fail(e) ==> reason) && (reason ==> r.Fail? && NotBefore(i, e, r.error))
  }

  // ---- the errors are right ----

  lemma AdminErrors(s: State, signer: Pubkey, i: AdminInstr, e: Error)
    requires Timelock.AdminValid(s.admin)
    ensures Justified(AdminSpec.ApplyAdmin(s.admin, s.now, signer, i).Outcome(), OfAdmin(i), e,
                      AdminReason(s.admin, s.now, signer, i, e))
  {
    hide AdminSpec.ApplyAdmin, AdminReason, Timelock.AdminValid;
    if QueuedSlot(i).Some? {
      QueueErrorIsReason(s.admin, s.now, signer, i);
    } else if Resolved(i).Some? {
      ResolveErrorIsReason(s.admin, s.now, signer, i);
    } else {
      SettingErrorIsReason(s.admin, s.now, signer, i);
    }
    if AdminReason(s.admin, s.now, signer, i, e) {
      AdminReasonFails(s.admin, s.now, signer, i, e);
    }
  }

  lemma QueueErrorIsReason(a: Admin, now: Timestamp, signer: Pubkey, i: AdminInstr)
    requires Timelock.AdminValid(a) && QueuedSlot(i).Some?
    ensures var r := AdminSpec.ApplyAdmin(a, now, signer, i);
            r.Err? ==> AdminReason(a, now, signer, i, r.error)
  {
  }

  lemma ResolveErrorIsReason(a: Admin, now: Timestamp, signer: Pubkey, i: AdminInstr)
    requires Timelock.AdminValid(a) && Resolved(i).Some?
    ensures var r := AdminSpec.ApplyAdmin(a, now, signer, i);
            r.Err? ==> AdminReason(a, now, signer, i, r.error)
  {
  }

  lemma SettingErrorIsReason(a: Admin, now: Timestamp, signer: Pubkey, i: AdminInstr)
    requires QueuedSlot(i).None? && Resolved(i).None?
    ensures var r := AdminSpec.ApplyAdmin(a, now, signer, i);
            r.Err? ==> AdminReason(a, now, signer, i, r.error)
  {
  }

  lemma AdminReasonFails(a: Admin, now: Timestamp, signer: Pubkey, i: AdminInstr, e: Error)
    requires Timelock.AdminValid(a) && AdminReason(a, now, signer, i, e)
    ensures var r := AdminSpec.ApplyAdmin(a, now, signer, i);
            r.Err? && NotBefore(OfAdmin(i), e, r.error)
  {
  }

  lemma ListingErrors(s: State, signer: Pubkey, i: ListingInstr, e: Error)
    requires Lifecycle.Indexed(s, signer)
    ensures Justified(ListingSpec.ApplyListing(s, signer, i).Outcome(), OfListing(i), e, ListingReason(s, signer, i, e))
  {
    hide ListingSpec.ApplyListing, ListingReason, Lifecycle.Indexed;
    ListingErrorIsReason(s, signer, i);
    if ListingReason(s, signer, i, e) {
      ListingReasonFails(s, signer, i, e);
    }
  }

  lemma ListingErrorIsReason(s: State, signer: Pubkey, i: ListingInstr)
    requires Lifecycle.Indexed(s, signer)
    ensures var r := ListingSpec.ApplyListing(s, signer, i);
            r.Err? ==> ListingReason(s, signer, i, r.error)
  {
    hide ListingSpec.WithStatus, ListingSpec.NewListing;
  }

  lemma ListingReasonFails(s: State, signer: Pubkey, i: ListingInstr, e: Error)
    requires Lifecycle.Indexed(s, signer) && ListingReason(s, signer, i, e)
    ensures var r := ListingSpec.ApplyListing(s, signer, i);
            r.Err? && NotBefore(OfListing(i), e, r.error)
  {
    hide ListingSpec.WithStatus, ListingSpec.NewListing;
  }

  lemma AumErrors(s: State, signer: Pubkey, i: AumInstr, e: Error)
    ensures Justified(AumSpec.ApplyAum(s, signer, i).Outcome(), OfAum(i), e, AumReason(s, signer, i, e))
  {
    hide AumSpec.ApplyAum, AumReason;
    AumErrorIsReason(s, signer, i);
    if AumReason(s, signer, i, e) {
      AumReasonFails(s, signer, i, e);
    }
  }

  lemma AumErrorIsReason(s: State, signer: Pubkey, i: AumInstr)
    ensures var r := AumSpec.ApplyAum(s, signer, i);
            r.Err? ==> AumReason(s, signer, i, r.error)
  {
  }

  lemma AumReasonFails(s: State, signer: Pubkey, i: AumInstr, e: Error)
    requires AumReason(s, signer, i, e)
    ensures var r := AumSpec.ApplyAum(s, signer, i);
            r.Err? && NotBefore(OfAum(i), e, r.error)
  {
  }

  lemma BondErrors(s: State, signer: Pubkey, i: BondInstr, e: Error)
    requires Escrow.Sound(s)
    ensures Justified(BondSpec.ApplyBond(s, signer, i).Outcome(), OfBond(i), e, BondReason(s, signer, i, e))
  {
    match i
    case StakeBond(source, amount) => StakeErrors(s, signer, source, amount, e);
    case WithdrawBond(destination, amount) => WithdrawErrors(s, signer, destination, amount, e);
    case SlashBond(b, traders, buyback, amount) => SlashErrors(s, signer, b, traders, buyback, amount, e);
    case _ => BuilderErrors(s, signer, i, e);
  }

  lemma BuilderErrors(s: State, signer: Pubkey, i: BondInstr, e: Error)
    requires Escrow.Escrowed(s, signer) && (i.RegisterBuilder? || i.RequestUnbond? || i.CancelUnbond?)
    ensures Justified(BondSpec.ApplyBond(s, signer, i).Outcome(), OfBond(i), e, BondReason(s, signer, i, e))
  {
  }

  lemma StakeErrors(s: State, signer: Pubkey, source: TokenAddress, amount: u64, e: Error)
    requires Escrow.Sound(s)
    ensures Justified(BondSpec.StakeBond(s, signer, source, amount).Outcome(), OfBond(StakeBond(source, amount)), e,
                      BondReason(s, signer, StakeBond(source, amount), e))
  {
    assert Escrow.Escrowed(s, signer);
    Escrow.StakeExactly(s, signer, source, amount);
  }

  lemma WithdrawErrors(s: State, signer: Pubkey, destination: TokenAddress, amount: u64, e: Error)
    requires Escrow.Sound(s)
    ensures Justified(BondSpec.WithdrawBond(s, signer, destination, amount).Outcome(),
                      OfBond(WithdrawBond(destination, amount)), e,
                      BondReason(s, signer, WithdrawBond(destination, amount), e))
  {
    hide BondSpec.WithdrawBond, BondReason, Escrow.Sound;
    WithdrawErrorIsReason(s, signer, destination, amount);
    if BondReason(s, signer, WithdrawBond(destination, amount), e) {
      WithdrawReasonFails(s, signer, destination, amount, e);
    }
  }

  /** Neither the account rules of the vault nor the transfer can fail: the vault covers the bond. */
  lemma WithdrawErrorIsReason(s: State, signer: Pubkey, destination: TokenAddress, amount: u64)
    requires Escrow.Sound(s)
    ensures var r := BondSpec.WithdrawBond(s, signer, destination, amount);
            r.Err? ==> BondReason(s, signer, WithdrawBond(destination, amount), r.error)
  {
    hide Transfer, TierForBond, CeilingForTier, LeastCoveringTier, BondSpec.WithBond;
    assert Escrow.Escrowed(s, signer);
    if signer in s.builders && Escrow.HoldsAgent(s, destination) && amount <= s.builders[signer].bondAmount {
      CoveredAfter(s.admin.config, s.builders[signer], amount);
      TransferSucceeds(s.tokens, BondVault(signer), destination, amount);
    }
  }

  /** Coverage after a withdrawal, as a threshold on what stays. */
  lemma CoveredAfter(c: Config, b: Builder, amount: u64)
    requires Increasing(c.tierBonds) && Increasing(c.tierCeilings) && amount <= b.bondAmount
    ensures var k := LeastCoveringTier(c.tierCeilings, b.totalAum);
            && (k > 0 <==> b.totalAum > 0)
            && (CeilingForTier(c.tierCeilings, BondSpec.WithBond(c, b, b.bondAmount - amount).tier) < b.totalAum <==>
                  k > 0 && (k > TIER_COUNT || b.bondAmount - amount < c.tierBonds[k - 1]))
  {
    CoverageThreshold(c.tierBonds, c.tierCeilings, b.bondAmount - amount, b.totalAum);
  }

  lemma WithdrawReasonFails(s: State, signer: Pubkey, destination: TokenAddress, amount: u64, e: Error)
    requires Escrow.Sound(s) && BondReason(s, signer, WithdrawBond(destination, amount), e)
    ensures var r := BondSpec.WithdrawBond(s, signer, destination, amount);
            r.Err? && NotBefore(OfBond(WithdrawBond(destination, amount)), e, r.error)
  {
    hide Transfer, TierForBond, CeilingForTier, LeastCoveringTier, BondSpec.WithBond;
    assert Escrow.Escrowed(s, signer);
    if signer in s.builders && amount <= s.builders[signer].bondAmount {
      CoveredAfter(s.admin.config, s.builders[signer], amount);
    }
  }

  lemma SlashErrors(s: State, signer: Pubkey, b: Pubkey, traders: TokenAddress, buyback: TokenAddress, amount: u64,
                    e: Error)
    requires Escrow.Sound(s)
    ensures Justified(BondSpec.SlashBond(s, signer, b, traders, buyback, amount).Outcome(),
                      OfBond(SlashBond(b, traders, buyback, amount)), e,
                      BondReason(s, signer, SlashBond(b, traders, buyback, amount), e))
  {
    assert Escrow.Escrowed(s, b);
    Escrow.SlashExactly(s, signer, b, traders, buyback, amount);
  }

  lemma TokenErrors(s: State, signer: Pubkey, i: TokenInstr, e: Error)
    requires Supply(s.tokens, s.admin.config.agentMint) <= U64_MAX
    ensures Justified(ApplyToken(s.tokens, signer, i).Outcome(), OfToken(i), e, TokenReason(s, signer, i, e))
  {
    match i
    case OpenTokenAccount(_, _, _) =>
    case TransferTokens(from, to, amount) =>
      SendErrorIsReason(s, signer, from, to, amount);
  }

  lemma SendErrorIsReason(s: State, signer: Pubkey, from: TokenAddress, to: TokenAddress, amount: u64)
    requires Supply(s.tokens, s.admin.config.agentMint) <= U64_MAX
    ensures var r := ApplyToken(s.tokens, signer, TransferTokens(from, to, amount));
            r.Err? ==> TokenReason(s, signer, TransferTokens(from, to, amount), r.error)
  {
    if from in s.tokens && to in s.tokens && s.tokens[from].mint == s.tokens[to].mint == s.admin.config.agentMint {
      TransferSucceeds(s.tokens, from, to, amount);
    }
  }

  lemma InstrErrors(s: State, signer: Pubkey, i: Instr, e: Error)
    requires Escrow.Sound(s) && Lifecycle.Indexed(s, signer)
    ensures Justified(Apply(s, signer, i).Outcome(), i, e, Reason(s, signer, i, e))
  {
    hide AdminReason, BondReason, ListingReason, AumReason, TokenReason;
    hide AdminSpec.ApplyAdmin, BondSpec.ApplyBond, ListingSpec.ApplyListing, AumSpec.ApplyAum, ApplyToken;
    match i
    case OfAdmin(i) => AdminErrors(s, signer, i, e);
    case OfBond(i) => BondErrors(s, signer, i, e);
    case OfListing(i) => ListingErrors(s, signer, i, e);
    case OfAum(i) => AumErrors(s, signer, i, e);
    case OfToken(i) => TokenErrors(s, signer, i, e);
  }

  lemma SoundLater(s: State, tx: Tx)
    requires Escrow.Sound(s)
    ensures Escrow.Sound(At(s, tx))
  {
    forall b ensures Escrow.Escrowed(At(s, tx), b) {
      assert Escrow.Escrowed(s, b);
    }
  }

  /**
    * In every reachable state, an instruction fails if and only if one of the reasons holds, and the error it reports
    * is a reason that holds and that no other one precedes.
    */
  lemma {:induction false} ErrorsAreTrue(s0: State, txs: seq<Tx>, n: nat, tx: Tx)
    requires IsGenesis(s0) && n <= |txs|
    ensures var s := At(StateAt(s0, txs, n), tx); var r := Apply(s, tx.signer, tx.instr);
            && (r.Err? <==> exists e :: Reason(s, tx.signer, tx.instr, e))
            && (r.Err? ==> Reason(s, tx.signer, tx.instr, r.error))
            && (r.Err? ==> forall e | Reason(s, tx.signer, tx.instr, e) :: NotBefore(tx.instr, e, r.error))
  {
    hide Machine.Process, Machine.Apply, Escrow.Sound, Reason, NotBefore;
    var s := At(StateAt(s0, txs, n), tx);
    Escrow.AlwaysSound(s0, txs, n);
    SoundLater(StateAt(s0, txs, n), tx);
    Lifecycle.AlwaysIndexed(s0, txs, n, tx.signer);
    var r := Apply(s, tx.signer, tx.instr);
    if r.Err? {
      InstrErrors(s, tx.signer, tx.instr, r.error);
    }
    forall e | Reason(s, tx.signer, tx.instr, e) ensures r.Err? && NotBefore(tx.instr, e, r.error) {
      InstrErrors(s, tx.signer, tx.instr, e);
    }
  }
}
