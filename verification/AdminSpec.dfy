/**
  * What each configuration and governance instruction does, as a function of the administrative accounts. Account
  * rules come first, in the framework's order: accounts that must exist, accounts to be created, constraints.
  */
module AdminSpec {
  import opened Types
  import opened Tiers

  /** The state a fresh program starts from once `initialize_config` succeeds. */
  function InitialConfig(authority: Pubkey, agentMint: Pubkey, tierBonds: TierTable, tierCeilings: TierTable,
                         unbondPeriod: Option<i64>): Result<Config> {
    var c := Config(authority, agentMint, DEFAULT_PUBKEY, tierBonds, tierCeilings,
                    unbondPeriod.GetOr(DEFAULT_UNBOND_PERIOD));
    match ValidateTiers(c)
    case Fail(e) => Err(e)
    case Pass => Ok(c)
  }

  function SetUnbondPeriod(a: Admin, signer: Pubkey, period: i64): Result<Admin> {
    if signer != a.config.authority then Err(Unauthorized)
    else if !(0 < period <= MAX_UNBOND_PERIOD) then Err(InvalidUnbondPeriod)
    else Ok(a.(config := a.config.(unbondPeriod := period)))
  }

  function InitializeGovernance(a: Admin, signer: Pubkey, guardian: Pubkey, timelockDelay: Option<i64>): Result<Admin> {
    var delay := timelockDelay.GetOr(DEFAULT_TIMELOCK_DELAY);
    if a.governance.Some? then Err(AccountAlreadyInUse)
    else if signer != a.config.authority then Err(Unauthorized)
    else if guardian == DEFAULT_PUBKEY || guardian == a.config.authority then Err(Unauthorized)
    else if !(MinTimelockDelay(a.localnet) <= delay <= MAX_TIMELOCK_DELAY) then Err(InvalidTimelockDelay)
    else Ok(a.(governance := Some(Governance(guardian, delay))))
  }

  function SetGuardian(a: Admin, signer: Pubkey, newGuardian: Pubkey): Result<Admin> {
    if a.governance.None? then Err(AccountNotInitialized)
    else if signer != a.config.authority then Err(Unauthorized)
    else if newGuardian == DEFAULT_PUBKEY || newGuardian == a.config.authority then Err(Unauthorized)
    else Ok(a.(governance := Some(a.governance.value.(guardian := newGuardian))))
  }

  function SetTimelockDelay(a: Admin, signer: Pubkey, delay: i64): Result<Admin> {
    if a.governance.None? then Err(AccountNotInitialized)
    else if signer != a.config.authority then Err(Unauthorized)
    else if !(a.governance.value.timelockDelay < delay <= MAX_TIMELOCK_DELAY) then Err(InvalidTimelockDelay)
    else Ok(a.(governance := Some(a.governance.value.(timelockDelay := delay))))
  }

  /** The account rules every queue instruction shares: `slot` is the caller's own choice of slot. */
  function QueueAccounts(a: Admin, signer: Pubkey, slot: ActionKind): Outcome {
    if a.governance.None? then Fail(AccountNotInitialized)
    else if Seed(slot) in a.pending then Fail(AccountAlreadyInUse)
    else if signer != a.config.authority then Fail(Unauthorized)
    else Pass
  }

  /** Announces a change of kind `kind` in the slot of kind `slot`; nothing makes the two agree. */
  function Queue(a: Admin, now: Timestamp, signer: Pubkey, slot: ActionKind, kind: ActionKind, newKey: Pubkey,
                 bonds: TierTable, ceilings: TierTable, payer: Pubkey): Result<Admin>
  {
    if QueueAccounts(a, signer, slot).Fail? then Err(QueueAccounts(a, signer, slot).error)
    else
      var eta := now + a.governance.value.timelockDelay;
      if !(-I64_MAX - 1 <= eta <= I64_MAX) then Err(MathOverflow)
      else Ok(a.(pending := a.pending[Seed(slot) := PendingChange(kind, newKey, bonds, ceilings, eta, now, payer)]))
  }

  function QueueTransferAuthority(a: Admin, now: Timestamp, signer: Pubkey, slot: ActionKind, newAuthority: Pubkey,
                                  payer: Pubkey): Result<Admin>
  {
    if QueueAccounts(a, signer, slot).Fail? then Err(QueueAccounts(a, signer, slot).error)
    else if newAuthority == DEFAULT_PUBKEY then Err(Unauthorized)
    else Queue(a, now, signer, slot, TransferAuthority, newAuthority, NO_TIERS, NO_TIERS, payer)
  }

  function QueueUpdateTiers(a: Admin, now: Timestamp, signer: Pubkey, slot: ActionKind, bonds: TierTable,
                            ceilings: TierTable, payer: Pubkey): Result<Admin>
  {
    if QueueAccounts(a, signer, slot).Fail? then Err(QueueAccounts(a, signer, slot).error)
    else if ValidateTierShape(bonds, ceilings).Fail? then Err(ValidateTierShape(bonds, ceilings).error)
    else Queue(a, now, signer, slot, UpdateTiers, DEFAULT_PUBKEY, bonds, ceilings, payer)
  }

  /** The account rules that execution and veto share. */
  function ResolveAccounts(a: Admin, kind: ActionKind, rentRefund: Pubkey): Outcome {
    if a.governance.None? || Seed(kind) !in a.pending then Fail(AccountNotInitialized)
    else if a.pending[Seed(kind)].kind != kind then Fail(PendingChangeKindMismatch)
    else if a.pending[Seed(kind)].payer != rentRefund then Fail(WrongRentRecipient)
    else Pass
  }

  /** The configuration a change would leave. */
  function Applied(c: Config, p: PendingChange): Config {
    match p.kind
    case TransferAuthority => c.(authority := p.newKey)
    case SetVaultAuthority => c.(vaultAuthority := p.newKey)
    case UpdateTiers => c.(tierBonds := p.tierBonds, tierCeilings := p.tierCeilings)
  }

  function ExecuteChange(a: Admin, now: Timestamp, signer: Pubkey, kind: ActionKind,
                         rentRefund: Pubkey): Result<Admin>
  {
    if ResolveAccounts(a, kind, rentRefund).Fail? then Err(ResolveAccounts(a, kind, rentRefund).error)
    else if signer != a.config.authority then Err(Unauthorized)
    else
      var p := a.pending[Seed(kind)];
      var c := Applied(a.config, p);
      if now < p.eta then Err(TimelockNotElapsed)
      else if p.kind == UpdateTiers && ValidateTiers(c).Fail? then Err(ValidateTiers(c).error)
      else Ok(a.(config := c, pending := a.pending - {Seed(kind)}))
  }

  function VetoChange(a: Admin, signer: Pubkey, kind: ActionKind, rentRefund: Pubkey): Result<Admin> {
    if ResolveAccounts(a, kind, rentRefund).Fail? then Err(ResolveAccounts(a, kind, rentRefund).error)
    else if signer != a.governance.value.guardian && signer != a.config.authority then Err(NotGuardianOrAuthority)
    else Ok(a.(pending := a.pending - {Seed(kind)}))
  }

  function ApplyAdmin(a: Admin, now: Timestamp, signer: Pubkey, i: AdminInstr): Result<Admin> {
    match i
    // The configuration account exists already, so it cannot be created again.
    case InitializeConfig(_, _, _, _, _) => Err(AccountAlreadyInUse)
    case SetUnbondPeriod(period) => SetUnbondPeriod(a, signer, period)
    case InitializeGovernance(guardian, delay) => InitializeGovernance(a, signer, guardian, delay)
    case SetGuardian(guardian) => SetGuardian(a, signer, guardian)
    case SetTimelockDelay(delay) => SetTimelockDelay(a, signer, delay)
    case QueueTransferAuthority(slot, key, payer) => QueueTransferAuthority(a, now, signer, slot, key, payer)
    case QueueSetVaultAuthority(slot, key, payer) =>
      Queue(a, now, signer, slot, SetVaultAuthority, key, NO_TIERS, NO_TIERS, payer)
    case QueueUpdateTiers(slot, bonds, ceilings, payer) =>
      QueueUpdateTiers(a, now, signer, slot, bonds, ceilings, payer)
    case ExecuteChange(kind, refund) => ExecuteChange(a, now, signer, kind, refund)
    case VetoChange(kind, refund) => VetoChange(a, signer, kind, refund)
  }
}
