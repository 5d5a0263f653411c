/** Machine integers, constants, account records and errors of the agent registry. */
module Types {

  const U64_MAX: int := 0xFFFF_FFFF_FFFF_FFFF
  const I64_MAX: int := 0x7FFF_FFFF_FFFF_FFFF
  const U32_MAX: int := 0xFFFF_FFFF
  const U16_MAX: int := 0xFFFF

  type u8 = x: int | 0 <= x <= 0xFF
  type u16 = x: int | 0 <= x <= U16_MAX
  type u32 = x: int | 0 <= x <= U32_MAX
  type u64 = x: int | 0 <= x <= U64_MAX
  type i64 = x: int | -I64_MAX - 1 <= x <= I64_MAX

  /** What the cluster clock reports: seconds since 1970, never zero or negative. */
  type Timestamp = t: int | 0 < t <= I64_MAX witness 1

  type Pubkey = nat
  type Hash = nat

  /** The all-zero key. */
  const DEFAULT_PUBKEY: Pubkey := 0

  const TIER_COUNT: nat := 3
  type TierTable = t: seq<u64> | |t| == TIER_COUNT witness [0, 0, 0]
  const NO_TIERS: TierTable := [0, 0, 0]

  const BPS_DENOMINATOR: u64 := 10_000
  const SLASH_TRADER_BPS: u64 := 7_000
  const DEFAULT_UNBOND_PERIOD: i64 := 14 * 24 * 60 * 60
  const MAX_UNBOND_PERIOD: i64 := 90 * 24 * 60 * 60
  const DEFAULT_TIMELOCK_DELAY: i64 := 72 * 60 * 60
  const MAX_TIMELOCK_DELAY: i64 := 30 * 24 * 60 * 60

  /** The floor depends on the build: the test-only `localnet` feature lowers it. */
  function MinTimelockDelay(localnet: bool): i64 {
    if localnet then 2 else 60 * 60
  }

  const DEFAULT_LISTING_FEE_BPS: u16 := 0
  const DEFAULT_PERFORMANCE_FEE_BPS: u16 := 1_000
  const DEFAULT_BUILDER_SPLIT_BPS: u16 := 8_000
  const DEFAULT_POSITION_CAP_BPS: u16 := 1_200
  const DEFAULT_MAX_DRAWDOWN_BPS: u16 := 1_500
  const MAX_LISTING_FEE_BPS: u16 := 500
  const MAX_PERFORMANCE_FEE_BPS: u16 := 2_000
  const MIN_BUILDER_SPLIT_BPS: u16 := 5_000
  const MAX_BPS: u16 := 10_000

  datatype Option<+T> = None | Some(value: T) {
    function GetOr(default: T): T {
      match this
      case Some(v) => v
      case None => default
    }
  }

  /** The program's own errors, followed by those of the account framework and the token program. */
  datatype Error =
    | Unauthorized
    | TierBondsNotIncreasing
    | TierCeilingsNotIncreasing
    | InvalidUnbondPeriod
    | ListingFeeTooHigh
    | PerformanceFeeTooHigh
    | BuilderSplitTooLow
    | BpsOutOfRange
    | BuilderUnbonding
    | UnbondNotRequested
    | UnbondAlreadyRequested
    | UnbondPeriodNotElapsed
    | TierWouldNotCoverAum
    | InsufficientBond
    | ZeroAmount
    | ListingNotVetting
    | ListingNotLive
    | ListingNotPaused
    | ListingDelisted
    | BondBelowTierOne
    | ListingHasAum
    | NotVaultAuthority
    | VaultAuthorityUnset
    | AumCeilingExceeded
    | NotGuardianOrAuthority
    | NotGuardian
    | InvalidTimelockDelay
    | TimelockNotElapsed
    | PendingChangeKindMismatch
    | WrongRentRecipient
    | MathOverflow
    | AccountNotInitialized
    | AccountAlreadyInUse
    | ConstraintViolated
    | InsufficientFunds
    | MintMismatch
    | TokenOverflow

  datatype Outcome = Pass | Fail(error: Error)

  datatype Result<+T> = Ok(value: T) | Err(error: Error) {
    function Outcome(): Outcome {
      match this
      case Ok(_) => Pass
      case Err(e) => Fail(e)
    }
  }

  datatype ListingStatus = Vetting | Live | Paused | Delisted

  datatype FeeConfig = FeeConfig(
    listingFeeBps: u16,
    performanceFeeBps: u16,
    builderSplitBps: u16,
    positionCapBps: u16,
    maxDrawdownBps: u16,
    autoPause: bool)

  const DEFAULT_FEES := FeeConfig(
    DEFAULT_LISTING_FEE_BPS, DEFAULT_PERFORMANCE_FEE_BPS, DEFAULT_BUILDER_SPLIT_BPS,
    DEFAULT_POSITION_CAP_BPS, DEFAULT_MAX_DRAWDOWN_BPS, true)

  const ZERO_FEES := FeeConfig(0, 0, 0, 0, 0, true)

  datatype Config = Config(
    authority: Pubkey,
    agentMint: Pubkey,
    vaultAuthority: Pubkey,
    tierBonds: TierTable,
    tierCeilings: TierTable,
    unbondPeriod: i64)

  datatype ActionKind = TransferAuthority | SetVaultAuthority | UpdateTiers

  datatype Governance = Governance(guardian: Pubkey, timelockDelay: i64)

  datatype PendingChange = PendingChange(
    kind: ActionKind,
    newKey: Pubkey,
    tierBonds: TierTable,
    tierCeilings: TierTable,
    eta: i64,
    queuedAt: i64,
    payer: Pubkey)

  /** A builder account is addressed by its authority, so that field is the map key. */
  datatype Builder = Builder(
    bondAmount: u64,
    totalAum: u64,
    tier: u8,
    unbondRequestedAt: i64,
    slashCount: u16,
    agentCount: u16,
    createdAt: i64)
  {
    predicate IsUnbonding() {
      unbondRequestedAt > 0
    }
  }

  /** A listing is addressed by its builder and its index. */
  datatype ListingId = ListingId(builder: Pubkey, index: u16)

  datatype AgentListing = AgentListing(
    agentAuthority: Pubkey,
    status: ListingStatus,
    market: u8,
    metadataHash: Hash,
    fees: FeeConfig,
    aumCurrent: u64,
    vaultCount: u32,
    createdAt: i64,
    approvedAt: i64)

  /** A token account is either a builder's bond vault or any other account. */
  datatype TokenAddress = BondVault(builder: Pubkey) | Account(id: Pubkey)

  /** Who may move the tokens: a key pair, or a builder account signing through the program. */
  datatype TokenOwner = Wallet(key: Pubkey) | BuilderPda(builder: Pubkey)

  datatype TokenAccount = TokenAccount(mint: Pubkey, owner: TokenOwner, amount: u64)

  type Ledger = map<TokenAddress, TokenAccount>

  /** Everything the timelock protects, and the timelock itself. */
  datatype Admin = Admin(
    localnet: bool,
    config: Config,
    governance: Option<Governance>,
    pending: map<u8, PendingChange>)

  datatype State = State(
    now: Timestamp,
    admin: Admin,
    builders: map<Pubkey, Builder>,
    listings: map<ListingId, AgentListing>,
    tokens: Ledger)

  /** Seed byte of the slot a pending change of this kind lives in. */
  function Seed(kind: ActionKind): u8 {
    match kind
    case TransferAuthority => 0
    case SetVaultAuthority => 1
    case UpdateTiers => 2
  }

  datatype AdminInstr =
    | InitializeConfig(authority: Pubkey, agentMint: Pubkey, tierBonds: TierTable, tierCeilings: TierTable,
                       unbondPeriod: Option<i64>)
    | SetUnbondPeriod(period: i64)
    | InitializeGovernance(guardian: Pubkey, timelockDelay: Option<i64>)
    | SetGuardian(newGuardian: Pubkey)
    | SetTimelockDelay(delay: i64)
    | QueueTransferAuthority(kind: ActionKind, newAuthority: Pubkey, payer: Pubkey)
    | QueueSetVaultAuthority(kind: ActionKind, newVaultAuthority: Pubkey, payer: Pubkey)
    | QueueUpdateTiers(kind: ActionKind, newBonds: TierTable, newCeilings: TierTable, payer: Pubkey)
    | ExecuteChange(kind: ActionKind, rentRefund: Pubkey)
    | VetoChange(kind: ActionKind, rentRefund: Pubkey)

  datatype BondInstr =
    | RegisterBuilder(agentMint: Pubkey)
    | StakeBond(source: TokenAddress, amount: u64)
    | RequestUnbond
    | CancelUnbond
    | WithdrawBond(destination: TokenAddress, amount: u64)
    | SlashBond(builder: Pubkey, traderCompensation: TokenAddress, buyback: TokenAddress, amount: u64)

  datatype ListingInstr =
    | SubmitListing(agentAuthority: Pubkey, market: u8, metadataHash: Hash)
    | ApproveListing(id: ListingId, feeConfig: Option<FeeConfig>)
    | PauseListing(builder: Pubkey, id: ListingId)
    | ResumeListing(builder: Pubkey, id: ListingId)
    | Delist(builder: Pubkey, id: ListingId)
    | RotateAgentAuthority(id: ListingId, newAgentAuthority: Pubkey)
    | GuardianPauseListing(id: ListingId)

  datatype AumInstr =
    | RecordDeposit(builder: Pubkey, id: ListingId, amount: u64, isNewVault: bool)
    | RecordWithdrawal(builder: Pubkey, id: ListingId, amount: u64, vaultClosed: bool)

  /** What anyone may do with tokens of their own, outside the program. */
  datatype TokenInstr =
    | OpenTokenAccount(id: Pubkey, mint: Pubkey, owner: TokenOwner)
    | TransferTokens(from: TokenAddress, to: TokenAddress, amount: u64)

  datatype Instr =
    | OfAdmin(admin: AdminInstr)
    | OfBond(bond: BondInstr)
    | OfListing(listing: ListingInstr)
    | OfAum(aum: AumInstr)
    | OfToken(token: TokenInstr)

  /** A transaction: one instruction, its signer, and the clock when it lands. */
  datatype Tx = Tx(now: Timestamp, signer: Pubkey, instr: Instr)
}
