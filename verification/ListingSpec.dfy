/** What each listing instruction does to the listings. */
module ListingSpec {
  import opened Types

  function ValidateFees(f: FeeConfig): Outcome {
    if f.listingFeeBps > MAX_LISTING_FEE_BPS then Fail(ListingFeeTooHigh)
    else if f.performanceFeeBps > MAX_PERFORMANCE_FEE_BPS then Fail(PerformanceFeeTooHigh)
    else if f.builderSplitBps < MIN_BUILDER_SPLIT_BPS then Fail(BuilderSplitTooLow)
    else if f.builderSplitBps > MAX_BPS || f.positionCapBps > MAX_BPS || f.maxDrawdownBps > MAX_BPS
    then Fail(BpsOutOfRange)
    else Pass
  }

  function NewListing(now: Timestamp, agentAuthority: Pubkey, market: u8, metadataHash: Hash): AgentListing {
    AgentListing(agentAuthority, Vetting, market, metadataHash, ZERO_FEES, 0, 0, now, 0)
  }

  function SubmitListing(s: State, signer: Pubkey, agentAuthority: Pubkey, market: u8,
                         metadataHash: Hash): Result<State>
  {
    if signer !in s.builders then Err(AccountNotInitialized)
    else
      var b := s.builders[signer];
      var id := ListingId(signer, b.agentCount);
      if id in s.listings then Err(AccountAlreadyInUse)
      else if b.tier < 1 then Err(BondBelowTierOne)
      else if b.IsUnbonding() then Err(BuilderUnbonding)
      else if b.agentCount == U16_MAX then Err(MathOverflow)
      else
        Ok(s.(builders := s.builders[signer := b.(agentCount := b.agentCount + 1)],
              listings := s.listings[id := NewListing(s.now, agentAuthority, market, metadataHash)]))
  }

  function ApproveListing(s: State, signer: Pubkey, id: ListingId, feeConfig: Option<FeeConfig>): Result<State> {
    if id !in s.listings then Err(AccountNotInitialized)
    else if signer != s.admin.config.authority then Err(Unauthorized)
    else if s.listings[id].status != Vetting then Err(ListingNotVetting)
    else
      var fees := feeConfig.GetOr(DEFAULT_FEES);
      if ValidateFees(fees).Fail? then Err(ValidateFees(fees).error)
      else Ok(s.(listings := s.listings[id := s.listings[id].(fees := fees, status := Live, approvedAt := s.now)]))
  }

  /** The account rules and the "builder or authority" check of the lifecycle instructions. */
  function ManageAccounts(s: State, signer: Pubkey, builder: Pubkey, id: ListingId): Outcome {
    if builder !in s.builders || id !in s.listings then Fail(AccountNotInitialized)
    else if id.builder != builder then Fail(ConstraintViolated)
    else if signer != builder && signer != s.admin.config.authority then Fail(Unauthorized)
    else Pass
  }

  function WithStatus(s: State, id: ListingId, status: ListingStatus): State
    requires id in s.listings
  {
    s.(listings := s.listings[id := s.listings[id].(status := status)])
  }

  function PauseListing(s: State, signer: Pubkey, builder: Pubkey, id: ListingId): Result<State> {
    if ManageAccounts(s, signer, builder, id).Fail? then Err(ManageAccounts(s, signer, builder, id).error)
    else if s.listings[id].status != Live then Err(ListingNotLive)
    else Ok(WithStatus(s, id, Paused))
  }

  function ResumeListing(s: State, signer: Pubkey, builder: Pubkey, id: ListingId): Result<State> {
    if ManageAccounts(s, signer, builder, id).Fail? then Err(ManageAccounts(s, signer, builder, id).error)
    else if s.listings[id].status != Paused then Err(ListingNotPaused)
    else Ok(WithStatus(s, id, Live))
  }

  function Delist(s: State, signer: Pubkey, builder: Pubkey, id: ListingId): Result<State> {
    if ManageAccounts(s, signer, builder, id).Fail? then Err(ManageAccounts(s, signer, builder, id).error)
    else if s.listings[id].status == Delisted then Err(ListingDelisted)
    else if s.listings[id].aumCurrent != 0 then Err(ListingHasAum)
    else Ok(WithStatus(s, id, Delisted))
  }

  function RotateAgentAuthority(s: State, signer: Pubkey, id: ListingId, newAgentAuthority: Pubkey): Result<State> {
    if signer !in s.builders || id !in s.listings then Err(AccountNotInitialized)
    else if id.builder != signer then Err(Unauthorized)
    else if s.listings[id].status == Delisted then Err(ListingDelisted)
    else Ok(s.(listings := s.listings[id := s.listings[id].(agentAuthority := newAgentAuthority)]))
  }

  function GuardianPauseListing(s: State, signer: Pubkey, id: ListingId): Result<State> {
    if s.admin.governance.None? || id !in s.listings then Err(AccountNotInitialized)
    else if s.admin.governance.value.guardian != signer then Err(NotGuardian)
    else if s.listings[id].status != Live then Err(ListingNotLive)
    else Ok(WithStatus(s, id, Paused))
  }

  function ApplyListing(s: State, signer: Pubkey, i: ListingInstr): (r: Result<State>)
    ensures r.Ok? ==> r.value.now == s.now && r.value.admin == s.admin && r.value.tokens == s.tokens
    ensures r.Ok? ==> r.value.builders.Keys == s.builders.Keys
    ensures r.Ok? && !i.SubmitListing? ==> r.value.builders == s.builders && r.value.listings.Keys == s.listings.Keys
  {
    match i
    case SubmitListing(agent, market, hash) => SubmitListing(s, signer, agent, market, hash)
    case ApproveListing(id, fees) => ApproveListing(s, signer, id, fees)
    case PauseListing(builder, id) => PauseListing(s, signer, builder, id)
    case ResumeListing(builder, id) => ResumeListing(s, signer, builder, id)
    case Delist(builder, id) => Delist(s, signer, builder, id)
    case RotateAgentAuthority(id, agent) => RotateAgentAuthority(s, signer, id, agent)
    case GuardianPauseListing(id) => GuardianPauseListing(s, signer, id)
  }
}
