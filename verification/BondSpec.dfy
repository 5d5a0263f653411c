/** What each builder and bond instruction does to the builders and the token balances. */
module BondSpec {
  import opened Types
  import opened Tiers
  import opened Tokens

  function NewBuilder(now: Timestamp): Builder {
    Builder(0, 0, 0, 0, 0, 0, now)
  }

  function RegisterBuilder(s: State, signer: Pubkey, agentMint: Pubkey): Result<State> {
    if signer in s.builders || BondVault(signer) in s.tokens then Err(AccountAlreadyInUse)
    else if agentMint != s.admin.config.agentMint then Err(ConstraintViolated)
    else
      var vault := TokenAccount(agentMint, BuilderPda(signer), 0);
      Ok(s.(builders := s.builders[signer := NewBuilder(s.now)], tokens := s.tokens[BondVault(signer) := vault]))
  }

  function StakeAccounts(s: State, signer: Pubkey, source: TokenAddress): Outcome {
    if signer !in s.builders || BondVault(signer) !in s.tokens || source !in s.tokens then Fail(AccountNotInitialized)
    else if s.tokens[source].mint != s.admin.config.agentMint then Fail(ConstraintViolated)
    else if s.tokens[source].owner != Wallet(signer) then Fail(ConstraintViolated)
    else Pass
  }

  function StakeBond(s: State, signer: Pubkey, source: TokenAddress, amount: u64): Result<State> {
    if StakeAccounts(s, signer, source).Fail? then Err(StakeAccounts(s, signer, source).error)
    else
      var b := s.builders[signer];
      if amount == 0 then Err(ZeroAmount)
      else if b.IsUnbonding() then Err(BuilderUnbonding)
      else
        match Transfer(s.tokens, source, BondVault(signer), amount)
        case Err(e) => Err(e)
        case Ok(tokens) =>
          if b.bondAmount + amount > U64_MAX then Err(MathOverflow)
          else
            var staked := WithBond(s.admin.config, b, b.bondAmount + amount);
            Ok(s.(builders := s.builders[signer := staked], tokens := tokens))
  }

  /** A builder's record after the bond moved to `bond`: the cached tier follows. */
  function WithBond(c: Config, b: Builder, bond: u64): Builder {
    b.(bondAmount := bond, tier := TierForBond(c.tierBonds, bond))
  }

  function RequestUnbond(s: State, signer: Pubkey): Result<State> {
    if signer !in s.builders then Err(AccountNotInitialized)
    else if s.builders[signer].IsUnbonding() then Err(UnbondAlreadyRequested)
    else Ok(s.(builders := s.builders[signer := s.builders[signer].(unbondRequestedAt := s.now)]))
  }

  function CancelUnbond(s: State, signer: Pubkey): Result<State> {
    if signer !in s.builders then Err(AccountNotInitialized)
    else if !s.builders[signer].IsUnbonding() then Err(UnbondNotRequested)
    else Ok(s.(builders := s.builders[signer := s.builders[signer].(unbondRequestedAt := 0)]))
  }

  function WithdrawAccounts(s: State, signer: Pubkey, destination: TokenAddress): Outcome {
    if signer !in s.builders || BondVault(signer) !in s.tokens || destination !in s.tokens
    then Fail(AccountNotInitialized)
    else if s.tokens[destination].mint != s.admin.config.agentMint then Fail(ConstraintViolated)
    else Pass
  }

  function WithdrawBond(s: State, signer: Pubkey, destination: TokenAddress, amount: u64): Result<State> {
    if WithdrawAccounts(s, signer, destination).Fail? then Err(WithdrawAccounts(s, signer, destination).error)
    else
      var c := s.admin.config;
      var b := s.builders[signer];
      if amount == 0 then Err(ZeroAmount)
      else if !b.IsUnbonding() then Err(UnbondNotRequested)
      else if amount > b.bondAmount then Err(InsufficientBond)
      else if s.now - b.unbondRequestedAt < c.unbondPeriod then Err(UnbondPeriodNotElapsed)
      else
        var left := WithBond(c, b, b.bondAmount - amount);
        if CeilingForTier(c.tierCeilings, left.tier) < b.totalAum then Err(TierWouldNotCoverAum)
        else
          match Transfer(s.tokens, BondVault(signer), destination, amount)
          case Err(e) => Err(e)
          case Ok(tokens) =>
            Ok(s.(builders := s.builders[signer := left.(unbondRequestedAt := 0)], tokens := tokens))
  }

  /** The harmed traders' share of a slash: 70%, rounded down. */
  function TraderCut(amount: nat): (cut: nat)
    ensures cut <= amount
  {
    amount * SLASH_TRADER_BPS / BPS_DENOMINATOR
  }

  function SlashAccounts(s: State, signer: Pubkey, builder: Pubkey, traderCompensation: TokenAddress,
                         buyback: TokenAddress): Outcome
  {
    var c := s.admin.config;
    if builder !in s.builders || BondVault(builder) !in s.tokens then Fail(AccountNotInitialized)
    else if traderCompensation !in s.tokens || buyback !in s.tokens then Fail(AccountNotInitialized)
    else if signer != c.authority then Fail(Unauthorized)
    else if s.tokens[traderCompensation].mint != c.agentMint then Fail(ConstraintViolated)
    else if s.tokens[buyback].mint != c.agentMint then Fail(ConstraintViolated)
    else Pass
  }

  /** A transfer the program skips when there is nothing to move. */
  function Pay(t: Ledger, from: TokenAddress, to: TokenAddress, amount: u64): Result<Ledger> {
    if amount == 0 then Ok(t) else Transfer(t, from, to, amount)
  }

  /** Both shares of a slash leave the vault, the traders' first. */
  function SlashPayments(t: Ledger, vault: TokenAddress, traderCompensation: TokenAddress, buyback: TokenAddress,
                         amount: u64): Result<Ledger>
  {
    match Pay(t, vault, traderCompensation, TraderCut(amount))
    case Err(e) => Err(e)
    case Ok(t1) => Pay(t1, vault, buyback, amount - TraderCut(amount))
  }

  function SlashBond(s: State, signer: Pubkey, builder: Pubkey, traderCompensation: TokenAddress,
                     buyback: TokenAddress, amount: u64): Result<State>
  {
    if SlashAccounts(s, signer, builder, traderCompensation, buyback).Fail?
    then Err(SlashAccounts(s, signer, builder, traderCompensation, buyback).error)
    else
      var b := s.builders[builder];
      if amount == 0 then Err(ZeroAmount)
      else if amount > b.bondAmount then Err(InsufficientBond)
      else
        match SlashPayments(s.tokens, BondVault(builder), traderCompensation, buyback, amount)
        case Err(e) => Err(e)
        case Ok(tokens) =>
          var count := if b.slashCount == U16_MAX then U16_MAX else b.slashCount + 1;
          var slashed := WithBond(s.admin.config, b, b.bondAmount - amount).(slashCount := count);
          Ok(s.(builders := s.builders[builder := slashed], tokens := tokens))
  }

  function ApplyBond(s: State, signer: Pubkey, i: BondInstr): (r: Result<State>)
    ensures r.Ok? ==> r.value.now == s.now && r.value.admin == s.admin && r.value.listings == s.listings
  {
    match i
    case RegisterBuilder(mint) => RegisterBuilder(s, signer, mint)
    case StakeBond(source, amount) => StakeBond(s, signer, source, amount)
    case RequestUnbond => RequestUnbond(s, signer)
    case CancelUnbond => CancelUnbond(s, signer)
    case WithdrawBond(destination, amount) => WithdrawBond(s, signer, destination, amount)
    case SlashBond(builder, traders, buyback, amount) => SlashBond(s, signer, builder, traders, buyback, amount)
  }
}
