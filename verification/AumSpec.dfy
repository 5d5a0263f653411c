/** What the vault program's two reports do to assets under management. */
module AumSpec {
  import opened Types
  import opened Tiers

  function AumAccounts(s: State, signer: Pubkey, builder: Pubkey, id: ListingId): Outcome {
    if builder !in s.builders || id !in s.listings then Fail(AccountNotInitialized)
    else if id.builder != builder then Fail(ConstraintViolated)
    else if s.admin.config.vaultAuthority == DEFAULT_PUBKEY then Fail(VaultAuthorityUnset)
    else if signer != s.admin.config.vaultAuthority then Fail(NotVaultAuthority)
    else Pass
  }

  function RecordDeposit(s: State, signer: Pubkey, builder: Pubkey, id: ListingId, amount: u64,
                         isNewVault: bool): Result<State>
  {
    if AumAccounts(s, signer, builder, id).Fail? then Err(AumAccounts(s, signer, builder, id).error)
    else
      var b := s.builders[builder];
      var l := s.listings[id];
      if amount == 0 then Err(ZeroAmount)
      else if l.status != Live then Err(ListingNotLive)
      else if b.IsUnbonding() then Err(BuilderUnbonding)
      else if b.totalAum + amount > U64_MAX then Err(MathOverflow)
      else if b.totalAum + amount > CeilingForTier(s.admin.config.tierCeilings, b.tier) then Err(AumCeilingExceeded)
      else if l.aumCurrent + amount > U64_MAX then Err(MathOverflow)
      else if isNewVault && l.vaultCount == U32_MAX then Err(MathOverflow)
      else
        var vaults := if isNewVault then l.vaultCount + 1 else l.vaultCount;
        Ok(s.(builders := s.builders[builder := b.(totalAum := b.totalAum + amount)],
              listings := s.listings[id := l.(aumCurrent := l.aumCurrent + amount, vaultCount := vaults)]))
  }

  function SaturatingSub(x: nat, y: nat): nat {
    if x < y then 0 else x - y
  }

  function RecordWithdrawal(s: State, signer: Pubkey, builder: Pubkey, id: ListingId, amount: u64,
                            vaultClosed: bool): Result<State>
  {
    if AumAccounts(s, signer, builder, id).Fail? then Err(AumAccounts(s, signer, builder, id).error)
    else if amount == 0 then Err(ZeroAmount)
    else
      var b := s.builders[builder];
      var l := s.listings[id];
      var vaults := if vaultClosed then SaturatingSub(l.vaultCount, 1) else l.vaultCount;
      Ok(s.(builders := s.builders[builder := b.(totalAum := SaturatingSub(b.totalAum, amount))],
            listings := s.listings[id := l.(aumCurrent := SaturatingSub(l.aumCurrent, amount), vaultCount := vaults)]))
  }

  function ApplyAum(s: State, signer: Pubkey, i: AumInstr): (r: Result<State>)
    ensures r.Ok? ==> r.value.now == s.now && r.value.admin == s.admin && r.value.tokens == s.tokens
    ensures r.Ok? ==> r.value.builders.Keys == s.builders.Keys && r.value.listings.Keys == s.listings.Keys
  {
    match i
    case RecordDeposit(builder, id, amount, isNew) => RecordDeposit(s, signer, builder, id, amount, isNew)
    case RecordWithdrawal(builder, id, amount, closed) => RecordWithdrawal(s, signer, builder, id, amount, closed)
  }
}
