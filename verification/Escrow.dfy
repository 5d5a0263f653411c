/**
  * The bond escrow: every vault holds its builder's bond on every run, so stakes, withdrawals and slashes find
  * their money.
  */
module Escrow {
  import opened Types
  import opened Tiers
  import opened Tokens
  import BondSpec
  import ListingSpec
  import AumSpec
  import opened Machine
  import Timelock

  // ---- payments ----

  function When(c: bool, x: int): int {
    if c then x else 0
  }

  function Balance(t: Ledger, a: TokenAddress): nat {
    if a in t then t[a].amount else 0
  }

  /** What a payment of `amount` does to account `a`, whether or not the two ends coincide. */
  ghost predicate Moved(t: Ledger, from: TokenAddress, to: TokenAddress, amount: nat, t': Ledger, a: TokenAddress) {
    && t'.Keys == t.Keys
    && Balance(t', a) == Balance(t, a) - When(a == from, amount) + When(a == to, amount)
    && (a in t ==> t'[a].mint == t[a].mint && t'[a].owner == t[a].owner)
  }

  lemma TransferMoves(t: Ledger, from: TokenAddress, to: TokenAddress, amount: u64, a: TokenAddress)
    requires Transfer(t, from, to, amount).Ok?
    ensures from in t && to in t && Moved(t, from, to, amount, Transfer(t, from, to, amount).value, a)
  {
  }

  lemma PayMoves(t: Ledger, from: TokenAddress, to: TokenAddress, amount: u64, a: TokenAddress)
    requires BondSpec.Pay(t, from, to, amount).Ok?
    ensures Moved(t, from, to, amount, BondSpec.Pay(t, from, to, amount).value, a)
  {
    if amount > 0 {
      TransferMoves(t, from, to, amount, a);
    }
  }

  /** Both payments of a slash together. */
  lemma SlashMoves(t: Ledger, vault: TokenAddress, traders: TokenAddress, buyback: TokenAddress, amount: u64,
                   a: TokenAddress)
    requires BondSpec.SlashPayments(t, vault, traders, buyback, amount).Ok?
    ensures var t' := BondSpec.SlashPayments(t, vault, traders, buyback, amount).value;
            var cut := BondSpec.TraderCut(amount);
            && t'.Keys == t.Keys
            && Balance(t', a) == Balance(t, a) - When(a == vault, amount) + When(a == traders, cut)
                                 + When(a == buyback, amount - cut)
            && (a in t ==> t'[a].mint == t[a].mint && t'[a].owner == t[a].owner)
  {
    hide BondSpec.Pay, Transfer;
    var cut := BondSpec.TraderCut(amount);
    PayMoves(t, vault, traders, cut, a);
    PayMoves(BondSpec.Pay(t, vault, traders, cut).value, vault, buyback, amount - cut, a);
  }

  // ---- solvency ----

  /**
    * A registered builder's vault is a token account of the agent mint that only the program can debit; it covers
    * the bond.
    */
  ghost predicate Escrowed(s: State, b: Pubkey) {
    if b in s.builders then
      && BondVault(b) in s.tokens && s.tokens[BondVault(b)].mint == s.admin.config.agentMint
      && s.tokens[BondVault(b)].owner == BuilderPda(b) && s.tokens[BondVault(b)].amount >= s.builders[b].bondAmount
    else BondVault(b) !in s.tokens
  }

  /** What a vault holds beyond the bond: donations, and shares of payments sent back to it. */
  ghost function Surplus(s: State, b: Pubkey): int
    requires b in s.builders && Escrowed(s, b)
  {
    s.tokens[BondVault(b)].amount - s.builders[b].bondAmount
  }

  /** From `s` to `s'`, vault `b` stays sound and its surplus does not shrink; a vault that appears starts even. */
  ghost predicate KeepsSurplus(s: State, s': State, b: Pubkey)
    requires Escrowed(s, b)
  {
    && s'.admin.config.agentMint == s.admin.config.agentMint && Escrowed(s', b)
    && (b in s.builders ==> b in s'.builders && Surplus(s, b) <= Surplus(s', b))
    && (b !in s.builders && b in s'.builders ==> Surplus(s', b) == 0)
  }

  lemma BondKeepsSurplus(s: State, signer: Pubkey, i: BondInstr, b: Pubkey)
    requires Escrowed(s, b) && BondSpec.ApplyBond(s, signer, i).Ok?
    ensures KeepsSurplus(s, BondSpec.ApplyBond(s, signer, i).value, b)
  {
    hide Transfer, BondSpec.SlashPayments;
    var vault := BondVault(b);
    match i
    case StakeBond(source, amount) => TransferMoves(s.tokens, source, BondVault(signer), amount, vault);
    case WithdrawBond(destination, amount) => TransferMoves(s.tokens, BondVault(signer), destination, amount, vault);
    case SlashBond(x, traders, buyback, amount) => SlashMoves(s.tokens, BondVault(x), traders, buyback, amount, vault);
    case _ =>
  }

  lemma ListingKeepsSurplus(s: State, signer: Pubkey, i: ListingInstr, b: Pubkey)
    requires Escrowed(s, b) && ListingSpec.ApplyListing(s, signer, i).Ok?
    ensures KeepsSurplus(s, ListingSpec.ApplyListing(s, signer, i).value, b)
  {
  }

  lemma AumKeepsSurplus(s: State, signer: Pubkey, i: AumInstr, b: Pubkey)
    requires Escrowed(s, b) && AumSpec.ApplyAum(s, signer, i).Ok?
    ensures KeepsSurplus(s, AumSpec.ApplyAum(s, signer, i).value, b)
  {
  }

  /** Solvency only ever improves, whatever the destinations alias. */
  lemma SurplusStep(s: State, tx: Tx, b: Pubkey)
    requires Escrowed(s, b)
    ensures KeepsSurplus(s, Process(s, tx), b)
  {
    hide BondSpec.ApplyBond, ListingSpec.ApplyListing, AumSpec.ApplyAum;
    if Succeeds(s, tx) {
      match tx.instr
      case OfBond(i) => BondKeepsSurplus(At(s, tx), tx.signer, i, b);
      case OfListing(i) => ListingKeepsSurplus(At(s, tx), tx.signer, i, b);
      case OfAum(i) => AumKeepsSurplus(At(s, tx), tx.signer, i, b);
      case _ =>
    }
  }

  lemma {:induction false} AlwaysEscrowed(s0: State, txs: seq<Tx>, n: nat, b: Pubkey)
    requires IsGenesis(s0) && n <= |txs|
    ensures Escrowed(StateAt(s0, txs, n), b)
    ensures StateAt(s0, txs, n).admin.config.agentMint == s0.admin.config.agentMint
  {
    hide Machine.Apply;
    if n > 0 {
      AlwaysEscrowed(s0, txs, n - 1, b);
      SurplusStep(StateAt(s0, txs, n - 1), txs[n - 1], b);
    }
  }

  /** On every run, the vault's surplus over the bond never decreases; it is zero when the builder registers. */
  lemma {:induction false} SurplusNeverShrinks(s0: State, txs: seq<Tx>, i: nat, j: nat, b: Pubkey)
    requires IsGenesis(s0) && i <= j <= |txs| && b in StateAt(s0, txs, i).builders
    ensures b in StateAt(s0, txs, j).builders
    ensures Escrowed(StateAt(s0, txs, i), b) && Escrowed(StateAt(s0, txs, j), b)
    ensures 0 <= Surplus(StateAt(s0, txs, i), b) <= Surplus(StateAt(s0, txs, j), b)
    ensures i > 0 && b !in StateAt(s0, txs, i - 1).builders ==> Surplus(StateAt(s0, txs, i), b) == 0
  {
    hide Machine.Apply;
    AlwaysEscrowed(s0, txs, i, b);
    if i > 0 {
      AlwaysEscrowed(s0, txs, i - 1, b);
      SurplusStep(StateAt(s0, txs, i - 1), txs[i - 1], b);
    }
    if i < j {
      SurplusNeverShrinks(s0, txs, i, j - 1, b);
      SurplusStep(StateAt(s0, txs, j - 1), txs[j - 1], b);
    }
  }

  // ---- supply ----

  lemma PayConserves(t: Ledger, from: TokenAddress, to: TokenAddress, amount: u64, mint: Pubkey)
    requires BondSpec.Pay(t, from, to, amount).Ok?
    ensures Supply(BondSpec.Pay(t, from, to, amount).value, mint) == Supply(t, mint)
  {
    if amount > 0 {
      TransferConserves(t, from, to, amount, mint);
    }
  }

  lemma SlashConserves(t: Ledger, vault: TokenAddress, traders: TokenAddress, buyback: TokenAddress, amount: u64,
                       mint: Pubkey)
    requires BondSpec.SlashPayments(t, vault, traders, buyback, amount).Ok?
    ensures Supply(BondSpec.SlashPayments(t, vault, traders, buyback, amount).value, mint) == Supply(t, mint)
  {
    var cut := BondSpec.TraderCut(amount);
    PayConserves(t, vault, traders, cut, mint);
    PayConserves(BondSpec.Pay(t, vault, traders, cut).value, vault, buyback, amount - cut, mint);
  }

  /** An account that opens empty adds nothing to any supply. */
  lemma OpeningConserves(t: Ledger, a: TokenAddress, v: TokenAccount, mint: Pubkey)
    requires a !in t && v.amount == 0
    ensures Supply(t[a := v], mint) == Supply(t, mint)
  {
    SupplyUpdate(t, mint, a, v);
  }

  lemma BondSupply(s: State, signer: Pubkey, i: BondInstr, mint: Pubkey)
    requires BondSpec.ApplyBond(s, signer, i).Ok?
    ensures Supply(BondSpec.ApplyBond(s, signer, i).value.tokens, mint) == Supply(s.tokens, mint)
  {
    match i
    case RegisterBuilder(agentMint) =>
      OpeningConserves(s.tokens, BondVault(signer), TokenAccount(agentMint, BuilderPda(signer), 0), mint);
    case StakeBond(source, amount) => TransferConserves(s.tokens, source, BondVault(signer), amount, mint);
    case WithdrawBond(destination, amount) => TransferConserves(s.tokens, BondVault(signer), destination, amount, mint);
    case SlashBond(b, traders, buyback, amount) =>
      SlashConserves(s.tokens, BondVault(b), traders, buyback, amount, mint);
    case _ =>
  }

  lemma SupplyStep(s: State, tx: Tx, mint: Pubkey)
    ensures Supply(Process(s, tx).tokens, mint) == Supply(s.tokens, mint)
  {
    if Succeeds(s, tx) {
      match tx.instr
      case OfBond(i) => BondSupply(At(s, tx), tx.signer, i, mint);
      case OfToken(OpenTokenAccount(id, m, owner)) =>
        OpeningConserves(s.tokens, Account(id), TokenAccount(m, owner, 0), mint);
      case OfToken(TransferTokens(from, to, amount)) => TransferConserves(s.tokens, from, to, amount, mint);
      case _ =>
    }
  }

  /** No run creates or destroys tokens. */
  lemma {:induction false} SupplyIsConstant(s0: State, txs: seq<Tx>, n: nat, mint: Pubkey)
    requires n <= |txs|
    ensures Supply(StateAt(s0, txs, n).tokens, mint) == Supply(s0.tokens, mint)
  {
    hide Machine.Apply;
    if n > 0 {
      SupplyIsConstant(s0, txs, n - 1, mint);
      SupplyStep(StateAt(s0, txs, n - 1), txs[n - 1], mint);
    }
  }

  // ---- exactly when the money moves ----

  /** What the results below need of a state; every reachable state has it. */
  ghost predicate Sound(s: State) {
    && Timelock.AdminValid(s.admin)
    && (forall b :: Escrowed(s, b))
    && Supply(s.tokens, s.admin.config.agentMint) <= U64_MAX
  }

  lemma SoundStep(s: State, tx: Tx)
    requires Sound(s)
    ensures Sound(Process(s, tx))
  {
    hide Machine.Apply;
    SupplyStep(s, tx, s.admin.config.agentMint);
    Timelock.AdminStep(s, tx);
    if Succeeds(s, tx) && tx.instr.OfAdmin? {
      Timelock.AdminStepValid(s.admin, tx.now, tx.signer, tx.instr.admin);
    }
    assert Escrowed(s, 0);
    SurplusStep(s, tx, 0);
    forall b ensures Escrowed(Process(s, tx), b) {
      SurplusStep(s, tx, b);
    }
  }

  /** Every reachable state is sound. */
  lemma {:induction false} AlwaysSound(s0: State, txs: seq<Tx>, n: nat)
    requires IsGenesis(s0) && n <= |txs|
    ensures Sound(StateAt(s0, txs, n))
  {
    hide Machine.Apply;
    if n > 0 {
      AlwaysSound(s0, txs, n - 1);
      SoundStep(StateAt(s0, txs, n - 1), txs[n - 1]);
    }
  }

  /** All bonds together. */
  ghost function Bonds(builders: map<Pubkey, Builder>): nat
    decreases |builders|
  {
    if builders == map[] then 0
    else
      var b :| b in builders;
      builders[b].bondAmount + Bonds(builders - {b})
  }

  /** Vaults are distinct accounts, so bonds that each find cover find it together. */
  lemma {:induction false} BondsWithinSupply(builders: map<Pubkey, Builder>, t: Ledger, mint: Pubkey)
    requires forall b | b in builders ::
               BondVault(b) in t && t[BondVault(b)].mint == mint && t[BondVault(b)].amount >= builders[b].bondAmount
    ensures Bonds(builders) <= Supply(t, mint)
    decreases |builders|
  {
    if builders != map[] {
      var b :| b in builders && Bonds(builders) == builders[b].bondAmount + Bonds(builders - {b});
      SupplySplit(t, mint, BondVault(b));
      BondsWithinSupply(builders - {b}, t - {BondVault(b)}, mint);
    }
  }

  /** In every reachable state the bonds of all builders together are backed by tokens that existed from the start. */
  lemma {:induction false} BondsAreBacked(s0: State, txs: seq<Tx>, n: nat)
    requires IsGenesis(s0) && n <= |txs|
    ensures Bonds(StateAt(s0, txs, n).builders) <= Supply(s0.tokens, s0.admin.config.agentMint)
  {
    hide Machine.Process;
    var s := StateAt(s0, txs, n);
    AlwaysSound(s0, txs, n);
    AlwaysEscrowed(s0, txs, n, 0);
    SupplyIsConstant(s0, txs, n, s0.admin.config.agentMint);
    assert forall b | b in s.builders :: Escrowed(s, b);
    BondsWithinSupply(s.builders, s.tokens, s0.admin.config.agentMint);
  }

  predicate HoldsAgent(s: State, a: TokenAddress) {
    a in s.tokens && s.tokens[a].mint == s.admin.config.agentMint
  }

  /**
    * A stake goes through exactly for a registered builder who is not unbonding and owns the funds: no sum
    * overflows.
    */
  lemma StakeExactly(s: State, signer: Pubkey, source: TokenAddress, amount: u64)
    requires Sound(s)
    ensures BondSpec.StakeBond(s, signer, source, amount).Ok? <==>
            && signer in s.builders && !s.builders[signer].IsUnbonding()
            && HoldsAgent(s, source) && s.tokens[source].owner == Wallet(signer)
            && 0 < amount <= s.tokens[source].amount
  {
    assert Escrowed(s, signer);
    if signer in s.builders && HoldsAgent(s, source) {
      TransferSucceeds(s.tokens, source, BondVault(signer), amount);
    }
  }

  /**
    * A withdrawal succeeds exactly when a request is at least the period old and the amount is withdrawable: any part
    * of the bond without capital; with capital, what stays must reach the threshold of the cheapest tier whose
    * ceiling covers it, and when none does nothing may leave. Funds are never short.
    */
  lemma WithdrawExactly(s: State, signer: Pubkey, destination: TokenAddress, amount: u64)
    requires Sound(s)
    ensures BondSpec.WithdrawBond(s, signer, destination, amount).Ok? <==>
            && signer in s.builders && HoldsAgent(s, destination)
            && var b := s.builders[signer]; var k := LeastCoveringTier(s.admin.config.tierCeilings, b.totalAum);
            && b.IsUnbonding() && s.now - b.unbondRequestedAt >= s.admin.config.unbondPeriod
            && 0 < amount <= b.bondAmount
            && (b.totalAum == 0 || (k <= TIER_COUNT && b.bondAmount - amount >= s.admin.config.tierBonds[k - 1]))
  {
    assert Escrowed(s, signer);
    if signer in s.builders && HoldsAgent(s, destination) {
      var b, c := s.builders[signer], s.admin.config;
      if 0 < amount <= b.bondAmount {
        CoverageThreshold(c.tierBonds, c.tierCeilings, b.bondAmount - amount, b.totalAum);
        TransferSucceeds(s.tokens, BondVault(signer), destination, amount);
      }
    }
  }

  lemma SlashPaymentsSucceed(t: Ledger, vault: TokenAddress, traders: TokenAddress, buyback: TokenAddress, amount: u64)
    requires vault in t && traders in t && buyback in t && t[traders].mint == t[vault].mint == t[buyback].mint
    requires Supply(t, t[vault].mint) <= U64_MAX && amount <= t[vault].amount
    ensures BondSpec.SlashPayments(t, vault, traders, buyback, amount).Ok?
  {
    var cut := BondSpec.TraderCut(amount);
    TransferSucceeds(t, vault, traders, cut);
    PayConserves(t, vault, traders, cut, t[vault].mint);
    TransferSucceeds(BondSpec.Pay(t, vault, traders, cut).value, vault, buyback, amount - cut);
  }

  /**
    * The authority can slash any part of any bond at any time, unbonding or not, to any two accounts of the agent
    * mint.
    */
  lemma SlashExactly(s: State, signer: Pubkey, b: Pubkey, traders: TokenAddress, buyback: TokenAddress, amount: u64)
    requires Sound(s)
    ensures BondSpec.SlashBond(s, signer, b, traders, buyback, amount).Ok? <==>
            && signer == s.admin.config.authority && b in s.builders
            && HoldsAgent(s, traders) && HoldsAgent(s, buyback)
            && 0 < amount <= s.builders[b].bondAmount
  {
    assert Escrowed(s, b);
    if b in s.builders && HoldsAgent(s, traders) && HoldsAgent(s, buyback) && amount <= s.builders[b].bondAmount {
      SlashPaymentsSucceed(s.tokens, BondVault(b), traders, buyback, amount);
    }
  }

  // ---- where the money goes ----

  /** The tier is the highest one whose threshold the bond reaches. */
  predicate HighestTier(c: Config, b: Builder) {
    b.tier <= TIER_COUNT && forall k | 0 <= k < TIER_COUNT :: b.tier > k <==> b.bondAmount >= c.tierBonds[k]
  }

  lemma WithBondHighest(c: Config, b: Builder, bond: u64)
    requires Increasing(c.tierBonds)
    ensures HighestTier(c, BondSpec.WithBond(c, b, bond))
  {
    forall k | 0 <= k < TIER_COUNT ensures TierForBond(c.tierBonds, bond) > k <==> bond >= c.tierBonds[k] {
      TierReached(c.tierBonds, bond, k + 1);
    }
  }

  /** From `s` to `s'` only the record of `b` and token amounts changed. */
  predicate OnlyBond(s: State, s': State, b: Pubkey) {
    b in s.builders && b in s'.builders && s' == s.(builders := s.builders[b := s'.builders[b]], tokens := s'.tokens)
  }

  /** Account `a` is what it was but for its amount. */
  predicate SameAccount(t: Ledger, t': Ledger, a: TokenAddress) {
    t'.Keys == t.Keys && (a in t ==> t'[a].mint == t[a].mint && t'[a].owner == t[a].owner)
  }

  /**
    * A stake leaves the source and enters the vault and the bond; the cached tier is the highest the new bond
    * reaches, and nothing else changes.
    */
  lemma StakeEffect(s: State, signer: Pubkey, source: TokenAddress, amount: u64, a: TokenAddress)
    requires Sound(s) && BondSpec.StakeBond(s, signer, source, amount).Ok?
    ensures var s' := BondSpec.StakeBond(s, signer, source, amount).value;
            && OnlyBond(s, s', signer) && SameAccount(s.tokens, s'.tokens, a)
            && Balance(s'.tokens, a) ==
               Balance(s.tokens, a) - When(a == source, amount) + When(a == BondVault(signer), amount)
            && var x, x' := s.builders[signer], s'.builders[signer];
            && x'.bondAmount == x.bondAmount + amount && HighestTier(s.admin.config, x')
            && x' == x.(bondAmount := x'.bondAmount, tier := x'.tier)
  {
    hide Transfer, TierForBond;
    var x := s.builders[signer];
    TransferMoves(s.tokens, source, BondVault(signer), amount, a);
    WithBondHighest(s.admin.config, x, x.bondAmount + amount);
  }

  /**
    * A withdrawal leaves the vault for the destination, which may be the vault itself, and consumes the request; the
    * cached tier is the highest the remaining bond reaches and covers the capital, and nothing else changes.
    */
  lemma WithdrawEffect(s: State, signer: Pubkey, destination: TokenAddress, amount: u64, a: TokenAddress)
    requires Sound(s) && BondSpec.WithdrawBond(s, signer, destination, amount).Ok?
    ensures var s' := BondSpec.WithdrawBond(s, signer, destination, amount).value;
            && OnlyBond(s, s', signer) && SameAccount(s.tokens, s'.tokens, a)
            && Balance(s'.tokens, a) ==
               Balance(s.tokens, a) - When(a == BondVault(signer), amount) + When(a == destination, amount)
            && var x, x' := s.builders[signer], s'.builders[signer];
            && x'.bondAmount == x.bondAmount - amount && HighestTier(s.admin.config, x')
            && CeilingForTier(s.admin.config.tierCeilings, x'.tier) >= x'.totalAum
            && x' == x.(bondAmount := x'.bondAmount, tier := x'.tier, unbondRequestedAt := 0)
  {
    hide Transfer, TierForBond;
    var x := s.builders[signer];
    TransferMoves(s.tokens, BondVault(signer), destination, amount, a);
    WithBondHighest(s.admin.config, x, x.bondAmount - amount);
  }

  /**
    * A slash leaves the vault: 70% rounded down for the traders, the rest for the buyback, also when accounts
    * coincide. The bond falls by the amount, the cached tier is the highest the rest reaches, the slash is counted up
    * to 65535, and nothing else changes.
    */
  lemma SlashEffect(s: State, signer: Pubkey, b: Pubkey, traders: TokenAddress, buyback: TokenAddress, amount: u64,
                    a: TokenAddress)
    requires Sound(s) && BondSpec.SlashBond(s, signer, b, traders, buyback, amount).Ok?
    ensures var s' := BondSpec.SlashBond(s, signer, b, traders, buyback, amount).value;
            var cut := BondSpec.TraderCut(amount);
            && 10 * cut <= 7 * amount < 10 * cut + 10
            && OnlyBond(s, s', b) && SameAccount(s.tokens, s'.tokens, a)
            && Balance(s'.tokens, a) == Balance(s.tokens, a) - When(a == BondVault(b), amount) + When(a == traders, cut)
                                        + When(a == buyback, amount - cut)
            && var x, x' := s.builders[b], s'.builders[b];
            && x'.bondAmount == x.bondAmount - amount && HighestTier(s.admin.config, x')
            && x'.slashCount == (if x.slashCount < 65535 then x.slashCount + 1 else 65535)
            && x' == x.(bondAmount := x'.bondAmount, tier := x'.tier, slashCount := x'.slashCount)
  {
    hide BondSpec.SlashPayments, TierForBond;
    var x := s.builders[b];
    SlashMoves(s.tokens, BondVault(b), traders, buyback, amount, a);
    WithBondHighest(s.admin.config, x, x.bondAmount - amount);
  }

  // ---- slashing in pieces ----

  /** Slashes of one builder by the same authority to the same accounts, one after another. */
  function SlashAll(s: State, signer: Pubkey, b: Pubkey, traders: TokenAddress, buyback: TokenAddress,
                    amounts: seq<u64>): Result<State>
    decreases |amounts|
  {
    if amounts == [] then Ok(s)
    else
      match BondSpec.SlashBond(s, signer, b, traders, buyback, amounts[0])
      case Err(e) => Err(e)
      case Ok(s') => SlashAll(s', signer, b, traders, buyback, amounts[1..])
  }

  function Sum(amounts: seq<nat>): nat {
    if amounts == [] then 0 else amounts[0] + Sum(amounts[1..])
  }

  function SumCuts(amounts: seq<nat>): nat {
    if amounts == [] then 0 else BondSpec.TraderCut(amounts[0]) + SumCuts(amounts[1..])
  }

  /** Rounding over a sequence: splitting never favours the traders and costs them under one unit a piece. */
  lemma {:induction false} CutsOfASplit(amounts: seq<nat>)
    ensures SumCuts(amounts) <= BondSpec.TraderCut(Sum(amounts)) <= SumCuts(amounts) + 9 * |amounts| / 10
  {
    RemaindersAddUp(amounts);
  }

  /** Seven tenths of the sum, less what the floors dropped. */
  lemma {:induction false} RemaindersAddUp(amounts: seq<nat>)
    ensures 10 * SumCuts(amounts) <= 7 * Sum(amounts) <= 10 * SumCuts(amounts) + 9 * |amounts|
  {
    if amounts != [] {
      RemaindersAddUp(amounts[1..]);
    }
  }

  lemma SlashKeepsSound(s: State, signer: Pubkey, b: Pubkey, traders: TokenAddress, buyback: TokenAddress, amount: u64)
    requires Sound(s) && BondSpec.SlashBond(s, signer, b, traders, buyback, amount).Ok?
    ensures Sound(BondSpec.SlashBond(s, signer, b, traders, buyback, amount).value)
  {
    var tx := Tx(s.now, signer, OfBond(SlashBond(b, traders, buyback, amount)));
    assert At(s, tx) == s;
    SoundStep(s, tx);
  }

  /** Where a whole sequence of slashes leaves the bond and the traders' account. */
  lemma {:induction false} SlashSequence(s: State, signer: Pubkey, b: Pubkey, traders: TokenAddress,
                                         buyback: TokenAddress, amounts: seq<u64>)
    requires Sound(s) && signer == s.admin.config.authority && b in s.builders
    requires HoldsAgent(s, traders) && HoldsAgent(s, buyback)
    requires (forall i | 0 <= i < |amounts| :: amounts[i] > 0) && Sum(amounts) <= s.builders[b].bondAmount
    ensures var r := SlashAll(s, signer, b, traders, buyback, amounts);
            && r.Ok? && b in r.value.builders
            && r.value.builders[b].bondAmount == s.builders[b].bondAmount - Sum(amounts)
            && Balance(r.value.tokens, traders) ==
               Balance(s.tokens, traders) + SumCuts(amounts) - When(traders == BondVault(b), Sum(amounts))
               + When(traders == buyback, Sum(amounts) - SumCuts(amounts))
    decreases |amounts|
  {
    hide BondSpec.SlashBond, Sound;
    if amounts != [] {
      var a := amounts[0];
      SlashExactly(s, signer, b, traders, buyback, a);
      SlashEffect(s, signer, b, traders, buyback, a, traders);
      SlashKeepsSound(s, signer, b, traders, buyback, a);
      SlashKeepsAccounts(s, signer, b, traders, buyback, a);
      var s' := BondSpec.SlashBond(s, signer, b, traders, buyback, a).value;
      SlashSequence(s', signer, b, traders, buyback, amounts[1..]);
    }
  }

  lemma SlashKeepsAccounts(s: State, signer: Pubkey, b: Pubkey, traders: TokenAddress, buyback: TokenAddress,
                           amount: u64)
    requires BondSpec.SlashBond(s, signer, b, traders, buyback, amount).Ok?
    ensures var s' := BondSpec.SlashBond(s, signer, b, traders, buyback, amount).value;
            s'.admin == s.admin && HoldsAgent(s', traders) && HoldsAgent(s', buyback) && b in s'.builders
  {
  }

  /**
    * The same total slashed at once or in pieces: both always go through, leave the same bond, and the pieces pay
    * the traders no more than the single slash and less by at most nine tenths of a base unit a piece, whichever
    * of the accounts coincide.
    */
  lemma {:induction false} SplittingASlash(s: State, signer: Pubkey, b: Pubkey, traders: TokenAddress,
                                           buyback: TokenAddress, amounts: seq<u64>)
    requires Sound(s) && signer == s.admin.config.authority && b in s.builders
    requires HoldsAgent(s, traders) && HoldsAgent(s, buyback)
    requires amounts != [] && (forall i | 0 <= i < |amounts| :: amounts[i] > 0)
    requires Sum(amounts) <= s.builders[b].bondAmount
    ensures var whole := BondSpec.SlashBond(s, signer, b, traders, buyback, Sum(amounts));
            var pieces := SlashAll(s, signer, b, traders, buyback, amounts);
            && whole.Ok? && pieces.Ok? && b in pieces.value.builders
            && whole.value.builders[b].bondAmount == pieces.value.builders[b].bondAmount
            && 0 <= Balance(whole.value.tokens, traders) - Balance(pieces.value.tokens, traders) <= 9 * |amounts| / 10
  {
    hide BondSpec.SlashBond, Sound;
    assert Sum(amounts) > 0;
    SlashSequence(s, signer, b, traders, buyback, amounts);
    SlashExactly(s, signer, b, traders, buyback, Sum(amounts));
    SlashEffect(s, signer, b, traders, buyback, Sum(amounts), traders);
    CutsOfASplit(amounts);
  }
}
