/** Assets under management: the builder's total against the sum over its listings, on every run. */
module Accounting {
  import opened Types
  import Tiers
  import BondSpec
  import ListingSpec
  import AumSpec
  import opened Machine
  import opened Lifecycle
  import Timelock

  // ---- the sum ----

  function AumOf(listings: map<ListingId, AgentListing>, id: ListingId): nat {
    if id in listings then listings[id].aumCurrent else 0
  }

  /** Capital over the first `n` listings of `b`. */
  function ListedAum(listings: map<ListingId, AgentListing>, b: Pubkey, n: nat): nat
    requires n <= U16_MAX
  {
    if n == 0 then 0 else ListedAum(listings, b, n - 1) + AumOf(listings, ListingId(b, n - 1))
  }

  /** How far the listings of `b` together exceed its recorded total. */
  function Gap(s: State, b: Pubkey): int
    requires b in s.builders
  {
    ListedAum(s.listings, b, s.builders[b].agentCount) - s.builders[b].totalAum
  }

  /** Two sets of listings that differ for `b` in one listing at most. */
  lemma {:induction false} SumUpdate(m: map<ListingId, AgentListing>, m': map<ListingId, AgentListing>, b: Pubkey,
                                     n: nat, i: nat)
    requires n <= U16_MAX && i <= U16_MAX
    requires forall id: ListingId | id.builder == b && id.index != i :: AumOf(m, id) == AumOf(m', id)
    ensures ListedAum(m', b, n) ==
            ListedAum(m, b, n) + if i < n then AumOf(m', ListingId(b, i)) - AumOf(m, ListingId(b, i)) else 0
  {
    if n > 0 {
      SumUpdate(m, m', b, n - 1, i);
    }
  }

  lemma {:induction false} OneOfTheSum(m: map<ListingId, AgentListing>, b: Pubkey, n: nat, i: nat)
    requires i < n <= U16_MAX
    ensures AumOf(m, ListingId(b, i)) <= ListedAum(m, b, n)
  {
    if i < n - 1 {
      OneOfTheSum(m, b, n - 1, i);
    }
  }

  // ---- one step ----

  /** By how much this step withdraws more from a listing of `b` than the listing holds. */
  function Overdraft(s: State, tx: Tx, b: Pubkey): nat {
    if Succeeds(s, tx) && tx.instr.OfAum? && tx.instr.aum.RecordWithdrawal? && tx.instr.aum.builder == b &&
       tx.instr.aum.id in s.listings
    then AumSpec.SaturatingSub(tx.instr.aum.amount, s.listings[tx.instr.aum.id].aumCurrent)
    else 0
  }

  lemma DepositGap(s: State, signer: Pubkey, builder: Pubkey, id: ListingId, amount: u64, isNew: bool, b: Pubkey)
    requires b in s.builders && Indexed(s, b)
    requires AumSpec.RecordDeposit(s, signer, builder, id, amount, isNew).Ok?
    ensures Gap(AumSpec.RecordDeposit(s, signer, builder, id, amount, isNew).value, b) == Gap(s, b)
  {
    var s' := AumSpec.RecordDeposit(s, signer, builder, id, amount, isNew).value;
    if b == builder {
      SumUpdate(s.listings, s'.listings, b, s.builders[b].agentCount, id.index);
    } else {
      SumUpdate(s.listings, s'.listings, b, s.builders[b].agentCount, U16_MAX);
    }
  }

  /** A withdrawal saturates on both counters separately; the gap it opens is never negative nor above the overdraft. */
  lemma WithdrawalGap(s: State, signer: Pubkey, builder: Pubkey, id: ListingId, amount: u64, closed: bool, b: Pubkey)
    requires b in s.builders && Indexed(s, b) && Gap(s, b) >= 0
    requires AumSpec.RecordWithdrawal(s, signer, builder, id, amount, closed).Ok?
    ensures var gap := Gap(AumSpec.RecordWithdrawal(s, signer, builder, id, amount, closed).value, b);
            0 <= gap <= Gap(s, b) + if b == builder then AumSpec.SaturatingSub(amount, AumOf(s.listings, id)) else 0
  {
    var s' := AumSpec.RecordWithdrawal(s, signer, builder, id, amount, closed).value;
    if b == builder {
      SumUpdate(s.listings, s'.listings, b, s.builders[b].agentCount, id.index);
      OneOfTheSum(s.listings, b, s.builders[b].agentCount, id.index);
    } else {
      SumUpdate(s.listings, s'.listings, b, s.builders[b].agentCount, U16_MAX);
    }
  }

  /**
    * Where the total is the sum, a withdrawal keeps it so if and only if it stays within its listing's capital or
    * that listing holds all of the builder's.
    */
  lemma SumStaysExact(s: State, signer: Pubkey, b: Pubkey, id: ListingId, amount: u64, closed: bool)
    requires b in s.builders && Indexed(s, b) && Gap(s, b) == 0
    requires AumSpec.RecordWithdrawal(s, signer, b, id, amount, closed).Ok?
    ensures Gap(AumSpec.RecordWithdrawal(s, signer, b, id, amount, closed).value, b) == 0 <==>
            amount <= s.listings[id].aumCurrent || s.listings[id].aumCurrent == s.builders[b].totalAum
  {
    var s' := AumSpec.RecordWithdrawal(s, signer, b, id, amount, closed).value;
    SumUpdate(s.listings, s'.listings, b, s.builders[b].agentCount, id.index);
    OneOfTheSum(s.listings, b, s.builders[b].agentCount, id.index);
  }

  lemma ListingGap(s: State, signer: Pubkey, i: ListingInstr, b: Pubkey)
    requires b in s.builders && Indexed(s, b) && ListingSpec.ApplyListing(s, signer, i).Ok?
    ensures b in ListingSpec.ApplyListing(s, signer, i).value.builders
    ensures Gap(ListingSpec.ApplyListing(s, signer, i).value, b) == Gap(s, b)
  {
    var s' := ListingSpec.ApplyListing(s, signer, i).value;
    ListingKeepsAum(s, signer, i, b);
    SumUpdate(s.listings, s'.listings, b, s.builders[b].agentCount, U16_MAX);
  }

  lemma ListingKeepsAum(s: State, signer: Pubkey, i: ListingInstr, b: Pubkey)
    requires b in s.builders && Indexed(s, b) && ListingSpec.ApplyListing(s, signer, i).Ok?
    ensures var s' := ListingSpec.ApplyListing(s, signer, i).value;
            && b in s'.builders && s'.builders[b].totalAum == s.builders[b].totalAum
            && (forall id: ListingId :: AumOf(s.listings, id) == AumOf(s'.listings, id))
            && (s'.builders[b].agentCount == s.builders[b].agentCount
                || (s'.builders[b].agentCount == s.builders[b].agentCount + 1
                    && AumOf(s'.listings, ListingId(b, s.builders[b].agentCount)) == 0))
  {
  }

  lemma BondKeepsAum(s: State, signer: Pubkey, i: BondInstr, b: Pubkey)
    requires BondSpec.ApplyBond(s, signer, i).Ok?
    ensures var s' := BondSpec.ApplyBond(s, signer, i).value;
            if b in s.builders then
              && b in s'.builders && s'.builders[b].totalAum == s.builders[b].totalAum
              && s'.builders[b].agentCount == s.builders[b].agentCount
            else b in s'.builders ==> s'.builders[b].totalAum == 0 && s'.builders[b].agentCount == 0
  {
  }

  lemma GapStep(s: State, tx: Tx, b: Pubkey)
    requires Indexed(s, b) && b in Process(s, tx).builders && (b in s.builders ==> Gap(s, b) >= 0)
    ensures var before := if b in s.builders then Gap(s, b) else 0;
            0 <= Gap(Process(s, tx), b) <= before + Overdraft(s, tx, b)
  {
    hide BondSpec.ApplyBond, ListingSpec.ApplyListing;
    if Succeeds(s, tx) {
      var at := At(s, tx);
      match tx.instr
      case OfBond(i) => BondKeepsAum(at, tx.signer, i, b);
      case OfListing(i) => ListingGap(at, tx.signer, i, b);
      case OfAum(RecordDeposit(x, id, amount, isNew)) => DepositGap(at, tx.signer, x, id, amount, isNew, b);
      case OfAum(RecordWithdrawal(x, id, amount, closed)) => WithdrawalGap(at, tx.signer, x, id, amount, closed, b);
      case _ =>
    }
  }

  // ---- whole runs ----

  /** By how much the first `n` transactions overdrew listings of `b`, all in all. */
  function Overdrafts(s0: State, txs: seq<Tx>, n: nat, b: Pubkey): nat
    requires n <= |txs|
  {
    if n == 0 then 0 else Overdrafts(s0, txs, n - 1, b) + Overdraft(StateAt(s0, txs, n - 1), txs[n - 1], b)
  }

  /**
    * The documented "total is the sum over the listings" holds up to overdrafts: the sum never falls below the
    * total, and never exceeds it by more than past withdrawals took beyond what their listing held.
    */
  lemma {:induction false} AumAgreement(s0: State, txs: seq<Tx>, n: nat, b: Pubkey)
    requires IsGenesis(s0) && n <= |txs| && b in StateAt(s0, txs, n).builders
    ensures 0 <= Gap(StateAt(s0, txs, n), b) <= Overdrafts(s0, txs, n, b)
  {
    hide Machine.Apply;
    var s := StateAt(s0, txs, n - 1);
    AlwaysIndexed(s0, txs, n - 1, b);
    if b in s.builders {
      AumAgreement(s0, txs, n - 1, b);
    }
    GapStep(s, txs[n - 1], b);
  }

  /** Without overdrafts the total is the sum, and a deposit then never overflows its listing. */
  lemma {:induction false} ExactWithoutOverdrafts(s0: State, txs: seq<Tx>, n: nat, b: Pubkey, signer: Pubkey,
                                                  id: ListingId, amount: u64, isNew: bool)
    requires IsGenesis(s0) && n <= |txs| && b in StateAt(s0, txs, n).builders && Overdrafts(s0, txs, n, b) == 0
    ensures var s := StateAt(s0, txs, n);
            s.builders[b].totalAum == ListedAum(s.listings, b, s.builders[b].agentCount)
    ensures var s := StateAt(s0, txs, n);
            AumSpec.RecordDeposit(s, signer, b, id, amount, isNew).Ok? <==>
            && id in s.listings && id.builder == b && s.listings[id].status == Live && !s.builders[b].IsUnbonding()
            && signer == s.admin.config.vaultAuthority != DEFAULT_PUBKEY && amount > 0
            && s.builders[b].totalAum + amount <=
               Tiers.CeilingForTier(s.admin.config.tierCeilings, s.builders[b].tier)
            && (isNew ==> s.listings[id].vaultCount < U32_MAX)
  {
    hide Machine.Apply;
    var s := StateAt(s0, txs, n);
    AumAgreement(s0, txs, n, b);
    AlwaysIndexed(s0, txs, n, b);
    if id in s.listings && id.builder == b {
      OneOfTheSum(s.listings, b, s.builders[b].agentCount, id.index);
    }
  }

  // ---- no capital before a timelocked vault authority ----

  predicate NoAum(s: State, b: Pubkey, id: ListingId) {
    (b in s.builders ==> s.builders[b].totalAum == 0) && AumOf(s.listings, id) == 0
  }

  lemma AumNeedsVault(s: State, tx: Tx, b: Pubkey, id: ListingId)
    requires NoAum(s, b, id) && !NoAum(Process(s, tx), b, id)
    ensures s.admin.config.vaultAuthority != DEFAULT_PUBKEY
  {
    hide BondSpec.ApplyBond, ListingSpec.ApplyListing;
    if Succeeds(s, tx) {
      match tx.instr
      case OfBond(i) => BondKeepsAum(At(s, tx), tx.signer, i, b);
      case OfListing(i) => ListingNeverAddsAum(At(s, tx), tx.signer, i, b, id);
      case _ =>
    }
  }

  lemma ListingNeverAddsAum(s: State, signer: Pubkey, i: ListingInstr, b: Pubkey, id: ListingId)
    requires ListingSpec.ApplyListing(s, signer, i).Ok? && NoAum(s, b, id)
    ensures NoAum(ListingSpec.ApplyListing(s, signer, i).value, b, id)
  {
  }

  /** A vault authority that is set was set at some step of the run. */
  lemma {:induction false} VaultWasSet(s0: State, txs: seq<Tx>, n: nat) returns (i: nat)
    requires IsGenesis(s0) && n <= |txs| && StateAt(s0, txs, n).admin.config.vaultAuthority != DEFAULT_PUBKEY
    ensures i < n && StateAt(s0, txs, i).admin.config.vaultAuthority == DEFAULT_PUBKEY
    ensures StateAt(s0, txs, i + 1).admin.config.vaultAuthority != DEFAULT_PUBKEY
  {
    if StateAt(s0, txs, n - 1).admin.config.vaultAuthority == DEFAULT_PUBKEY {
      i := n - 1;
    } else {
      i := VaultWasSet(s0, txs, n - 1);
    }
  }

  lemma {:induction false} AumFollowsVault(s0: State, txs: seq<Tx>, n: nat, b: Pubkey, id: ListingId) returns (i: nat)
    requires IsGenesis(s0) && n <= |txs| && !NoAum(StateAt(s0, txs, n), b, id)
    ensures i < n && StateAt(s0, txs, i).admin.config.vaultAuthority == DEFAULT_PUBKEY
    ensures StateAt(s0, txs, i + 1).admin.config.vaultAuthority != DEFAULT_PUBKEY
  {
    hide Machine.Apply;
    if NoAum(StateAt(s0, txs, n - 1), b, id) {
      AumNeedsVault(StateAt(s0, txs, n - 1), txs[n - 1], b, id);
      i := VaultWasSet(s0, txs, n - 1);
    } else {
      i := AumFollowsVault(s0, txs, n - 1, b, id);
    }
  }

  /**
    * Wherever any capital is recorded, a vault authority was announced by transaction `q`, executed by
    * transaction `i`, and the present is at least the delay in force at the announcement later, which is at least
    * every delay in force before, the initial one included, and the build's floor.
    */
  lemma {:induction false} NoAumBeforeTimelockedVault(s0: State, txs: seq<Tx>, n: nat, b: Pubkey, id: ListingId)
    returns (q: nat, i: nat)
    requires IsGenesis(s0) && n <= |txs| && !NoAum(StateAt(s0, txs, n), b, id)
    ensures q < i < n && Did(s0, txs, q) && Did(s0, txs, i)
    ensures txs[q].instr.OfAdmin? && txs[q].instr.admin.QueueSetVaultAuthority?
    ensures txs[q].instr.admin.newVaultAuthority ==
            StateAt(s0, txs, i + 1).admin.config.vaultAuthority != DEFAULT_PUBKEY
    ensures Timelock.Executes(txs[i].instr, Seed(SetVaultAuthority))
    ensures var g := StateAt(s0, txs, q).admin.governance;
            && g.Some? && g.value.timelockDelay >= MinTimelockDelay(s0.admin.localnet)
            && StateAt(s0, txs, n).now - txs[q].now >= g.value.timelockDelay
    ensures forall p: nat | p <= q && StateAt(s0, txs, p).admin.governance.Some? ::
              StateAt(s0, txs, p).admin.governance.value.timelockDelay <=
              StateAt(s0, txs, q).admin.governance.value.timelockDelay
  {
    hide Machine.Apply, Machine.Process;
    i := AumFollowsVault(s0, txs, n, b, id);
    q := Timelock.ProtectedChangesWereAnnounced(s0, txs, i);
    DidSetsClock(s0, txs, i);
    ClockAdvances(s0, txs, i + 1, n);
  }
}
