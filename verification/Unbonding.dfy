/**
  * The unbonding clock over whole runs: one request per withdrawal, the spacing it forces, and the freeze it
  * imposes.
  */
module Unbonding {
  import opened Types
  import BondSpec
  import ListingSpec
  import AumSpec
  import opened Machine
  import Coverage

  predicate Requests(tx: Tx, b: Pubkey) {
    tx.signer == b && tx.instr == OfBond(RequestUnbond)
  }

  predicate Cancels(tx: Tx, b: Pubkey) {
    tx.signer == b && tx.instr == OfBond(CancelUnbond)
  }

  predicate Withdraws(tx: Tx, b: Pubkey) {
    tx.signer == b && tx.instr.OfBond? && tx.instr.bond.WithdrawBond?
  }

  /** The unbonding clock across one step, and what a withdrawal needs of it. */
  ghost predicate ClockStep(s: State, tx: Tx, s': State, b: Pubkey)
    requires b in s.builders
  {
    && b in s'.builders && s'.builders[b].createdAt == s.builders[b].createdAt
    && var before, after := s.builders[b].unbondRequestedAt, s'.builders[b].unbondRequestedAt;
    if Succeeds(s, tx) && Requests(tx, b) then before <= 0 && after == tx.now
    else if Succeeds(s, tx) && Cancels(tx, b) then before > 0 && after == 0
    else if Succeeds(s, tx) && Withdraws(tx, b) then
      before > 0 && after == 0 && tx.now - before >= s.admin.config.unbondPeriod
    else after == before
  }

  lemma BondClock(s: State, signer: Pubkey, i: BondInstr, b: Pubkey)
    requires b in s.builders && BondSpec.ApplyBond(s, signer, i).Ok?
    ensures var x, s' := s.builders[b], BondSpec.ApplyBond(s, signer, i).value;
            && b in s'.builders && s'.builders[b].createdAt == x.createdAt
            && var after := s'.builders[b].unbondRequestedAt;
            if signer == b && i.RequestUnbond? then x.unbondRequestedAt <= 0 && after == s.now
            else if signer == b && i.CancelUnbond? then x.unbondRequestedAt > 0 && after == 0
            else if signer == b && i.WithdrawBond? then
              x.unbondRequestedAt > 0 && after == 0 && s.now - x.unbondRequestedAt >= s.admin.config.unbondPeriod
            else after == x.unbondRequestedAt
  {
  }

  lemma ClockKept(s: State, tx: Tx, b: Pubkey)
    requires b in s.builders
    ensures ClockStep(s, tx, Process(s, tx), b)
  {
    hide BondSpec.ApplyBond, ListingSpec.ApplyListing, AumSpec.ApplyAum;
    if Succeeds(s, tx) {
      match tx.instr
      case OfBond(i) => BondClock(At(s, tx), tx.signer, i, b);
      case OfListing(i) => Coverage.ListingCoverage(At(s, tx), tx.signer, i, b);
      case OfAum(i) => AumClock(At(s, tx), tx.signer, i, b);
      case _ =>
    }
  }

  lemma AumClock(s: State, signer: Pubkey, i: AumInstr, b: Pubkey)
    requires b in s.builders && AumSpec.ApplyAum(s, signer, i).Ok?
    ensures var x, x' := s.builders[b], AumSpec.ApplyAum(s, signer, i).value.builders[b];
            && x' == x.(totalAum := x'.totalAum)
            && (x.IsUnbonding() ==> x'.totalAum <= x.totalAum)
  {
  }

  /** A pending request was made by one transaction, and nothing has cancelled or consumed it since. */
  lemma {:induction false} RequestBehind(s0: State, txs: seq<Tx>, n: nat, b: Pubkey) returns (q: nat)
    requires IsGenesis(s0) && n <= |txs|
    requires b in StateAt(s0, txs, n).builders && StateAt(s0, txs, n).builders[b].IsUnbonding()
    ensures q < n && Did(s0, txs, q) && Requests(txs[q], b)
    ensures StateAt(s0, txs, n).builders[b].unbondRequestedAt == txs[q].now
    ensures forall j | q < j < n && Did(s0, txs, j) ::
              !Requests(txs[j], b) && !Cancels(txs[j], b) && !Withdraws(txs[j], b)
  {
    hide Machine.Apply;
    var s, tx := StateAt(s0, txs, n - 1), txs[n - 1];
    if b !in s.builders {
      Coverage.NewBuilder(s, tx, b);
      assert false;
    } else {
      ClockKept(s, tx, b);
      if Did(s0, txs, n - 1) && Requests(tx, b) {
        q := n - 1;
      } else {
        q := RequestBehind(s0, txs, n - 1, b);
      }
    }
  }

  /**
    * Every withdrawal consumes a request of its own: made at least the unbonding period earlier, and not
    * cancelled, renewed or used in between, so no two withdrawals share one.
    */
  lemma {:induction false} WithdrawalConsumesRequest(s0: State, txs: seq<Tx>, i: nat, b: Pubkey) returns (q: nat)
    requires IsGenesis(s0) && i < |txs| && Did(s0, txs, i) && Withdraws(txs[i], b)
    ensures q < i && Did(s0, txs, q) && Requests(txs[q], b)
    ensures txs[i].now - txs[q].now >= StateAt(s0, txs, i).admin.config.unbondPeriod
    ensures forall j | q < j < i && Did(s0, txs, j) ::
              !Requests(txs[j], b) && !Cancels(txs[j], b) && !Withdraws(txs[j], b)
  {
    hide BondSpec.ApplyBond;
    WithdrawerExists(At(StateAt(s0, txs, i), txs[i]), b, txs[i].instr.bond);
    ClockKept(StateAt(s0, txs, i), txs[i], b);
    q := RequestBehind(s0, txs, i, b);
  }

  lemma WithdrawerExists(s: State, b: Pubkey, i: BondInstr)
    requires i.WithdrawBond? && BondSpec.ApplyBond(s, b, i).Ok?
    ensures b in s.builders
  {
  }

  // ---- spacing ----

  /** Withdrawals of `b` among the first `n` transactions. */
  function Withdrawals(s0: State, txs: seq<Tx>, n: nat, b: Pubkey): nat
    requires n <= |txs|
  {
    if n == 0 then 0
    else Withdrawals(s0, txs, n - 1, b) + if Did(s0, txs, n - 1) && Withdraws(txs[n - 1], b) then 1 else 0
  }

  /** After `k` withdrawals the clock, and any pending request, lie `k` periods past registration. */
  ghost predicate Spaced(now: int, x: Builder, k: nat, period: nat) {
    now >= x.createdAt + k * period && (x.IsUnbonding() ==> x.unbondRequestedAt >= x.createdAt + k * period)
  }

  lemma SpacedStep(s: State, tx: Tx, b: Pubkey, k: nat, period: nat)
    requires b in s.builders && Spaced(s.now, s.builders[b], k, period)
    requires Succeeds(s, tx) && Withdraws(tx, b) ==> s.admin.config.unbondPeriod >= period
    ensures b in Process(s, tx).builders
    ensures Spaced(Process(s, tx).now, Process(s, tx).builders[b],
                   k + (if Succeeds(s, tx) && Withdraws(tx, b) then 1 else 0), period)
  {
    hide Machine.Apply;
    ClockKept(s, tx, b);
    assert (k + 1) * period == k * period + period;
  }

  lemma {:induction false} AlwaysSpaced(s0: State, txs: seq<Tx>, n: nat, b: Pubkey, period: nat)
    requires IsGenesis(s0) && n <= |txs|
    requires forall i | 0 <= i < n && Did(s0, txs, i) && Withdraws(txs[i], b) ::
               StateAt(s0, txs, i).admin.config.unbondPeriod >= period
    ensures var s := StateAt(s0, txs, n);
            if b in s.builders then Spaced(s.now, s.builders[b], Withdrawals(s0, txs, n, b), period)
            else Withdrawals(s0, txs, n, b) == 0
  {
    hide Machine.Process, Machine.Succeeds, Spaced;
    if n > 0 {
      var s, tx := StateAt(s0, txs, n - 1), txs[n - 1];
      AlwaysSpaced(s0, txs, n - 1, b, period);
      if b in s.builders {
        SpacedStep(s, tx, b, Withdrawals(s0, txs, n - 1, b), period);
      } else {
        NoWithdrawalBefore(s, tx, b);
        if b in Process(s, tx).builders {
          NewBuilderSpaced(s, tx, b, period);
        }
      }
    }
  }

  lemma NewBuilderSpaced(s: State, tx: Tx, b: Pubkey, period: nat)
    requires b !in s.builders && b in Process(s, tx).builders
    ensures Spaced(Process(s, tx).now, Process(s, tx).builders[b], 0, period)
  {
    hide Machine.Apply;
    Coverage.NewBuilder(s, tx, b);
  }

  lemma NoWithdrawalBefore(s: State, tx: Tx, b: Pubkey)
    requires b !in s.builders
    ensures !(Succeeds(s, tx) && Withdraws(tx, b))
  {
  }

  /**
    * While the unbonding period is at least `period` at each withdrawal, the k-th lands k periods after
    * registration.
    */
  lemma {:induction false} WithdrawalSpacing(s0: State, txs: seq<Tx>, i: nat, b: Pubkey, period: nat)
    requires IsGenesis(s0) && i < |txs| && Did(s0, txs, i) && Withdraws(txs[i], b)
    requires forall j | 0 <= j <= i && Did(s0, txs, j) && Withdraws(txs[j], b) ::
               StateAt(s0, txs, j).admin.config.unbondPeriod >= period
    ensures b in StateAt(s0, txs, i).builders
    ensures txs[i].now >= StateAt(s0, txs, i).builders[b].createdAt + Withdrawals(s0, txs, i + 1, b) * period
  {
    hide Machine.Apply;
    if b !in StateAt(s0, txs, i).builders {
      NoWithdrawalBefore(StateAt(s0, txs, i), txs[i], b);
    }
    ClockKept(StateAt(s0, txs, i), txs[i], b);
    AlwaysSpaced(s0, txs, i + 1, b, period);
    DidSetsClock(s0, txs, i);
  }

  // ---- the freeze ----

  function SlashedAt(s: State, tx: Tx, b: Pubkey): nat {
    if Coverage.Slashes(s, tx, b) then tx.instr.bond.amount else 0
  }

  /** What slashes of `b` between `i` and `j` took. */
  function Slashed(s0: State, txs: seq<Tx>, i: nat, j: nat, b: Pubkey): nat
    requires i <= j <= |txs|
    decreases j
  {
    if i == j then 0 else Slashed(s0, txs, i, j - 1, b) + SlashedAt(StateAt(s0, txs, j - 1), txs[j - 1], b)
  }

  lemma BondFreeze(s: State, signer: Pubkey, i: BondInstr, b: Pubkey)
    requires b in s.builders && BondSpec.ApplyBond(s, signer, i).Ok?
    requires b in BondSpec.ApplyBond(s, signer, i).value.builders
    requires s.builders[b].IsUnbonding() && BondSpec.ApplyBond(s, signer, i).value.builders[b].IsUnbonding()
    ensures var x, x' := s.builders[b], BondSpec.ApplyBond(s, signer, i).value.builders[b];
            && x'.bondAmount == x.bondAmount - (if i.SlashBond? && i.builder == b then i.amount else 0)
            && x'.totalAum == x.totalAum && x'.agentCount == x.agentCount
            && (i.SlashBond? ==> signer == s.admin.config.authority)
  {
  }

  function ListingsOf(s: State, b: Pubkey): set<ListingId> {
    set id | id in s.listings && id.builder == b
  }

  lemma ListingFreeze(s: State, signer: Pubkey, i: ListingInstr, b: Pubkey)
    requires b in s.builders && s.builders[b].IsUnbonding() && ListingSpec.ApplyListing(s, signer, i).Ok?
    ensures b in ListingSpec.ApplyListing(s, signer, i).value.builders
    ensures ListingSpec.ApplyListing(s, signer, i).value.builders[b] == s.builders[b]
    ensures ListingsOf(ListingSpec.ApplyListing(s, signer, i).value, b) == ListingsOf(s, b)
  {
  }

  lemma FreezeStep(s: State, tx: Tx, b: Pubkey)
    requires b in s.builders && s.builders[b].IsUnbonding()
    requires b in Process(s, tx).builders && Process(s, tx).builders[b].IsUnbonding()
    ensures var x, x' := s.builders[b], Process(s, tx).builders[b];
            && x'.bondAmount == x.bondAmount - SlashedAt(s, tx, b)
            && x'.totalAum <= x.totalAum && x'.agentCount == x.agentCount
            && ListingsOf(Process(s, tx), b) == ListingsOf(s, b)
            && (SlashedAt(s, tx, b) > 0 ==> tx.signer == s.admin.config.authority)
  {
    hide BondSpec.ApplyBond, ListingSpec.ApplyListing, AumSpec.ApplyAum;
    if Succeeds(s, tx) {
      match tx.instr
      case OfBond(i) => BondFreeze(At(s, tx), tx.signer, i, b);
      case OfListing(i) => ListingFreeze(At(s, tx), tx.signer, i, b);
      case OfAum(i) => AumClock(At(s, tx), tx.signer, i, b);
      case _ =>
    }
  }

  /**
    * As long as a builder stays unbonding, no capital and no listing is added, and its bond falls by exactly what
    * the authority slashes.
    */
  lemma {:induction false} UnbondingFreeze(s0: State, txs: seq<Tx>, i: nat, j: nat, b: Pubkey)
    requires i <= j <= |txs|
    requires forall t | i <= t <= j ::
               b in StateAt(s0, txs, t).builders && StateAt(s0, txs, t).builders[b].IsUnbonding()
    ensures var x, x' := StateAt(s0, txs, i).builders[b], StateAt(s0, txs, j).builders[b];
            && x'.bondAmount == x.bondAmount - Slashed(s0, txs, i, j, b)
            && x'.totalAum <= x.totalAum && x'.agentCount == x.agentCount
            && ListingsOf(StateAt(s0, txs, j), b) == ListingsOf(StateAt(s0, txs, i), b)
    ensures forall t | i <= t < j && Coverage.Slashes(StateAt(s0, txs, t), txs[t], b) && txs[t].instr.bond.amount > 0 ::
              txs[t].signer == StateAt(s0, txs, t).admin.config.authority
    decreases j
  {
    hide Machine.Process, Machine.Succeeds;
    if i < j {
      UnbondingFreeze(s0, txs, i, j - 1, b);
      assert b in StateAt(s0, txs, j).builders && StateAt(s0, txs, j).builders[b].IsUnbonding();
      FreezeStep(StateAt(s0, txs, j - 1), txs[j - 1], b);
    }
  }
}
