/** Bonds and the capital they stand behind: when a builder's capital can outgrow its ceiling, and when it cannot. */
module Coverage {
  import opened Types
  import opened Tiers
  import AdminSpec
  import BondSpec
  import ListingSpec
  import AumSpec
  import opened Machine
  import Timelock

  /** Capital beyond the ceiling of the builder's cached tier. */
  function Shortfall(c: Config, b: Builder): nat {
    var ceiling := CeilingForTier(c.tierCeilings, b.tier);
    if b.totalAum <= ceiling then 0 else b.totalAum - ceiling
  }

  /** The cached tier claims no more than the bond reaches on the current table. */
  predicate Honest(c: Config, b: Builder) {
    b.tier <= TierForBond(c.tierBonds, b.bondAmount)
  }

  predicate ReplacesTiers(s: State, tx: Tx) {
    Succeeds(s, tx) && tx.instr.OfAdmin? && tx.instr.admin.ExecuteChange? && tx.instr.admin.kind == UpdateTiers
  }

  predicate Slashes(s: State, tx: Tx, b: Pubkey) {
    Succeeds(s, tx) && tx.instr.OfBond? && tx.instr.bond.SlashBond? && tx.instr.bond.builder == b
  }

  predicate Stakes(s: State, tx: Tx, b: Pubkey) {
    Succeeds(s, tx) && tx.instr.OfBond? && tx.instr.bond.StakeBond? && tx.signer == b
  }

  predicate SameTiers(c: Config, c': Config) {
    c.tierBonds == c'.tierBonds && c.tierCeilings == c'.tierCeilings
  }

  lemma TiersStep(s: State, tx: Tx)
    requires !ReplacesTiers(s, tx)
    ensures SameTiers(s.admin.config, Process(s, tx).admin.config)
  {
    hide AdminSpec.ApplyAdmin;
    Timelock.AdminStep(s, tx);
    if Succeeds(s, tx) && tx.instr.OfAdmin? {
      AdminKeepsTiers(s.admin, tx.now, tx.signer, tx.instr.admin);
    }
  }

  lemma AdminKeepsTiers(a: Admin, now: Timestamp, signer: Pubkey, i: AdminInstr)
    requires AdminSpec.ApplyAdmin(a, now, signer, i).Ok? && !(i.ExecuteChange? && i.kind == UpdateTiers)
    ensures SameTiers(a.config, AdminSpec.ApplyAdmin(a, now, signer, i).value.config)
  {
  }

  /** What a bond instruction does to builder `b`, seen from coverage. */
  lemma BondCoverage(s: State, signer: Pubkey, i: BondInstr, b: Pubkey)
    requires BondSpec.ApplyBond(s, signer, i).Ok? && b in s.builders
    requires Increasing(s.admin.config.tierBonds) && Increasing(s.admin.config.tierCeilings)
    ensures var c := s.admin.config; var x := s.builders[b]; var s' := BondSpec.ApplyBond(s, signer, i).value;
            && b in s'.builders
            && (Honest(c, x) ==> Honest(c, s'.builders[b]))
            && (s'.builders[b].bondAmount != x.bondAmount ==> Honest(c, s'.builders[b]))
            && (Shortfall(c, s'.builders[b]) > Shortfall(c, x) ==>
                  (i.SlashBond? && i.builder == b) || (i.StakeBond? && signer == b && !Honest(c, x)))
  {
    if i.StakeBond? && signer == b && Honest(s.admin.config, s.builders[b]) {
      var c, x, x' := s.admin.config, s.builders[b], BondSpec.ApplyBond(s, signer, i).value.builders[b];
      TierMonotone(c.tierBonds, x.bondAmount, x'.bondAmount);
      CeilingMonotone(c.tierCeilings, x.tier, x'.tier);
    }
  }

  lemma AumCoverage(s: State, signer: Pubkey, i: AumInstr, b: Pubkey)
    requires AumSpec.ApplyAum(s, signer, i).Ok? && b in s.builders
    ensures var c := s.admin.config; var x := s.builders[b]; var x' := AumSpec.ApplyAum(s, signer, i).value.builders[b];
            x'.tier == x.tier && x'.bondAmount == x.bondAmount && Shortfall(c, x') <= Shortfall(c, x)
  {
  }

  lemma ListingCoverage(s: State, signer: Pubkey, i: ListingInstr, b: Pubkey)
    requires ListingSpec.ApplyListing(s, signer, i).Ok? && b in s.builders
    ensures var x := s.builders[b]; var s' := ListingSpec.ApplyListing(s, signer, i).value;
            b in s'.builders && s'.builders[b] == x.(agentCount := s'.builders[b].agentCount)
  {
  }

  /**
    * Uncovered capital grows at no step but a slash of the builder, an executed tier update, and a stake by a builder
    * whose cached tier claims more than the current table grants (`ShortfallGrowsExactly` says which of these). The
    * cache stays honest until tiers are replaced, and any change of the bond makes it honest again.
    */
  lemma ShortfallStep(s: State, tx: Tx, b: Pubkey)
    requires Timelock.AdminValid(s.admin) && b in s.builders
    ensures var c, c' := s.admin.config, Process(s, tx).admin.config;
            && b in Process(s, tx).builders
            && (Shortfall(c', Process(s, tx).builders[b]) > Shortfall(c, s.builders[b]) ==>
                  || ReplacesTiers(s, tx) || Slashes(s, tx, b)
                  || (Stakes(s, tx, b) && !Honest(c, s.builders[b])))
            && (Honest(c, s.builders[b]) && !ReplacesTiers(s, tx) ==> Honest(c', Process(s, tx).builders[b]))
            && (Process(s, tx).builders[b].bondAmount != s.builders[b].bondAmount ==>
                  Honest(c', Process(s, tx).builders[b]))
  {
    hide BondSpec.ApplyBond, ListingSpec.ApplyListing, AumSpec.ApplyAum, AdminSpec.ApplyAdmin;
    if !ReplacesTiers(s, tx) {
      TiersStep(s, tx);
    }
    if Succeeds(s, tx) {
      match tx.instr
      case OfBond(i) => BondCoverage(At(s, tx), tx.signer, i, b);
      case OfAum(i) => AumCoverage(At(s, tx), tx.signer, i, b);
      case OfListing(i) => ListingCoverage(At(s, tx), tx.signer, i, b);
      case _ =>
    }
  }

  // ---- exactly when capital is uncovered ----

  /** The part of the builder's capital that is within its ceiling. */
  function Covered(c: Config, x: Builder): u64 {
    var ceiling := CeilingForTier(c.tierCeilings, x.tier);
    if x.totalAum <= ceiling then x.totalAum else ceiling
  }

  /** A bond of this size reaches the threshold of the cheapest tier whose ceiling covers `aum`. */
  predicate Enough(c: Config, bond: int, aum: u64) {
    var k := LeastCoveringTier(c.tierCeilings, aum);
    k == 0 || (k <= TIER_COUNT && bond >= c.tierBonds[k - 1])
  }

  /**
    * What can be checked before a step to know that it uncovers capital of `b`: a slash that does not leave enough
    * bond, a stake that does not make it enough on the current table, or a tier update whose announced ceiling for the
    * builder's tier is too low.
    */
  predicate Uncovers(s: State, tx: Tx, b: Pubkey)
    requires b in s.builders
  {
    var c, x := s.admin.config, s.builders[b];
    || (Slashes(s, tx, b) && !Enough(c, x.bondAmount - tx.instr.bond.amount, Covered(c, x)))
    || (Stakes(s, tx, b) && !Enough(c, x.bondAmount + tx.instr.bond.amount, Covered(c, x)))
    || (ReplacesTiers(s, tx) && Seed(UpdateTiers) in s.admin.pending &&
        CeilingForTier(s.admin.pending[Seed(UpdateTiers)].tierCeilings, x.tier) < Covered(c, x))
  }

  lemma BondUncovers(s: State, signer: Pubkey, i: BondInstr, b: Pubkey)
    requires BondSpec.ApplyBond(s, signer, i).Ok? && b in s.builders
    requires Increasing(s.admin.config.tierBonds) && Increasing(s.admin.config.tierCeilings)
    ensures var c, x := s.admin.config, s.builders[b]; var s' := BondSpec.ApplyBond(s, signer, i).value;
            && b in s'.builders
            && (Shortfall(c, s'.builders[b]) > Shortfall(c, x) <==>
                  || (i.SlashBond? && i.builder == b && !Enough(c, x.bondAmount - i.amount, Covered(c, x)))
                  || (i.StakeBond? && signer == b && !Enough(c, x.bondAmount + i.amount, Covered(c, x))))
  {
    var c, x := s.admin.config, s.builders[b];
    var bond := BondSpec.ApplyBond(s, signer, i).value.builders[b].bondAmount;
    CoverageThreshold(c.tierBonds, c.tierCeilings, bond, Covered(c, x));
  }

  /** An executed tier update installs the announced tables and touches no builder. */
  lemma UpdateInstalls(s: State, tx: Tx)
    requires ReplacesTiers(s, tx)
    ensures Seed(UpdateTiers) in s.admin.pending && Process(s, tx).builders == s.builders
    ensures Process(s, tx).admin.config.tierCeilings == s.admin.pending[Seed(UpdateTiers)].tierCeilings
  {
  }

  /**
    * In any valid state, one transaction makes the builder's uncovered capital grow if and only if it is one of the
    * three, told apart beforehand; so capital within the ceiling stays there under all other steps and no others.
    */
  lemma ShortfallGrowsExactly(s: State, tx: Tx, b: Pubkey)
    requires Timelock.AdminValid(s.admin) && b in s.builders
    ensures b in Process(s, tx).builders
    ensures Uncovers(s, tx, b) <==>
            Shortfall(Process(s, tx).admin.config, Process(s, tx).builders[b]) >
            Shortfall(s.admin.config, s.builders[b])
    ensures Shortfall(s.admin.config, s.builders[b]) == 0 ==>
              Covered(s.admin.config, s.builders[b]) == s.builders[b].totalAum &&
              (Shortfall(Process(s, tx).admin.config, Process(s, tx).builders[b]) == 0 <==> !Uncovers(s, tx, b))
  {
    hide BondSpec.ApplyBond, ListingSpec.ApplyListing, AumSpec.ApplyAum, AdminSpec.ApplyAdmin, Enough;
    if ReplacesTiers(s, tx) {
      UpdateInstalls(s, tx);
    } else {
      TiersStep(s, tx);
    }
    if Succeeds(s, tx) {
      match tx.instr
      case OfBond(i) => BondUncovers(At(s, tx), tx.signer, i, b);
      case OfAum(i) => AumCoverage(At(s, tx), tx.signer, i, b);
      case OfListing(i) => ListingCoverage(At(s, tx), tx.signer, i, b);
      case _ =>
    }
  }

  /** All capital of `b`, if it is registered, is within its ceiling. */
  predicate Within(s: State, b: Pubkey) {
    b in s.builders ==> s.builders[b].totalAum <= CeilingForTier(s.admin.config.tierCeilings, s.builders[b].tier)
  }

  /** So it is at every point up to the `n`-th. */
  predicate WithinThroughout(s0: State, txs: seq<Tx>, n: nat, b: Pubkey)
    requires n <= |txs|
  {
    Within(StateAt(s0, txs, n), b) && (n > 0 ==> WithinThroughout(s0, txs, n - 1, b))
  }

  /** None of the first `n` transactions uncovers capital of `b`. */
  predicate NeverUncovers(s0: State, txs: seq<Tx>, n: nat, b: Pubkey)
    requires n <= |txs|
  {
    n > 0 ==>
      && NeverUncovers(s0, txs, n - 1, b)
      && (b in StateAt(s0, txs, n - 1).builders ==> !Uncovers(StateAt(s0, txs, n - 1), txs[n - 1], b))
  }

  /** On any run, a builder's capital stays within its ceiling throughout if and only if no transaction uncovers it. */
  lemma {:induction false} WithinThroughoutExactly(s0: State, txs: seq<Tx>, n: nat, b: Pubkey)
    requires IsGenesis(s0) && n <= |txs|
    ensures WithinThroughout(s0, txs, n, b) <==> NeverUncovers(s0, txs, n, b)
  {
    hide Machine.Process, Machine.Succeeds, Uncovers;
    if n > 0 {
      var s, tx := StateAt(s0, txs, n - 1), txs[n - 1];
      WithinThroughoutExactly(s0, txs, n - 1, b);
      Timelock.AdminAlwaysValid(s0, txs, n - 1);
      if b in s.builders {
        ShortfallGrowsExactly(s, tx, b);
      } else if b in Process(s, tx).builders {
        NewBuilder(s, tx, b);
      }
    }
  }

  // ---- whole runs ----

  /** Transactions `i` to `j` neither replace the tiers nor slash `b`. */
  predicate Calm(s0: State, txs: seq<Tx>, i: nat, j: nat, b: Pubkey)
    requires i <= j <= |txs|
    decreases j
  {
    i == j ||
    (Calm(s0, txs, i, j - 1, b) && !ReplacesTiers(StateAt(s0, txs, j - 1), txs[j - 1]) &&
     !Slashes(StateAt(s0, txs, j - 1), txs[j - 1], b))
  }

  /** On a calm stretch that starts with an honest cache, uncovered capital never grows. */
  lemma {:induction false} ShortfallNeverGrows(s0: State, txs: seq<Tx>, i: nat, j: nat, b: Pubkey)
    requires IsGenesis(s0) && i <= j <= |txs| && b in StateAt(s0, txs, i).builders && Calm(s0, txs, i, j, b)
    requires Honest(StateAt(s0, txs, i).admin.config, StateAt(s0, txs, i).builders[b])
    ensures var s, s' := StateAt(s0, txs, i), StateAt(s0, txs, j);
            && b in s'.builders && Honest(s'.admin.config, s'.builders[b])
            && Shortfall(s'.admin.config, s'.builders[b]) <= Shortfall(s.admin.config, s.builders[b])
    decreases j
  {
    hide Machine.Process, Machine.Succeeds, Honest, Shortfall;
    if i < j {
      ShortfallNeverGrows(s0, txs, i, j - 1, b);
      Timelock.AdminAlwaysValid(s0, txs, j - 1);
      ShortfallStep(StateAt(s0, txs, j - 1), txs[j - 1], b);
    }
  }

  /** A builder appears with nothing, so its cache is honest and its capital covered. */
  lemma NewBuilder(s: State, tx: Tx, b: Pubkey)
    requires b !in s.builders && b in Process(s, tx).builders
    ensures var x := Process(s, tx).builders[b]; var c := Process(s, tx).admin.config;
            Honest(c, x) && Shortfall(c, x) == 0 && x == BondSpec.NewBuilder(tx.now)
    ensures Succeeds(s, tx) && tx.signer == b && tx.instr.OfBond? && tx.instr.bond.RegisterBuilder?
  {
  }

  /** On a run with no slash of the builder and no tier update, its capital is at most its ceiling, always. */
  lemma {:induction false} CoveredOnCalmRuns(s0: State, txs: seq<Tx>, n: nat, b: Pubkey)
    requires IsGenesis(s0) && n <= |txs| && b in StateAt(s0, txs, n).builders && Calm(s0, txs, 0, n, b)
    ensures var s := StateAt(s0, txs, n);
            && s.builders[b].totalAum <= CeilingForTier(s.admin.config.tierCeilings, s.builders[b].tier)
            && s.builders[b].totalAum <=
               CeilingForTier(s.admin.config.tierCeilings,
                              TierForBond(s.admin.config.tierBonds, s.builders[b].bondAmount))
  {
    hide Machine.Apply;
    CalmAndCovered(s0, txs, n, b);
    Timelock.AdminAlwaysValid(s0, txs, n);
    var s := StateAt(s0, txs, n);
    CeilingMonotone(s.admin.config.tierCeilings, s.builders[b].tier,
                    TierForBond(s.admin.config.tierBonds, s.builders[b].bondAmount));
  }

  lemma {:induction false} CalmAndCovered(s0: State, txs: seq<Tx>, n: nat, b: Pubkey)
    requires IsGenesis(s0) && n <= |txs| && b in StateAt(s0, txs, n).builders && Calm(s0, txs, 0, n, b)
    ensures var s := StateAt(s0, txs, n);
            Honest(s.admin.config, s.builders[b]) && Shortfall(s.admin.config, s.builders[b]) == 0
  {
    hide Machine.Process, Machine.Succeeds, Honest, Shortfall;
    if b in StateAt(s0, txs, n - 1).builders {
      CalmAndCovered(s0, txs, n - 1, b);
      Timelock.AdminAlwaysValid(s0, txs, n - 1);
      ShortfallStep(StateAt(s0, txs, n - 1), txs[n - 1], b);
    } else {
      NewBuilder(StateAt(s0, txs, n - 1), txs[n - 1], b);
    }
  }
}
