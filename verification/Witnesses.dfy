/** Concrete runs on which natural expectations fail; the exact conditions are proved where each is discussed. */
module Witnesses {
  import opened Types
  import opened Tiers
  import opened Tokens
  import opened Machine
  import BondSpec
  import Timelock
  import Accounting
  import Coverage

  const MULTISIG: Pubkey := 1
  const GUARDIAN: Pubkey := 2
  const VAULT: Pubkey := 3
  const BOT: Pubkey := 4
  const MAKER: Pubkey := 5
  const MINT: Pubkey := 9
  const PURSE := Account(7)

  const LAUNCH := Config(MULTISIG, MINT, DEFAULT_PUBKEY, [10, 20, 30], [100, 200, 300], 1000)
  const G0 := State(1, Admin(false, LAUNCH, None, map[]), map[], map[],
                    map[PURSE := TokenAccount(MINT, Wallet(MAKER), 50)])

  lemma GenesisHolds()
    ensures IsGenesis(G0)
  {
    var none: Ledger := map[];
    SupplyUpdate(none, MINT, PURSE, TokenAccount(MINT, Wallet(MAKER), 50));
    assert none[PURSE := TokenAccount(MINT, Wallet(MAKER), 50)] == G0.tokens;
    assert Supply(none, MINT) == 0;
  }

  /** A period of a year passes set-up. */
  lemma YearLongPeriod()
    ensures var year := 365 * 24 * 60 * 60;
            var s := G0.(admin := G0.admin.(config := LAUNCH.(unbondPeriod := year)));
            IsGenesis(s) && s.admin.config.unbondPeriod > MAX_UNBOND_PERIOD
  {
    GenesisHolds();
  }

  // ---- a misfiled change cannot be vetoed ----

  const SETUP := Tx(1, MULTISIG, OfAdmin(InitializeGovernance(GUARDIAN, Some(3600))))
  const MISFILE := Tx(1, MULTISIG, OfAdmin(QueueTransferAuthority(UpdateTiers, BOT, MULTISIG)))

  /** The authority announces a transfer in the slot for tiers; the guardian cannot veto it. */
  lemma MisfiledChange()
    ensures IsGenesis(G0)
    ensures Seed(UpdateTiers) in StateAt(G0, [SETUP, MISFILE], 2).admin.pending
    ensures !Timelock.GuardianCanVeto(StateAt(G0, [SETUP, MISFILE], 2), Seed(UpdateTiers))
  {
    GenesisHolds();
    var txs := [SETUP, MISFILE];
    var a1 := G0.admin.(governance := Some(Governance(GUARDIAN, 3600)));
    assert StateAt(G0, txs, 1) == Process(StateAt(G0, txs, 0), SETUP) == G0.(admin := a1);
    assert Succeeds(StateAt(G0, txs, 1), MISFILE);
    assert Did(G0, txs, 1) && StateAt(G0, txs, 2) == Process(StateAt(G0, txs, 1), MISFILE);
    Timelock.VetoReachAfterQueue(G0, txs, 1, Seed(UpdateTiers));
  }

  // ---- the guardian is replaced while a change is pending ----

  const PROPOSE := Tx(1, MULTISIG, OfAdmin(QueueTransferAuthority(TransferAuthority, BOT, MULTISIG)))
  const ROTATE := Tx(1, MULTISIG, OfAdmin(SetGuardian(MAKER)))
  const TAKEOVER := Tx(3601, MULTISIG, OfAdmin(ExecuteChange(TransferAuthority, MULTISIG)))

  const A1 := G0.admin.(governance := Some(Governance(GUARDIAN, 3600)))
  const PROPOSAL := PendingChange(TransferAuthority, BOT, NO_TIERS, NO_TIERS, 3601, 1, MULTISIG)
  const A2 := A1.(pending := map[Seed(TransferAuthority) := PROPOSAL])
  const A3 := A2.(governance := Some(Governance(MAKER, 3600)))

  lemma RotationLands()
    ensures Process(G0, SETUP) == G0.(admin := A1)
    ensures Process(G0.(admin := A1), PROPOSE) == G0.(admin := A2)
    ensures Process(G0.(admin := A2), ROTATE) == G0.(admin := A3)
    ensures Process(G0.(admin := A3), TAKEOVER).admin.config.authority == BOT
  {
  }

  /** The guardian in office at the announcement can veto it only until it is replaced; then the transfer lands. */
  lemma RotatedGuardian()
    ensures var txs := [SETUP, PROPOSE, ROTATE, TAKEOVER]; var slot := Seed(TransferAuthority);
            && IsGenesis(G0)
            && Timelock.CanVeto(StateAt(G0, txs, 2), GUARDIAN, slot)
            && slot in StateAt(G0, txs, 3).admin.pending && !Timelock.CanVeto(StateAt(G0, txs, 3), GUARDIAN, slot)
            && StateAt(G0, txs, 4).admin.config.authority == BOT
  {
    hide Machine.Process, Machine.Succeeds;
    GenesisHolds();
    RotationLands();
    var txs := [SETUP, PROPOSE, ROTATE, TAKEOVER];
    assert StateAt(G0, txs, 1) == Process(StateAt(G0, txs, 0), SETUP);
    assert StateAt(G0, txs, 2) == Process(StateAt(G0, txs, 1), PROPOSE);
    assert StateAt(G0, txs, 3) == Process(StateAt(G0, txs, 2), ROTATE);
    assert StateAt(G0, txs, 4) == Process(StateAt(G0, txs, 3), TAKEOVER);
    Timelock.VetoNow(G0.(admin := A2), GUARDIAN, Seed(TransferAuthority));
    Timelock.VetoNow(G0.(admin := A3), GUARDIAN, Seed(TransferAuthority));
  }

  // ---- the guardian becomes the authority ----

  const CROWN := Tx(1, MULTISIG, OfAdmin(QueueTransferAuthority(TransferAuthority, GUARDIAN, MULTISIG)))
  const CORONATION := Tx(3601, MULTISIG, OfAdmin(ExecuteChange(TransferAuthority, MULTISIG)))

  /** A transfer to the guardian goes through, and one key then holds both roles. */
  lemma GuardianCrowned()
    ensures IsGenesis(G0) && !Timelock.Separate(StateAt(G0, [SETUP, CROWN, CORONATION], 3).admin)
  {
    GenesisHolds();
    var txs := [SETUP, CROWN, CORONATION];
    var a1 := G0.admin.(governance := Some(Governance(GUARDIAN, 3600)));
    var p := PendingChange(TransferAuthority, GUARDIAN, NO_TIERS, NO_TIERS, 3601, 1, MULTISIG);
    var a2 := a1.(pending := map[Seed(TransferAuthority) := p]);
    assert StateAt(G0, txs, 1) == Process(StateAt(G0, txs, 0), SETUP) == G0.(admin := a1);
    assert StateAt(G0, txs, 2) == Process(StateAt(G0, txs, 1), CROWN) == G0.(admin := a2);
    assert StateAt(G0, txs, 3) == Process(StateAt(G0, txs, 2), CORONATION);
  }

  // ---- a builder with two listings and capital in both ----

  const FIRST := ListingId(MAKER, 0)
  const SECOND := ListingId(MAKER, 1)

  const OPENING: seq<Tx> := [
    SETUP,
    Tx(1, MULTISIG, OfAdmin(QueueSetVaultAuthority(SetVaultAuthority, VAULT, MULTISIG))),
    Tx(3601, MULTISIG, OfAdmin(ExecuteChange(SetVaultAuthority, MULTISIG))),
    Tx(3601, MAKER, OfBond(RegisterBuilder(MINT))),
    Tx(3601, MAKER, OfBond(StakeBond(PURSE, 10))),
    Tx(3601, MAKER, OfListing(SubmitListing(BOT, 0, 0))),
    Tx(3601, MAKER, OfListing(SubmitListing(BOT, 0, 0))),
    Tx(3601, MULTISIG, OfListing(ApproveListing(FIRST, None))),
    Tx(3601, MULTISIG, OfListing(ApproveListing(SECOND, None))),
    Tx(3601, VAULT, OfAum(RecordDeposit(MAKER, FIRST, 40, true))),
    Tx(3601, VAULT, OfAum(RecordDeposit(MAKER, SECOND, 40, true)))]

  const G1 := G0.(admin := G0.admin.(governance := Some(Governance(GUARDIAN, 3600))))
  const QUEUED := PendingChange(SetVaultAuthority, VAULT, NO_TIERS, NO_TIERS, 3601, 1, MULTISIG)
  const G2 := G1.(admin := G1.admin.(pending := map[Seed(SetVaultAuthority) := QUEUED]))
  const G3 := G1.(now := 3601, admin := G1.admin.(config := LAUNCH.(vaultAuthority := VAULT)))
  const FUNDED: Ledger := map[PURSE := TokenAccount(MINT, Wallet(MAKER), 40),
                              BondVault(MAKER) := TokenAccount(MINT, BuilderPda(MAKER), 10)]
  const G5 := G3.(builders := map[MAKER := Builder(10, 0, 1, 0, 0, 0, 3601)], tokens := FUNDED)
  const NEW := AgentListing(BOT, Vetting, 0, 0, ZERO_FEES, 0, 0, 3601, 0)
  const G7 := G5.(builders := map[MAKER := Builder(10, 0, 1, 0, 0, 2, 3601)],
                  listings := map[FIRST := NEW, SECOND := NEW])
  const OPEN := NEW.(status := Live, fees := DEFAULT_FEES, approvedAt := 3601)
  const G9 := G7.(listings := map[FIRST := OPEN, SECOND := OPEN])
  const BUSY := OPEN.(aumCurrent := 40, vaultCount := 1)
  const G11 := G9.(builders := map[MAKER := Builder(10, 80, 1, 0, 0, 2, 3601)],
                   listings := map[FIRST := BUSY, SECOND := BUSY])

  lemma Governed()
    ensures StateAt(G0, OPENING, 3) == G3
  {
    assert StateAt(G0, OPENING, 1) == Process(StateAt(G0, OPENING, 0), OPENING[0]) == G1;
    assert StateAt(G0, OPENING, 2) == Process(StateAt(G0, OPENING, 1), OPENING[1]) == G2;
    assert StateAt(G0, OPENING, 3) == Process(StateAt(G0, OPENING, 2), OPENING[2]);
    assert G2.admin.pending - {Seed(SetVaultAuthority)} == map[];
  }

  lemma Bonded()
    ensures Process(Process(G3, OPENING[3]), OPENING[4]) == G5
  {
    var g4 := Process(G3, OPENING[3]);
    assert g4.builders == map[MAKER := Builder(0, 0, 0, 0, 0, 0, 3601)];
    assert g4.tokens == G3.tokens[BondVault(MAKER) := TokenAccount(MINT, BuilderPda(MAKER), 0)];
    assert g4 == G3.(builders := g4.builders, tokens := g4.tokens);
    TierReached(LAUNCH.tierBonds, 10, 1);
    TierReached(LAUNCH.tierBonds, 10, 2);
    var g5 := Process(g4, OPENING[4]);
    assert g5.tokens == FUNDED;
    assert g5.builders == G5.builders;
  }

  lemma Listed()
    ensures Process(Process(G5, OPENING[5]), OPENING[6]) == G7
  {
    var g6 := Process(G5, OPENING[5]);
    assert g6.builders == map[MAKER := Builder(10, 0, 1, 0, 0, 1, 3601)];
    assert g6 == G5.(builders := g6.builders, listings := map[FIRST := NEW]);
  }

  lemma Approved()
    ensures Process(Process(G7, OPENING[7]), OPENING[8]) == G9
  {
    var g8 := Process(G7, OPENING[7]);
    assert g8 == G7.(listings := map[FIRST := OPEN, SECOND := NEW]);
  }

  lemma Deployed()
    ensures Process(Process(G9, OPENING[9]), OPENING[10]) == G11
  {
    var g10 := Process(G9, OPENING[9]);
    assert g10.builders == map[MAKER := Builder(10, 40, 1, 0, 0, 2, 3601)];
    assert g10 == G9.(builders := g10.builders, listings := map[FIRST := BUSY, SECOND := OPEN]);
  }

  lemma Opened()
    ensures IsGenesis(G0) && StateAt(G0, OPENING, 11) == G11
  {
    hide Machine.Apply, Machine.Succeeds, Machine.Process;
    GenesisHolds();
    Governed();
    Bonded();
    Listed();
    Approved();
    Deployed();
    assert StateAt(G0, OPENING, 5) == Process(StateAt(G0, OPENING, 4), OPENING[4]);
    assert StateAt(G0, OPENING, 4) == Process(StateAt(G0, OPENING, 3), OPENING[3]);
    assert StateAt(G0, OPENING, 7) == Process(StateAt(G0, OPENING, 6), OPENING[6]);
    assert StateAt(G0, OPENING, 6) == Process(StateAt(G0, OPENING, 5), OPENING[5]);
    assert StateAt(G0, OPENING, 9) == Process(StateAt(G0, OPENING, 8), OPENING[8]);
    assert StateAt(G0, OPENING, 8) == Process(StateAt(G0, OPENING, 7), OPENING[7]);
    assert StateAt(G0, OPENING, 11) == Process(StateAt(G0, OPENING, 10), OPENING[10]);
    assert StateAt(G0, OPENING, 10) == Process(StateAt(G0, OPENING, 9), OPENING[9]);
  }

  const OVERDRAW := Tx(3601, VAULT, OfAum(RecordWithdrawal(MAKER, FIRST, 60, false)))

  lemma Overdrawn()
    ensures Process(G11, OVERDRAW).builders == map[MAKER := Builder(10, 20, 1, 0, 0, 2, 3601)]
    ensures Process(G11, OVERDRAW).listings == map[FIRST := BUSY.(aumCurrent := 0), SECOND := BUSY]
  {
  }

  /** A withdrawal of 60 from a listing that holds 40: the total says 20, the listings still hold 40. */
  lemma TotalIsNotAlwaysTheSum()
    ensures var s := Process(StateAt(G0, OPENING, 11), OVERDRAW);
            && IsGenesis(G0) && MAKER in s.builders && s.builders[MAKER].totalAum == 20
            && Accounting.ListedAum(s.listings, MAKER, s.builders[MAKER].agentCount) == 40
  {
    hide Machine.Process, Machine.Succeeds;
    Opened();
    Overdrawn();
    var s := Process(G11, OVERDRAW);
    assert Accounting.AumOf(s.listings, FIRST) == 0 && Accounting.AumOf(s.listings, SECOND) == 40;
    assert Accounting.ListedAum(s.listings, MAKER, 1) == 0;
  }

  /** Half of the bond leaves the vault, in two payments to the same account. */
  lemma SlashPaid()
    ensures var paid := BondSpec.SlashPayments(FUNDED, BondVault(MAKER), PURSE, PURSE, 5);
            paid.Ok? && TierForBond(LAUNCH.tierBonds, 5) == 0
  {
    assert BondSpec.TraderCut(5) == 3;
    var first := Transfer(FUNDED, BondVault(MAKER), PURSE, 3);
    assert first.Ok? && Transfer(first.value, BondVault(MAKER), PURSE, 2).Ok?;
    TierReached(LAUNCH.tierBonds, 5, 1);
  }

  const SLASH := Tx(3601, MULTISIG, OfBond(SlashBond(MAKER, PURSE, PURSE, 5)))

  lemma SlashLands()
    ensures Process(G11, SLASH).builders == map[MAKER := Builder(5, 80, 0, 0, 1, 2, 3601)]
    ensures Process(G11, SLASH).admin == G11.admin
  {
    hide BondSpec.SlashPayments, TierForBond;
    SlashPaid();
    assert G11.tokens == FUNDED && G11.builders[MAKER].bondAmount == 10;
  }

  /** A slash drops the builder below the tier that covers its 80 of capital. */
  lemma SlashUncoversCapital()
    ensures var s := Process(StateAt(G0, OPENING, 11), SLASH);
            IsGenesis(G0) && MAKER in s.builders && Coverage.Shortfall(s.admin.config, s.builders[MAKER]) == 80
  {
    hide Machine.Process, Machine.Succeeds;
    Opened();
    SlashLands();
  }

  // ---- a tier update uncovers capital, and a stake on the stale cache uncovers more ----

  /** A tier update that halves the first ceiling, and one that doubles the first bond. */
  const LOWER := PendingChange(UpdateTiers, DEFAULT_PUBKEY, [10, 20, 30], [50, 200, 300], 7201, 3601, MULTISIG)
  const DEARER := PendingChange(UpdateTiers, DEFAULT_PUBKEY, [20, 30, 40], [100, 200, 300], 7201, 3601, MULTISIG)

  function Announce(p: PendingChange): Tx {
    Tx(3601, MULTISIG, OfAdmin(QueueUpdateTiers(UpdateTiers, p.tierBonds, p.tierCeilings, MULTISIG)))
  }

  const UPDATE := Tx(7201, MULTISIG, OfAdmin(ExecuteChange(UpdateTiers, MULTISIG)))
  const TOP_UP := Tx(7201, MAKER, OfBond(StakeBond(PURSE, 1)))

  function Announced(p: PendingChange): State {
    G11.(admin := G11.admin.(pending := map[Seed(UpdateTiers) := p]))
  }

  lemma AnnouncementLands(p: PendingChange)
    requires p == LOWER || p == DEARER
    ensures Process(G11, Announce(p)) == Announced(p)
  {
    assert G11.admin.pending == map[];
  }

  lemma UpdateLands(p: PendingChange)
    requires p == LOWER || p == DEARER
    ensures var c := G11.admin.config.(tierBonds := p.tierBonds, tierCeilings := p.tierCeilings);
            Process(Announced(p), UPDATE) == G11.(now := 7201, admin := G11.admin.(config := c))
  {
    assert Announced(p).admin.pending - {Seed(UpdateTiers)} == map[];
  }

  /** Lowering the first ceiling to 50 leaves 30 of the builder's 80 uncovered. */
  lemma UpdateUncoversCapital()
    ensures var s := Process(Process(StateAt(G0, OPENING, 11), Announce(LOWER)), UPDATE);
            IsGenesis(G0) && MAKER in s.builders && Coverage.Shortfall(s.admin.config, s.builders[MAKER]) == 30
  {
    hide Machine.Process, Machine.Succeeds;
    Opened();
    AnnouncementLands(LOWER);
    UpdateLands(LOWER);
  }

  lemma ToppedUp()
    ensures var s := G11.(now := 7201, admin := G11.admin.(config := G11.admin.config.(tierBonds := DEARER.tierBonds)));
            && Process(s, TOP_UP).builders == map[MAKER := Builder(11, 80, 0, 0, 0, 2, 3601)]
            && Process(s, TOP_UP).admin == s.admin
  {
    TierReached(DEARER.tierBonds, 11, 1);
    assert Transfer(FUNDED, PURSE, BondVault(MAKER), 1).Ok?;
  }

  /** Raising the first threshold to 20 uncovers nothing by itself; the builder's next stake, of 1, uncovers all 80. */
  lemma StakeUncoversCapital()
    ensures var s := Process(Process(StateAt(G0, OPENING, 11), Announce(DEARER)), UPDATE);
            var s' := Process(s, TOP_UP);
            && IsGenesis(G0) && MAKER in s.builders && MAKER in s'.builders
            && Coverage.Shortfall(s.admin.config, s.builders[MAKER]) == 0
            && Coverage.Shortfall(s'.admin.config, s'.builders[MAKER]) == 80
  {
    hide Machine.Process, Machine.Succeeds;
    Opened();
    AnnouncementLands(DEARER);
    UpdateLands(DEARER);
    ToppedUp();
  }
}
