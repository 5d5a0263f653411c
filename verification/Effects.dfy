/**
  * Instruction by instruction: exactly when a transaction takes effect, and everything it then changes. Stakes,
  * withdrawals and slashes are in Escrow, batches of deposits in Deposits, approvals in Lifecycle.
  */
module Effects {
  import opened Types
  import opened Tiers
  import opened Machine
  import AdminSpec
  import BondSpec
  import AumSpec
  import Escrow
  import Lifecycle
  import Timelock

  const DAY: int := 86_400

  /** A transaction without effect moves the clock, unless it comes from the past, and nothing else. */
  lemma FailureOnlyMovesClock(s: State, tx: Tx)
    requires !Succeeds(s, tx)
    ensures Process(s, tx) == s.(now := if s.now <= tx.now then tx.now else s.now)
  {
  }

  // ---- configuration ----

  /** Set-up takes any table that increases strictly and any positive period, 14 days if none is given. */
  lemma SetUpExactly(authority: Pubkey, mint: Pubkey, bonds: TierTable, ceilings: TierTable, period: Option<i64>)
    ensures var r := AdminSpec.InitialConfig(authority, mint, bonds, ceilings, period);
            var chosen := if period.Some? then period.value else 14 * DAY;
            && (r.Ok? <==> bonds[0] < bonds[1] < bonds[2] && ceilings[0] < ceilings[1] < ceilings[2] && chosen > 0)
            && (r.Ok? ==> r.value == Config(authority, mint, 0, bonds, ceilings, chosen))
  {
  }

  /** Set-up happens once. */
  lemma SetUpIsOnce(s: State, tx: Tx)
    requires tx.instr.OfAdmin? && tx.instr.admin.InitializeConfig?
    ensures !Succeeds(s, tx)
  {
  }

  lemma SetPeriodExactly(s: State, now: Timestamp, signer: Pubkey, period: i64)
    ensures var tx := Tx(now, signer, OfAdmin(SetUnbondPeriod(period))); var a := s.admin;
            && (Succeeds(s, tx) <==> s.now <= now && signer == a.config.authority && 0 < period <= 90 * DAY)
            && (Succeeds(s, tx) ==>
                  Process(s, tx) == s.(now := now, admin := a.(config := a.config.(unbondPeriod := period))))
  {
  }

  // ---- governance ----

  /** Governance is created once, with a guardian of its own and a delay of 72 hours if none is given. */
  lemma InitializeGovernanceExactly(s: State, now: Timestamp, signer: Pubkey, guardian: Pubkey, delay: Option<i64>)
    ensures var tx := Tx(now, signer, OfAdmin(InitializeGovernance(guardian, delay))); var a := s.admin;
            var chosen := if delay.Some? then delay.value else 3 * DAY;
            && (Succeeds(s, tx) <==>
                  && s.now <= now && a.governance.None? && signer == a.config.authority
                  && guardian != 0 && guardian != a.config.authority
                  && (if a.localnet then 2 else 3_600) <= chosen <= 30 * DAY)
            && (Succeeds(s, tx) ==>
                  Process(s, tx) == s.(now := now, admin := a.(governance := Some(Governance(guardian, chosen)))))
  {
  }

  lemma SetGuardianExactly(s: State, now: Timestamp, signer: Pubkey, guardian: Pubkey)
    ensures var tx := Tx(now, signer, OfAdmin(SetGuardian(guardian))); var a := s.admin;
            && (Succeeds(s, tx) <==>
                  && s.now <= now && a.governance.Some? && signer == a.config.authority
                  && guardian != 0 && guardian != a.config.authority)
            && (Succeeds(s, tx) ==>
                  var g := Governance(guardian, a.governance.value.timelockDelay);
                  Process(s, tx) == s.(now := now, admin := a.(governance := Some(g))))
  {
  }

  lemma SetDelayExactly(s: State, now: Timestamp, signer: Pubkey, delay: i64)
    ensures var tx := Tx(now, signer, OfAdmin(SetTimelockDelay(delay))); var a := s.admin;
            && (Succeeds(s, tx) <==>
                  && s.now <= now && a.governance.Some? && signer == a.config.authority
                  && a.governance.value.timelockDelay < delay <= 30 * DAY)
            && (Succeeds(s, tx) ==>
                  var g := Governance(a.governance.value.guardian, delay);
                  Process(s, tx) == s.(now := now, admin := a.(governance := Some(g))))
  {
  }

  /** The authority may announce into `slot`: only the slot itself must be free, whatever else is pending. */
  predicate MayQueue(s: State, now: Timestamp, signer: Pubkey, slot: ActionKind) {
    && s.now <= now && s.admin.governance.Some? && Seed(slot) !in s.admin.pending && signer == s.admin.config.authority
    && now + s.admin.governance.value.timelockDelay <= I64_MAX
  }

  /** Across the step, `slot` receives the change `p`, executable one delay from now, and nothing else happens. */
  ghost predicate Announces(s: State, s': State, now: Timestamp, slot: ActionKind, kind: ActionKind, key: Pubkey,
                            bonds: TierTable, ceilings: TierTable, payer: Pubkey)
  {
    && s.admin.governance.Some?
    && var eta := now + s.admin.governance.value.timelockDelay;
    && -I64_MAX - 1 <= eta <= I64_MAX
    && s' == s.(now := now, admin := s.admin.(pending := s.admin.pending[
               Seed(slot) := PendingChange(kind, key, bonds, ceilings, eta, now, payer)]))
  }

  lemma QueueTransferExactly(s: State, now: Timestamp, signer: Pubkey, slot: ActionKind, key: Pubkey, payer: Pubkey)
    requires Timelock.AdminValid(s.admin)
    ensures var tx := Tx(now, signer, OfAdmin(QueueTransferAuthority(slot, key, payer)));
            && (Succeeds(s, tx) <==> MayQueue(s, now, signer, slot) && key != 0)
            && (Succeeds(s, tx) ==>
                  Announces(s, Process(s, tx), now, slot, TransferAuthority, key, [0, 0, 0], [0, 0, 0], payer))
  {
  }

  lemma QueueVaultExactly(s: State, now: Timestamp, signer: Pubkey, slot: ActionKind, key: Pubkey, payer: Pubkey)
    requires Timelock.AdminValid(s.admin)
    ensures var tx := Tx(now, signer, OfAdmin(QueueSetVaultAuthority(slot, key, payer)));
            && (Succeeds(s, tx) <==> MayQueue(s, now, signer, slot))
            && (Succeeds(s, tx) ==>
                  Announces(s, Process(s, tx), now, slot, SetVaultAuthority, key, [0, 0, 0], [0, 0, 0], payer))
  {
  }

  lemma QueueTiersExactly(s: State, now: Timestamp, signer: Pubkey, slot: ActionKind, bonds: TierTable,
                          ceilings: TierTable, payer: Pubkey)
    requires Timelock.AdminValid(s.admin)
    ensures var tx := Tx(now, signer, OfAdmin(QueueUpdateTiers(slot, bonds, ceilings, payer)));
            && (Succeeds(s, tx) <==>
                  && MayQueue(s, now, signer, slot)
                  && bonds[0] < bonds[1] < bonds[2] && ceilings[0] < ceilings[1] < ceilings[2])
            && (Succeeds(s, tx) ==> Announces(s, Process(s, tx), now, slot, UpdateTiers, 0, bonds, ceilings, payer))
  {
  }

  /** A veto removes the change and leaves everything else, the other slots included. */
  lemma VetoExactly(s: State, now: Timestamp, signer: Pubkey, kind: ActionKind, refund: Pubkey)
    requires Timelock.AdminValid(s.admin)
    ensures var tx := Tx(now, signer, OfAdmin(VetoChange(kind, refund))); var a := s.admin;
            && (Succeeds(s, tx) <==>
                  && s.now <= now && Timelock.HoldsVeto(a, signer) && Seed(kind) in a.pending
                  && a.pending[Seed(kind)].kind == kind && a.pending[Seed(kind)].payer == refund)
            && (Succeeds(s, tx) ==>
                  Process(s, tx) == s.(now := now, admin := a.(pending := a.pending - {Seed(kind)})))
  {
  }

  /** An execution puts the pending change into force and frees its slot; the other slots keep theirs. */
  lemma ExecuteExactly(s: State, now: Timestamp, signer: Pubkey, kind: ActionKind, refund: Pubkey)
    requires Timelock.AdminValid(s.admin)
    ensures var tx := Tx(now, signer, OfAdmin(ExecuteChange(kind, refund))); var a := s.admin;
            && (Succeeds(s, tx) <==>
                  && s.now <= now && signer == a.config.authority && Seed(kind) in a.pending
                  && a.pending[Seed(kind)].kind == kind && a.pending[Seed(kind)].payer == refund
                  && now >= a.pending[Seed(kind)].eta)
            && (Succeeds(s, tx) ==>
                  var c, p, c' := a.config, a.pending[Seed(kind)], Process(s, tx).admin.config;
                  && Process(s, tx) == s.(now := now, admin := a.(config := c', pending := a.pending - {Seed(kind)}))
                  && (kind.TransferAuthority? ==> c' == c.(authority := p.newKey))
                  && (kind.SetVaultAuthority? ==> c' == c.(vaultAuthority := p.newKey))
                  && (kind.UpdateTiers? ==> c' == c.(tierBonds := p.tierBonds, tierCeilings := p.tierCeilings)))
  {
  }

  /** Vetoing what was just announced in the slot of its own kind restores what there was before. */
  lemma VetoUndoesQueue(s: State, queue: Tx, kind: ActionKind)
    requires Timelock.AdminValid(s.admin) && Succeeds(s, queue)
    requires Timelock.QueuesInto(queue.instr, Seed(kind)) && Timelock.NamesItself(queue.instr)
    ensures var queued := Process(s, queue);
            && s.admin.governance.Some? && Seed(kind) in queued.admin.pending
            && var refund := queued.admin.pending[Seed(kind)].payer;
            && var veto := Tx(queue.now, s.admin.governance.value.guardian, OfAdmin(VetoChange(kind, refund)));
            && Succeeds(queued, veto) && Process(queued, veto) == s.(now := queue.now)
  {
    var pending := Process(s, queue).admin.pending;
    assert pending - {Seed(kind)} == s.admin.pending;
  }

  // ---- builders ----

  /** Anyone registers once; the record and the vault start empty. */
  lemma RegisterExactly(s: State, now: Timestamp, signer: Pubkey, mint: Pubkey)
    requires Escrow.Escrowed(s, signer)
    ensures var tx := Tx(now, signer, OfBond(RegisterBuilder(mint)));
            && (Succeeds(s, tx) <==> s.now <= now && signer !in s.builders && mint == s.admin.config.agentMint)
            && (Succeeds(s, tx) ==>
                  Process(s, tx) == s.(now := now,
                    builders := s.builders[signer := Builder(0, 0, 0, 0, 0, 0, now)],
                    tokens := s.tokens[BondVault(signer) := TokenAccount(mint, BuilderPda(signer), 0)]))
  {
  }

  lemma RequestUnbondExactly(s: State, now: Timestamp, signer: Pubkey)
    ensures var tx := Tx(now, signer, OfBond(RequestUnbond));
            && (Succeeds(s, tx) <==> s.now <= now && signer in s.builders && s.builders[signer].unbondRequestedAt <= 0)
            && (Succeeds(s, tx) ==>
                  var b := s.builders[signer].(unbondRequestedAt := now);
                  Process(s, tx) == s.(now := now, builders := s.builders[signer := b]))
  {
  }

  lemma CancelUnbondExactly(s: State, now: Timestamp, signer: Pubkey)
    ensures var tx := Tx(now, signer, OfBond(CancelUnbond));
            && (Succeeds(s, tx) <==> s.now <= now && signer in s.builders && s.builders[signer].unbondRequestedAt > 0)
            && (Succeeds(s, tx) ==>
                  var b := s.builders[signer].(unbondRequestedAt := 0);
                  Process(s, tx) == s.(now := now, builders := s.builders[signer := b]))
  {
  }

  /** A request cancelled at any later time leaves only the clock changed. */
  lemma CancelUndoesRequest(s: State, signer: Pubkey, now: Timestamp, later: Timestamp)
    requires now <= later && signer in s.builders && s.builders[signer].unbondRequestedAt == 0
    requires Succeeds(s, Tx(now, signer, OfBond(RequestUnbond)))
    ensures var requested := Process(s, Tx(now, signer, OfBond(RequestUnbond)));
            var cancel := Tx(later, signer, OfBond(CancelUnbond));
            Succeeds(requested, cancel) && Process(requested, cancel) == s.(now := later)
  {
    hide Machine.Process, Machine.Succeeds;
    RequestUnbondExactly(s, now, signer);
    CancelUnbondExactly(Process(s, Tx(now, signer, OfBond(RequestUnbond))), later, signer);
  }

  // ---- listings ----

  /** From `s` to `s'` only the clock and this one listing changed. */
  predicate OnlyListing(s: State, s': State, now: Timestamp, id: ListingId, l: AgentListing) {
    id in s.listings && s' == s.(now := now, listings := s.listings[id := l])
  }

  /** The new listing takes the builder's next index, in vetting and without terms. */
  lemma SubmitExactly(s: State, now: Timestamp, signer: Pubkey, agent: Pubkey, market: u8, hash: Hash)
    requires Lifecycle.Indexed(s, signer)
    ensures var tx := Tx(now, signer, OfListing(SubmitListing(agent, market, hash)));
            && (Succeeds(s, tx) <==>
                  && s.now <= now && signer in s.builders && s.builders[signer].tier >= 1
                  && s.builders[signer].unbondRequestedAt <= 0 && s.builders[signer].agentCount < 65_535)
            && (Succeeds(s, tx) ==>
                  var b := s.builders[signer];
                  var l := AgentListing(agent, Vetting, market, hash, FeeConfig(0, 0, 0, 0, 0, true), 0, 0, now, 0);
                  Process(s, tx) == s.(now := now,
                    builders := s.builders[signer := b.(agentCount := b.agentCount + 1)],
                    listings := s.listings[ListingId(signer, b.agentCount) := l]))
  {
  }

  /** The builder of the listing, or the authority. */
  predicate MayManage(s: State, now: Timestamp, signer: Pubkey, builder: Pubkey, id: ListingId) {
    && s.now <= now && builder in s.builders && id in s.listings && id.builder == builder
    && (signer == builder || signer == s.admin.config.authority)
  }

  lemma PauseExactly(s: State, now: Timestamp, signer: Pubkey, builder: Pubkey, id: ListingId)
    ensures var tx := Tx(now, signer, OfListing(PauseListing(builder, id)));
            && (Succeeds(s, tx) <==> MayManage(s, now, signer, builder, id) && s.listings[id].status == Live)
            && (Succeeds(s, tx) ==> OnlyListing(s, Process(s, tx), now, id, s.listings[id].(status := Paused)))
  {
  }

  lemma ResumeExactly(s: State, now: Timestamp, signer: Pubkey, builder: Pubkey, id: ListingId)
    ensures var tx := Tx(now, signer, OfListing(ResumeListing(builder, id)));
            && (Succeeds(s, tx) <==> MayManage(s, now, signer, builder, id) && s.listings[id].status == Paused)
            && (Succeeds(s, tx) ==> OnlyListing(s, Process(s, tx), now, id, s.listings[id].(status := Live)))
  {
  }

  lemma DelistExactly(s: State, now: Timestamp, signer: Pubkey, builder: Pubkey, id: ListingId)
    ensures var tx := Tx(now, signer, OfListing(Delist(builder, id)));
            && (Succeeds(s, tx) <==>
                  && MayManage(s, now, signer, builder, id) && s.listings[id].status != Delisted
                  && s.listings[id].aumCurrent == 0)
            && (Succeeds(s, tx) ==> OnlyListing(s, Process(s, tx), now, id, s.listings[id].(status := Delisted)))
  {
  }

  /** The guardian, and nobody else, may pause any live listing this way. */
  lemma GuardianPauseExactly(s: State, now: Timestamp, signer: Pubkey, id: ListingId)
    ensures var tx := Tx(now, signer, OfListing(GuardianPauseListing(id)));
            && (Succeeds(s, tx) <==>
                  && s.now <= now && s.admin.governance.Some? && signer == s.admin.governance.value.guardian
                  && id in s.listings && s.listings[id].status == Live)
            && (Succeeds(s, tx) ==> OnlyListing(s, Process(s, tx), now, id, s.listings[id].(status := Paused)))
  {
  }

  /** Whoever paused a listing, its builder or the authority can resume it at any later time, as it was. */
  lemma ResumeUndoesPause(s: State, pause: Tx, id: ListingId, signer: Pubkey, later: Timestamp)
    requires Lifecycle.Indexed(s, id.builder) && Succeeds(s, pause) && pause.now <= later
    requires (pause.instr.OfListing? && pause.instr.listing == GuardianPauseListing(id))
             || (pause.instr.OfListing? && pause.instr.listing == PauseListing(id.builder, id))
    ensures var resume := Tx(later, signer, OfListing(ResumeListing(id.builder, id)));
            && (Succeeds(Process(s, pause), resume) <==>
                  signer == id.builder || signer == s.admin.config.authority)
            && (Succeeds(Process(s, pause), resume) ==> Process(Process(s, pause), resume) == s.(now := later))
  {
    hide Machine.Process, Machine.Succeeds;
    GuardianPauseExactly(s, pause.now, pause.signer, id);
    PauseExactly(s, pause.now, pause.signer, id.builder, id);
    ResumeExactly(Process(s, pause), later, signer, id.builder, id);
    var l := s.listings[id];
    assert s.listings[id := l.(status := Paused)][id := l] == s.listings;
  }

  /** The key of a listing that is not delisted is its builder's to replace. */
  lemma RotateExactly(s: State, now: Timestamp, signer: Pubkey, id: ListingId, agent: Pubkey)
    ensures var tx := Tx(now, signer, OfListing(RotateAgentAuthority(id, agent)));
            && (Succeeds(s, tx) <==>
                  && s.now <= now && signer in s.builders && id in s.listings && id.builder == signer
                  && s.listings[id].status != Delisted)
            && (Succeeds(s, tx) ==> OnlyListing(s, Process(s, tx), now, id, s.listings[id].(agentAuthority := agent)))
  {
  }

  // ---- who put the trading key there ----

  /** In state `s`, this instruction of its builder puts `key` in charge of `id`: by submission, or by rotation. */
  predicate Installs(s: State, signer: Pubkey, i: Instr, id: ListingId, key: Pubkey) {
    && i.OfListing? && signer == id.builder
    && match i.listing
       case SubmitListing(agent, _, _) =>
         agent == key && signer in s.builders && s.builders[signer].agentCount == id.index
       case RotateAgentAuthority(x, agent) => x == id && agent == key
       case _ => false
  }

  predicate Rotates(i: Instr, id: ListingId) {
    i.OfListing? && i.listing.RotateAgentAuthority? && i.listing.id == id
  }

  lemma KeyStep(s: State, tx: Tx, id: ListingId)
    requires id in Process(s, tx).listings
    ensures var key := Process(s, tx).listings[id].agentAuthority;
            || (Succeeds(s, tx) && Installs(s, tx.signer, tx.instr, id, key))
            || (id in s.listings && s.listings[id].agentAuthority == key && !(Succeeds(s, tx) && Rotates(tx.instr, id)))
  {
    hide BondSpec.ApplyBond;
    if Succeeds(s, tx) && tx.instr.OfAum? {
      AumKeepsKey(At(s, tx), tx.signer, tx.instr.aum, id);
    }
  }

  lemma AumKeepsKey(s: State, signer: Pubkey, i: AumInstr, id: ListingId)
    requires AumSpec.ApplyAum(s, signer, i).Ok? && id in s.listings
    ensures AumSpec.ApplyAum(s, signer, i).value.listings[id].agentAuthority == s.listings[id].agentAuthority
  {
  }

  /**
    * The key that trades for a listing is the one its builder installed last: some transaction of the builder put it
    * there, and no rotation has taken effect since. So a rotation takes the old key out of every later state until the
    * builder itself brings it back.
    */
  lemma {:induction false} KeyIsLastInstalled(s0: State, txs: seq<Tx>, n: nat, id: ListingId) returns (t: nat)
    requires IsGenesis(s0) && n <= |txs| && id in StateAt(s0, txs, n).listings
    ensures t < n && Did(s0, txs, t)
    ensures Installs(StateAt(s0, txs, t), txs[t].signer, txs[t].instr, id,
                     StateAt(s0, txs, n).listings[id].agentAuthority)
    ensures forall j | t < j < n :: !(Did(s0, txs, j) && Rotates(txs[j].instr, id))
  {
    hide Machine.Process, Machine.Succeeds, Installs, Rotates;
    assert n > 0;
    var s, tx := StateAt(s0, txs, n - 1), txs[n - 1];
    KeyStep(s, tx, id);
    if Did(s0, txs, n - 1) &&
       Installs(s, tx.signer, tx.instr, id, StateAt(s0, txs, n).listings[id].agentAuthority) {
      t := n - 1;
    } else {
      t := KeyIsLastInstalled(s0, txs, n - 1, id);
    }
  }

  // ---- capital ----

  /** The vault authority, once set, reporting on a listing of the builder. */
  predicate MayReport(s: State, now: Timestamp, signer: Pubkey, builder: Pubkey, id: ListingId) {
    && s.now <= now && builder in s.builders && id in s.listings && id.builder == builder
    && signer == s.admin.config.vaultAuthority != 0
  }

  /** From `s` to `s'` only the clock, the builder's total and the listing's two counters changed, to these values. */
  predicate OnlyCapital(s: State, s': State, now: Timestamp, id: ListingId, total: u64, aum: u64, vaults: u32) {
    && id.builder in s.builders && id in s.listings
    && s' == s.(now := now, builders := s.builders[id.builder := s.builders[id.builder].(totalAum := total)],
                listings := s.listings[id := s.listings[id].(aumCurrent := aum, vaultCount := vaults)])
  }

  /**
    * Capital can always leave: whatever the status of the listing and of the bond, any positive amount. Total and
    * listing fall by the amount or to zero, each for itself; the vault count by one exactly if a vault closes and
    * there is one.
    */
  lemma ReportWithdrawalExactly(s: State, now: Timestamp, signer: Pubkey, builder: Pubkey, id: ListingId, amount: u64,
                                closed: bool)
    ensures var tx := Tx(now, signer, OfAum(RecordWithdrawal(builder, id, amount, closed)));
            && (Succeeds(s, tx) <==> MayReport(s, now, signer, builder, id) && amount > 0)
            && (Succeeds(s, tx) ==>
                  var total, l := s.builders[builder].totalAum, s.listings[id];
                  OnlyCapital(s, Process(s, tx), now, id,
                              if amount <= total then total - amount else 0,
                              if amount <= l.aumCurrent then l.aumCurrent - amount else 0,
                              if closed && l.vaultCount > 0 then l.vaultCount - 1 else l.vaultCount))
  {
  }

  /** Capital enters a live listing of a builder that is not unbonding, up to the ceiling of its tier. */
  lemma ReportDepositExactly(s: State, now: Timestamp, signer: Pubkey, builder: Pubkey, id: ListingId, amount: u64,
                             isNew: bool)
    ensures var tx := Tx(now, signer, OfAum(RecordDeposit(builder, id, amount, isNew)));
            && (Succeeds(s, tx) <==>
                  && MayReport(s, now, signer, builder, id) && amount > 0 && s.listings[id].status == Live
                  && var b, l := s.builders[builder], s.listings[id];
                  && b.unbondRequestedAt <= 0 && 1 <= b.tier <= 3
                  && b.totalAum + amount <= s.admin.config.tierCeilings[b.tier - 1]
                  && l.aumCurrent + amount < 0x1_0000_0000_0000_0000
                  && (isNew ==> l.vaultCount < 0xFFFF_FFFF))
            && (Succeeds(s, tx) ==>
                  var b, l := s.builders[builder], s.listings[id];
                  OnlyCapital(s, Process(s, tx), now, id, b.totalAum + amount, l.aumCurrent + amount,
                              if isNew then l.vaultCount + 1 else l.vaultCount))
  {
  }

  /** Returning a deposit, at any later time, leaves only the clock changed. */
  lemma WithdrawalUndoesDeposit(s: State, now: Timestamp, later: Timestamp, signer: Pubkey, builder: Pubkey,
                                id: ListingId, amount: u64, vault: bool)
    requires now <= later && Succeeds(s, Tx(now, signer, OfAum(RecordDeposit(builder, id, amount, vault))))
    ensures var deposited := Process(s, Tx(now, signer, OfAum(RecordDeposit(builder, id, amount, vault))));
            var back := Tx(later, signer, OfAum(RecordWithdrawal(builder, id, amount, vault)));
            Succeeds(deposited, back) && Process(deposited, back) == s.(now := later)
  {
    hide Machine.Process, Machine.Succeeds;
    ReportDepositExactly(s, now, signer, builder, id, amount, vault);
    var deposited := Process(s, Tx(now, signer, OfAum(RecordDeposit(builder, id, amount, vault))));
    ReportWithdrawalExactly(deposited, later, signer, builder, id, amount, vault);
    var restored := Process(deposited, Tx(later, signer, OfAum(RecordWithdrawal(builder, id, amount, vault))));
    assert restored.builders == s.builders;
    assert restored.listings == s.listings;
  }

  /** Two withdrawals from one listing are one of their sum, overdrafts included. */
  lemma WithdrawalsAddUp(s: State, now: Timestamp, later: Timestamp, signer: Pubkey, builder: Pubkey, id: ListingId,
                         x: u64, y: u64, closed: bool)
    requires s.now <= now <= later && x > 0 && y > 0 && x + y <= U64_MAX
    ensures var first := Tx(now, signer, OfAum(RecordWithdrawal(builder, id, x, false)));
            var second := Tx(later, signer, OfAum(RecordWithdrawal(builder, id, y, closed)));
            var both := Tx(later, signer, OfAum(RecordWithdrawal(builder, id, x + y, closed)));
            && (Succeeds(s, first) <==> Succeeds(s, both))
            && Process(Process(s, first), second) == Process(s, both)
  {
    hide Machine.Process, Machine.Succeeds;
    var first := Tx(now, signer, OfAum(RecordWithdrawal(builder, id, x, false)));
    var second := Tx(later, signer, OfAum(RecordWithdrawal(builder, id, y, closed)));
    var both := Tx(later, signer, OfAum(RecordWithdrawal(builder, id, x + y, closed)));
    ReportWithdrawalExactly(s, now, signer, builder, id, x, false);
    ReportWithdrawalExactly(Process(s, first), later, signer, builder, id, y, closed);
    ReportWithdrawalExactly(s, later, signer, builder, id, x + y, closed);
    if Succeeds(s, first) {
      assert Process(Process(s, first), second).builders == Process(s, both).builders;
      assert Process(Process(s, first), second).listings == Process(s, both).listings;
    } else {
      FailureOnlyMovesClock(s, first);
      FailureOnlyMovesClock(s, both);
      FailureOnlyMovesClock(Process(s, first), second);
    }
  }

  // ---- tokens outside the program ----

  lemma OpenAccountExactly(s: State, now: Timestamp, signer: Pubkey, id: Pubkey, mint: Pubkey, owner: TokenOwner)
    ensures var tx := Tx(now, signer, OfToken(OpenTokenAccount(id, mint, owner)));
            && (Succeeds(s, tx) <==> s.now <= now && Account(id) !in s.tokens)
            && (Succeeds(s, tx) ==>
                  Process(s, tx) == s.(now := now, tokens := s.tokens[Account(id) := TokenAccount(mint, owner, 0)]))
  {
  }

  /** Wallets send what they hold; program-owned accounts, bond vaults among them, are out of anyone's reach. */
  lemma SendExactly(s: State, now: Timestamp, signer: Pubkey, from: TokenAddress, to: TokenAddress, amount: u64,
                    a: TokenAddress)
    ensures var tx := Tx(now, signer, OfToken(TransferTokens(from, to, amount)));
            && (Succeeds(s, tx) <==>
                  && s.now <= now && from in s.tokens && to in s.tokens && s.tokens[from].owner == Wallet(signer)
                  && s.tokens[from].mint == s.tokens[to].mint && amount <= s.tokens[from].amount
                  && (from == to || s.tokens[to].amount + amount < 0x1_0000_0000_0000_0000))
            && (Succeeds(s, tx) ==>
                  var s' := Process(s, tx);
                  && s' == s.(now := now, tokens := s'.tokens) && Escrow.SameAccount(s.tokens, s'.tokens, a)
                  && Escrow.Balance(s'.tokens, a) ==
                     Escrow.Balance(s.tokens, a) - Escrow.When(a == from, amount) + Escrow.When(a == to, amount))
  {
  }
}
