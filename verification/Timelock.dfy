/** The timelock over whole runs: what is announced, how long it waits, and who may stop it. */
module Timelock {
  import opened Types
  import opened Tiers
  import opened AdminSpec
  import opened Machine

  // ---- one step ----

  /** Only a successful administrative instruction touches the administrative accounts. */
  lemma AdminStep(s: State, tx: Tx)
    ensures Succeeds(s, tx) && tx.instr.OfAdmin? ==>
              ApplyAdmin(s.admin, tx.now, tx.signer, tx.instr.admin) == Ok(Process(s, tx).admin)
    ensures !(Succeeds(s, tx) && tx.instr.OfAdmin?) ==> Process(s, tx).admin == s.admin
  {
  }

  ghost predicate AdminValid(a: Admin) {
    && Increasing(a.config.tierBonds) && Increasing(a.config.tierCeilings) && a.config.unbondPeriod > 0
    && (a.governance.None? ==> a.pending == map[])
    && (a.governance.Some? ==> MinTimelockDelay(a.localnet) <= a.governance.value.timelockDelay <= MAX_TIMELOCK_DELAY)
    && (forall slot | slot in a.pending && a.pending[slot].kind == UpdateTiers ::
          Increasing(a.pending[slot].tierBonds) && Increasing(a.pending[slot].tierCeilings))
  }

  lemma AdminStepValid(a: Admin, now: Timestamp, signer: Pubkey, i: AdminInstr)
    requires AdminValid(a) && ApplyAdmin(a, now, signer, i).Ok?
    ensures var a' := ApplyAdmin(a, now, signer, i).value;
            && AdminValid(a') && a'.localnet == a.localnet && a'.config.agentMint == a.config.agentMint
            && (a.governance.Some? ==> a'.governance.Some? &&
                                       a.governance.value.timelockDelay <= a'.governance.value.timelockDelay)
  {
  }

  lemma ValidStep(s: State, tx: Tx)
    requires AdminValid(s.admin)
    ensures var a := Process(s, tx).admin;
            AdminValid(a) && a.localnet == s.admin.localnet && a.config.agentMint == s.admin.config.agentMint
    ensures s.admin.governance.Some? ==>
              var g := Process(s, tx).admin.governance;
              g.Some? && s.admin.governance.value.timelockDelay <= g.value.timelockDelay
  {
    hide Machine.Apply, ApplyAdmin;
    AdminStep(s, tx);
    if Succeeds(s, tx) && tx.instr.OfAdmin? {
      AdminStepValid(s.admin, tx.now, tx.signer, tx.instr.admin);
    }
  }

  lemma {:induction false} AdminAlwaysValid(s0: State, txs: seq<Tx>, n: nat)
    requires IsGenesis(s0) && n <= |txs|
    ensures AdminValid(StateAt(s0, txs, n).admin)
    ensures StateAt(s0, txs, n).admin.localnet == s0.admin.localnet
    ensures StateAt(s0, txs, n).admin.config.agentMint == s0.admin.config.agentMint
  {
    hide Machine.Process;
    if n > 0 {
      AdminAlwaysValid(s0, txs, n - 1);
      ValidStep(StateAt(s0, txs, n - 1), txs[n - 1]);
    }
  }

  /** The delay in force never shrinks, and governance never goes away. */
  lemma {:induction false} DelayNeverShrinks(s0: State, txs: seq<Tx>, i: nat, j: nat)
    requires IsGenesis(s0) && i <= j <= |txs| && StateAt(s0, txs, i).admin.governance.Some?
    ensures StateAt(s0, txs, j).admin.governance.Some?
    ensures StateAt(s0, txs, i).admin.governance.value.timelockDelay <=
            StateAt(s0, txs, j).admin.governance.value.timelockDelay
  {
    hide Machine.Process;
    if i < j {
      DelayNeverShrinks(s0, txs, i, j - 1);
      AdminAlwaysValid(s0, txs, j - 1);
      ValidStep(StateAt(s0, txs, j - 1), txs[j - 1]);
    }
  }

  // ---- announcements ----

  /** Instruction `i` announces exactly the change `p`, in slot `slot`. */
  predicate Proposes(i: Instr, slot: u8, p: PendingChange) {
    i.OfAdmin? &&
    match i.admin
    case QueueTransferAuthority(k, key, payer) =>
      slot == Seed(k) && p.kind == TransferAuthority && p.newKey == key && p.payer == payer
    case QueueSetVaultAuthority(k, key, payer) =>
      slot == Seed(k) && p.kind == SetVaultAuthority && p.newKey == key && p.payer == payer
    case QueueUpdateTiers(k, bonds, ceilings, payer) =>
      slot == Seed(k) && p.kind == UpdateTiers && p.tierBonds == bonds && p.tierCeilings == ceilings && p.payer == payer
    case _ => false
  }

  predicate QueuesInto(i: Instr, slot: u8) {
    i.OfAdmin? &&
    match i.admin
    case QueueTransferAuthority(k, _, _) => slot == Seed(k)
    case QueueSetVaultAuthority(k, _, _) => slot == Seed(k)
    case QueueUpdateTiers(k, _, _, _) => slot == Seed(k)
    case _ => false
  }

  predicate Executes(i: Instr, slot: u8) {
    i.OfAdmin? && i.admin.ExecuteChange? && Seed(i.admin.kind) == slot
  }

  /** Execution or veto of whatever is in `slot`. */
  predicate Resolves(i: Instr, slot: u8) {
    Executes(i, slot) || (i.OfAdmin? && i.admin.VetoChange? && Seed(i.admin.kind) == slot)
  }

  /** How one successful instruction moves one slot: queueing fills a free slot, resolving empties a taken one. */
  lemma SlotStep(a: Admin, now: Timestamp, signer: Pubkey, i: AdminInstr, slot: u8)
    requires ApplyAdmin(a, now, signer, i).Ok?
    ensures var a' := ApplyAdmin(a, now, signer, i).value;
            if QueuesInto(OfAdmin(i), slot) then
              && slot !in a.pending && slot in a'.pending && Proposes(OfAdmin(i), slot, a'.pending[slot])
              && signer == a.config.authority && a.governance.Some?
              && a'.pending[slot].queuedAt == now && a'.pending[slot].eta == now + a.governance.value.timelockDelay
            else if Resolves(OfAdmin(i), slot) then
              slot in a.pending && slot !in a'.pending && Seed(a.pending[slot].kind) == slot
            else
              (slot in a.pending <==> slot in a'.pending) && (slot in a.pending ==> a.pending[slot] == a'.pending[slot])
  {
  }

  /** Every pending change was announced by one queue transaction and has been left alone since. */
  lemma {:induction false} Announcement(s0: State, txs: seq<Tx>, n: nat, slot: u8) returns (q: nat)
    requires IsGenesis(s0) && n <= |txs| && slot in StateAt(s0, txs, n).admin.pending
    ensures q < n && Did(s0, txs, q)
    ensures var a := StateAt(s0, txs, q).admin; var p := StateAt(s0, txs, n).admin.pending[slot];
            && Proposes(txs[q].instr, slot, p) && txs[q].signer == a.config.authority && a.governance.Some?
            && p.queuedAt == txs[q].now && p.eta == txs[q].now + a.governance.value.timelockDelay
    ensures forall j | q < j < n :: !(Did(s0, txs, j) && Resolves(txs[j].instr, slot))
  {
    hide Machine.Apply, ApplyAdmin;
    assert n > 0;
    var s, tx := StateAt(s0, txs, n - 1), txs[n - 1];
    AdminStep(s, tx);
    if Did(s0, txs, n - 1) && tx.instr.OfAdmin? {
      SlotStep(s.admin, tx.now, tx.signer, tx.instr.admin, slot);
    }
    if Did(s0, txs, n - 1) && QueuesInto(tx.instr, slot) {
      q := n - 1;
    } else {
      q := Announcement(s0, txs, n - 1, slot);
    }
  }

  // ---- the timelock theorem ----

  /** What only a timelocked change may alter. */
  predicate SameProtected(c: Config, c': Config) {
    c.authority == c'.authority && c.vaultAuthority == c'.vaultAuthority && c.tierBonds == c'.tierBonds &&
    c.tierCeilings == c'.tierCeilings
  }

  /**
    * Executing `kind` turned `before` into `after`: just what `i` announced in the slot of its own kind, and
    * nothing else.
    */
  predicate Enacts(i: AdminInstr, kind: ActionKind, before: Config, after: Config) {
    match i
    case QueueTransferAuthority(k, key, _) => k == kind == TransferAuthority && after == before.(authority := key)
    case QueueSetVaultAuthority(k, key, _) => k == kind == SetVaultAuthority && after == before.(vaultAuthority := key)
    case QueueUpdateTiers(k, bonds, ceilings, _) =>
      k == kind == UpdateTiers && after == before.(tierBonds := bonds, tierCeilings := ceilings)
    case _ => false
  }

  lemma ProtectedStep(a: Admin, now: Timestamp, signer: Pubkey, i: AdminInstr)
    requires ApplyAdmin(a, now, signer, i).Ok?
    ensures var a' := ApplyAdmin(a, now, signer, i).value;
            i.ExecuteChange? || SameProtected(a.config, a'.config)
    ensures i.ExecuteChange? ==>
              && Seed(i.kind) in a.pending && a.pending[Seed(i.kind)].kind == i.kind && signer == a.config.authority
              && now >= a.pending[Seed(i.kind)].eta
  {
  }

  /**
    * Every change to the authority, the vault authority or the tier table is the execution of a change of that
    * kind and payload that the authority of the day announced, at least the delay then in force earlier, and that
    * nobody resolved in between. That delay is no less than any delay in force before, nor than the build's
    * floor.
    */
  lemma {:induction false} ProtectedChangesWereAnnounced(s0: State, txs: seq<Tx>, i: nat) returns (q: nat)
    requires IsGenesis(s0) && i < |txs|
    requires !SameProtected(StateAt(s0, txs, i).admin.config, StateAt(s0, txs, i + 1).admin.config)
    ensures q < i && Did(s0, txs, q) && Did(s0, txs, i) && txs[q].instr.OfAdmin? && txs[i].instr.OfAdmin?
    ensures txs[i].instr.admin.ExecuteChange?
    ensures Enacts(txs[q].instr.admin, txs[i].instr.admin.kind, StateAt(s0, txs, i).admin.config,
                   StateAt(s0, txs, i + 1).admin.config)
    ensures txs[q].signer == StateAt(s0, txs, q).admin.config.authority
    ensures txs[i].signer == StateAt(s0, txs, i).admin.config.authority
    ensures var g := StateAt(s0, txs, q).admin.governance;
            g.Some? && txs[i].now - txs[q].now >= g.value.timelockDelay >= MinTimelockDelay(s0.admin.localnet)
    ensures forall p: nat | p <= q && StateAt(s0, txs, p).admin.governance.Some? ::
              StateAt(s0, txs, p).admin.governance.value.timelockDelay <=
              StateAt(s0, txs, q).admin.governance.value.timelockDelay
    ensures forall j | q < j < i :: !(Did(s0, txs, j) && Resolves(txs[j].instr, Seed(txs[i].instr.admin.kind)))
  {
    var s, tx := StateAt(s0, txs, i), txs[i];
    AdminStep(s, tx);
    ProtectedStep(s.admin, tx.now, tx.signer, tx.instr.admin);
    q := Announcement(s0, txs, i, Seed(tx.instr.admin.kind));
    AdminAlwaysValid(s0, txs, q);
    forall p: nat | p <= q && StateAt(s0, txs, p).admin.governance.Some?
      ensures StateAt(s0, txs, p).admin.governance.value.timelockDelay <=
              StateAt(s0, txs, q).admin.governance.value.timelockDelay
    {
      DelayNeverShrinks(s0, txs, p, q);
    }
  }

  /**
    * Every execution, whatever it changes, puts into force exactly what one earlier queue transaction announced in the
    * slot of its own kind, and frees that slot.
    */
  lemma {:induction false} EveryExecutionEnacts(s0: State, txs: seq<Tx>, i: nat, kind: ActionKind) returns (q: nat)
    requires IsGenesis(s0) && i < |txs| && Did(s0, txs, i) && Executes(txs[i].instr, Seed(kind))
    ensures q < i && Did(s0, txs, q) && txs[q].instr.OfAdmin? && QueuesInto(txs[q].instr, Seed(kind))
    ensures Enacts(txs[q].instr.admin, kind, StateAt(s0, txs, i).admin.config, StateAt(s0, txs, i + 1).admin.config)
    ensures Seed(kind) !in StateAt(s0, txs, i + 1).admin.pending
    ensures forall j | q < j < i :: !(Did(s0, txs, j) && Resolves(txs[j].instr, Seed(kind)))
  {
    var s, tx := StateAt(s0, txs, i), txs[i];
    AdminStep(s, tx);
    ProtectedStep(s.admin, tx.now, tx.signer, tx.instr.admin);
    q := Announcement(s0, txs, i, Seed(kind));
  }

  // ---- the rate limit ----

  /** Changes of kind `kind` executed among the first `n` transactions. */
  function Executed(s0: State, txs: seq<Tx>, n: nat, kind: ActionKind): nat
    requires n <= |txs|
  {
    if n == 0 then 0
    else Executed(s0, txs, n - 1, kind) + if Did(s0, txs, n - 1) && Executes(txs[n - 1].instr, Seed(kind)) then 1 else 0
  }

  /** Before governance exists nothing is pending and nothing executes. */
  lemma {:induction false} NothingBeforeGovernance(s0: State, txs: seq<Tx>, n: nat, kind: ActionKind)
    requires IsGenesis(s0) && n <= |txs| && StateAt(s0, txs, n).admin.governance.None?
    ensures Executed(s0, txs, n, kind) == 0
  {
    hide Machine.Process;
    if n > 0 {
      if StateAt(s0, txs, n - 1).admin.governance.Some? {
        DelayNeverShrinks(s0, txs, n - 1, n);
      }
      NothingBeforeGovernance(s0, txs, n - 1, kind);
      AdminAlwaysValid(s0, txs, n - 1);
    }
  }

  /** After `k` executions the clock has advanced by `k` delays, and what is pending waits for one more. */
  ghost predicate Paced(s: State, slot: u8, start: int, k: nat, delay: int) {
    && s.now >= start + k * delay
    && (slot in s.admin.pending ==> s.admin.pending[slot].eta >= start + (k + 1) * delay)
  }

  lemma PacedStep(s: State, tx: Tx, slot: u8, start: int, k: nat, delay: int)
    requires Paced(s, slot, start, k, delay) && s.admin.governance.Some?
    requires 0 <= delay <= s.admin.governance.value.timelockDelay
    ensures Paced(Process(s, tx), slot, start, k + (if Succeeds(s, tx) && Executes(tx.instr, slot) then 1 else 0),
                  delay)
  {
    AdminStep(s, tx);
    assert (k + 1) * delay == k * delay + delay && (k + 2) * delay == k * delay + 2 * delay;
    if Succeeds(s, tx) && tx.instr.OfAdmin? {
      SlotStep(s.admin, tx.now, tx.signer, tx.instr.admin, slot);
      ProtectedStep(s.admin, tx.now, tx.signer, tx.instr.admin);
    }
  }

  /** The induction behind the rate limit. */
  lemma {:induction false} AlwaysPaced(s0: State, txs: seq<Tx>, g: nat, n: nat, kind: ActionKind)
    requires IsGenesis(s0) && g < n <= |txs|
    requires StateAt(s0, txs, g).admin.governance.None? && StateAt(s0, txs, g + 1).admin.governance.Some?
    ensures Paced(StateAt(s0, txs, n), Seed(kind), txs[g].now, Executed(s0, txs, n, kind),
                  StateAt(s0, txs, g + 1).admin.governance.value.timelockDelay)
    decreases n
  {
    hide Machine.Process, Machine.Succeeds, Paced;
    var s, tx := StateAt(s0, txs, n - 1), txs[n - 1];
    var delay := StateAt(s0, txs, g + 1).admin.governance.value.timelockDelay;
    if n == g + 1 {
      NothingBeforeGovernance(s0, txs, g, kind);
      AdminAlwaysValid(s0, txs, g);
      AdminStep(s, tx);
      FirstGovernance(s, tx);
    } else {
      AlwaysPaced(s0, txs, g, n - 1, kind);
      DelayNeverShrinks(s0, txs, g + 1, n - 1);
      AdminAlwaysValid(s0, txs, g + 1);
      PacedStep(s, tx, Seed(kind), txs[g].now, Executed(s0, txs, n - 1, kind), delay);
    }
  }

  /** Only `initialize_governance` creates the governance account, and it executes nothing. */
  lemma FirstGovernance(s: State, tx: Tx)
    requires AdminValid(s.admin) && s.admin.governance.None? && Process(s, tx).admin.governance.Some?
    ensures Succeeds(s, tx) && tx.instr.OfAdmin? && tx.instr.admin.InitializeGovernance?
    ensures Process(s, tx).now == tx.now && Process(s, tx).admin.pending == map[]
    ensures Process(s, tx).admin.governance.value.timelockDelay ==
            tx.instr.admin.timelockDelay.GetOr(DEFAULT_TIMELOCK_DELAY)
    ensures forall slot, delay :: Paced(Process(s, tx), slot, tx.now, 0, delay)
  {
    AdminStep(s, tx);
  }

  /**
    * However vetoes, new proposals and longer delays are interleaved, the k-th executed change of one kind lands
    * no earlier than k times the initial delay after governance was set up (by transaction `g`).
    */
  lemma {:induction false} GovernanceRateLimit(s0: State, txs: seq<Tx>, g: nat, i: nat, kind: ActionKind)
    requires IsGenesis(s0) && g < i < |txs|
    requires Did(s0, txs, g) && txs[g].instr.OfAdmin? && txs[g].instr.admin.InitializeGovernance?
    requires Did(s0, txs, i) && Executes(txs[i].instr, Seed(kind))
    ensures txs[i].now >= txs[g].now + Executed(s0, txs, i + 1, kind) *
                                       txs[g].instr.admin.timelockDelay.GetOr(DEFAULT_TIMELOCK_DELAY)
  {
    hide Machine.Apply;
    AdminStep(StateAt(s0, txs, g), txs[g]);
    AdminAlwaysValid(s0, txs, g);
    FirstGovernance(StateAt(s0, txs, g), txs[g]);
    AlwaysPaced(s0, txs, g, i + 1, kind);
  }

  // ---- queue-time validation ----

  /**
    * Whatever sits in the slot of its own kind executes for the current authority from its eta on, provided the
    * rent goes back to the recorded payer: validation at execution never fails, and nothing else can go wrong
    * either.
    */
  lemma {:induction false} ExecutionAlwaysPossible(s0: State, txs: seq<Tx>, n: nat, now: Timestamp, signer: Pubkey,
                                                   kind: ActionKind, refund: Pubkey)
    requires IsGenesis(s0) && n <= |txs|
    ensures var s := StateAt(s0, txs, n); var a := s.admin;
            Succeeds(s, Tx(now, signer, OfAdmin(ExecuteChange(kind, refund)))) <==>
            && s.now <= now && Seed(kind) in a.pending
            && a.pending[Seed(kind)].kind == kind && a.pending[Seed(kind)].payer == refund
            && signer == a.config.authority && now >= a.pending[Seed(kind)].eta
  {
    AdminAlwaysValid(s0, txs, n);
  }

  // ---- the one immediate setting ----

  predicate SetsPeriod(i: Instr) {
    i.OfAdmin? && i.admin.SetUnbondPeriod?
  }

  lemma PeriodStep(s: State, tx: Tx)
    ensures var period := Process(s, tx).admin.config.unbondPeriod;
            if Succeeds(s, tx) && SetsPeriod(tx.instr) then 0 < period <= MAX_UNBOND_PERIOD
            else period == s.admin.config.unbondPeriod
  {
    hide Machine.Apply;
    AdminStep(s, tx);
  }

  /**
    * The unbonding period is meant to be at most 90 days so that no bond is stranded. Set-up does not check that: the
    * bound holds at a point of a run if and only if it held at set-up or the period has been set since.
    */
  lemma {:induction false} PeriodBounded(s0: State, txs: seq<Tx>, n: nat)
    requires IsGenesis(s0) && n <= |txs|
    ensures StateAt(s0, txs, n).admin.config.unbondPeriod <= MAX_UNBOND_PERIOD <==>
            s0.admin.config.unbondPeriod <= MAX_UNBOND_PERIOD ||
            exists t: nat | t < n :: Did(s0, txs, t) && SetsPeriod(txs[t].instr)
    ensures (forall t: nat | t < n :: !(Did(s0, txs, t) && SetsPeriod(txs[t].instr))) ==>
              StateAt(s0, txs, n).admin.config.unbondPeriod == s0.admin.config.unbondPeriod
  {
    hide Machine.Process, Machine.Succeeds;
    if n > 0 {
      PeriodBounded(s0, txs, n - 1);
      PeriodStep(StateAt(s0, txs, n - 1), txs[n - 1]);
    }
  }

  // ---- slots ----

  /** The slot a queue instruction names and the kind of change it stores. */
  predicate NamesItself(i: Instr) {
    i.OfAdmin? ==>
      match i.admin
      case QueueTransferAuthority(k, _, _) => k == TransferAuthority
      case QueueSetVaultAuthority(k, _, _) => k == SetVaultAuthority
      case QueueUpdateTiers(k, _, _, _) => k == UpdateTiers
      case _ => true
  }

  /** When every queue call names its own kind, every slot holds its own kind. */
  lemma {:induction false} SlotsHoldTheirKind(s0: State, txs: seq<Tx>, n: nat, slot: u8)
    requires IsGenesis(s0) && n <= |txs| && (forall i | 0 <= i < n :: NamesItself(txs[i].instr))
    ensures slot in StateAt(s0, txs, n).admin.pending ==> Seed(StateAt(s0, txs, n).admin.pending[slot].kind) == slot
  {
    if slot in StateAt(s0, txs, n).admin.pending {
      var q := Announcement(s0, txs, n, slot);
      assert NamesItself(txs[q].instr);
    }
  }

  /**
    * A slot that holds a change of another kind stays as it is for ever: no execution or veto of it takes effect,
    * so the change never reaches the configuration, and no later proposal gets into the slot.
    */
  lemma {:induction false} MisfiledChangeIsStuck(s0: State, txs: seq<Tx>, i: nat, j: nat, slot: u8)
    requires i <= j <= |txs| && slot in StateAt(s0, txs, i).admin.pending
    requires Seed(StateAt(s0, txs, i).admin.pending[slot].kind) != slot
    ensures slot in StateAt(s0, txs, j).admin.pending
    ensures StateAt(s0, txs, j).admin.pending[slot] == StateAt(s0, txs, i).admin.pending[slot]
    ensures forall t | i <= t < j && Did(s0, txs, t) ::
              !Resolves(txs[t].instr, slot) && !QueuesInto(txs[t].instr, slot)
  {
    hide Machine.Apply;
    if i < j {
      MisfiledChangeIsStuck(s0, txs, i, j - 1, slot);
      var s, tx := StateAt(s0, txs, j - 1), txs[j - 1];
      AdminStep(s, tx);
      if Succeeds(s, tx) && tx.instr.OfAdmin? {
        SlotStep(s.admin, tx.now, tx.signer, tx.instr.admin, slot);
      }
    }
  }

  /** Some transaction `key` signs right now vetoes what is pending in `slot`. */
  ghost predicate CanVeto(s: State, key: Pubkey, slot: u8) {
    exists kind, refund :: Seed(kind) == slot && Succeeds(s, Tx(s.now, key, OfAdmin(VetoChange(kind, refund))))
  }

  ghost predicate GuardianCanVeto(s: State, slot: u8) {
    s.admin.governance.Some? && CanVeto(s, s.admin.governance.value.guardian, slot)
  }

  /** The guardian or the authority of the moment. */
  predicate HoldsVeto(a: Admin, key: Pubkey) {
    a.governance.Some? && (key == a.governance.value.guardian || key == a.config.authority)
  }

  /** A key can veto a change exactly when it holds the veto now and the change sits in the slot of its own kind. */
  lemma VetoNow(s: State, key: Pubkey, slot: u8)
    requires AdminValid(s.admin) && slot in s.admin.pending
    ensures CanVeto(s, key, slot) <==> HoldsVeto(s.admin, key) && Seed(s.admin.pending[slot].kind) == slot
  {
    var p := s.admin.pending[slot];
    if HoldsVeto(s.admin, key) && Seed(p.kind) == slot {
      assert Succeeds(s, Tx(s.now, key, OfAdmin(VetoChange(p.kind, p.payer))));
    }
  }

  /**
    * The guardian is meant to be able to veto any pending change. It can veto exactly those that sit in the slot of
    * their own kind, that is, those whose queue call named its own kind.
    */
  lemma {:induction false} VetoReach(s0: State, txs: seq<Tx>, n: nat, slot: u8)
    requires IsGenesis(s0) && n <= |txs| && slot in StateAt(s0, txs, n).admin.pending
    ensures GuardianCanVeto(StateAt(s0, txs, n), slot) <==> Seed(StateAt(s0, txs, n).admin.pending[slot].kind) == slot
  {
    hide Machine.Process, Machine.Succeeds;
    var s := StateAt(s0, txs, n);
    AdminAlwaysValid(s0, txs, n);
    VetoNow(s, s.admin.governance.value.guardian, slot);
  }

  /** One queue call decides it: what it announces can be vetoed if and only if it named its own kind. */
  lemma {:induction false} VetoReachAfterQueue(s0: State, txs: seq<Tx>, q: nat, slot: u8)
    requires IsGenesis(s0) && q < |txs| && Did(s0, txs, q) && QueuesInto(txs[q].instr, slot)
    ensures GuardianCanVeto(StateAt(s0, txs, q + 1), slot) <==> NamesItself(txs[q].instr)
  {
    hide Machine.Apply, ApplyAdmin, GuardianCanVeto;
    var s, tx := StateAt(s0, txs, q), txs[q];
    AdminStep(s, tx);
    SlotStep(s.admin, tx.now, tx.signer, tx.instr.admin, slot);
    VetoReach(s0, txs, q + 1, slot);
  }

  /** The first `n` transactions after `q` leave `slot` unresolved. */
  predicate Unresolved(s0: State, txs: seq<Tx>, q: nat, n: nat, slot: u8)
    requires q < n <= |txs|
    decreases n
  {
    n == q + 1 ||
    (Unresolved(s0, txs, q, n - 1, slot) && !(Did(s0, txs, n - 1) && Resolves(txs[n - 1].instr, slot)))
  }

  lemma {:induction false} PendingStays(s0: State, txs: seq<Tx>, q: nat, n: nat, slot: u8)
    requires q < n <= |txs| && slot in StateAt(s0, txs, q + 1).admin.pending && Unresolved(s0, txs, q, n, slot)
    ensures slot in StateAt(s0, txs, n).admin.pending
    ensures StateAt(s0, txs, n).admin.pending[slot] == StateAt(s0, txs, q + 1).admin.pending[slot]
    decreases n
  {
    hide Machine.Apply, ApplyAdmin;
    if n > q + 1 {
      PendingStays(s0, txs, q, n - 1, slot);
      var s, tx := StateAt(s0, txs, n - 1), txs[n - 1];
      AdminStep(s, tx);
      if Succeeds(s, tx) && tx.instr.OfAdmin? {
        SlotStep(s.admin, tx.now, tx.signer, tx.instr.admin, slot);
      }
    }
  }

  /**
    * Who can still stop a change announced by transaction `q`, as long as it is pending: at any later point `n` a key,
    * such as that of the guardian in office at the announcement, can veto it if and only if the call named its own
    * kind and the key is guardian or authority at `n`. Guardians are replaced at once, so being awake is not enough.
    */
  lemma {:induction false} VetoWhilePending(s0: State, txs: seq<Tx>, q: nat, n: nat, slot: u8, key: Pubkey)
    requires IsGenesis(s0) && q < n <= |txs| && Did(s0, txs, q) && QueuesInto(txs[q].instr, slot)
    requires Unresolved(s0, txs, q, n, slot)
    ensures CanVeto(StateAt(s0, txs, n), key, slot) <==>
            NamesItself(txs[q].instr) && HoldsVeto(StateAt(s0, txs, n).admin, key)
  {
    hide Machine.Apply, ApplyAdmin;
    var s, tx := StateAt(s0, txs, q), txs[q];
    AdminStep(s, tx);
    SlotStep(s.admin, tx.now, tx.signer, tx.instr.admin, slot);
    PendingStays(s0, txs, q, n, slot);
    AdminAlwaysValid(s0, txs, n);
    VetoNow(StateAt(s0, txs, n), key, slot);
  }

  // ---- guardian and authority ----

  /** The guardian is a different key from the authority. */
  predicate Separate(a: Admin) {
    a.governance.Some? ==> a.governance.value.guardian != a.config.authority
  }

  /** This instruction would hand the registry to whoever is guardian now. */
  predicate CrownsGuardian(a: Admin, i: AdminInstr) {
    && i.ExecuteChange? && i.kind == TransferAuthority && a.governance.Some?
    && Seed(TransferAuthority) in a.pending && a.pending[Seed(TransferAuthority)].newKey == a.governance.value.guardian
  }

  /**
    * Set-up and rotation refuse a guardian that is the authority, but a transfer is not compared with the
    * guardian: one step keeps the two apart if and only if it does not execute a transfer to the guardian of the
    * moment.
    */
  lemma SeparationStep(a: Admin, now: Timestamp, signer: Pubkey, i: AdminInstr)
    requires Separate(a) && ApplyAdmin(a, now, signer, i).Ok?
    ensures Separate(ApplyAdmin(a, now, signer, i).value) <==> !CrownsGuardian(a, i)
  {
  }

  /** Guardian and authority stay different keys on every run that never executes a transfer to the guardian. */
  lemma {:induction false} AlwaysSeparate(s0: State, txs: seq<Tx>, n: nat)
    requires IsGenesis(s0) && n <= |txs|
    requires forall t | 0 <= t < n && Did(s0, txs, t) && txs[t].instr.OfAdmin? ::
               !CrownsGuardian(StateAt(s0, txs, t).admin, txs[t].instr.admin)
    ensures Separate(StateAt(s0, txs, n).admin)
  {
    hide Machine.Apply;
    if n > 0 {
      AlwaysSeparate(s0, txs, n - 1);
      var s, tx := StateAt(s0, txs, n - 1), txs[n - 1];
      AdminStep(s, tx);
      if Did(s0, txs, n - 1) && tx.instr.OfAdmin? {
        SeparationStep(s.admin, tx.now, tx.signer, tx.instr.admin);
      }
    }
  }
}
