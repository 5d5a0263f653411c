/** Listings over whole runs: where they live, how their status moves, and what approval freezes. */
module Lifecycle {
  import opened Types
  import BondSpec
  import ListingSpec
  import AumSpec
  import opened Machine

  // ---- indices ----

  /** The listings of `b` are exactly those with an index below its counter. */
  ghost predicate Indexed(s: State, b: Pubkey) {
    forall id: ListingId | id.builder == b ::
      id in s.listings <==> b in s.builders && id.index < s.builders[b].agentCount
  }

  lemma IndexedStep(s: State, tx: Tx, b: Pubkey)
    requires Indexed(s, b)
    ensures Indexed(Process(s, tx), b)
  {
    hide BondSpec.ApplyBond, ListingSpec.ApplyListing, AumSpec.ApplyAum;
    if Succeeds(s, tx) {
      match tx.instr
      case OfBond(i) => BondKeepsCounter(At(s, tx), tx.signer, i, b);
      case OfListing(i) => ListingKeepsIndexed(At(s, tx), tx.signer, i, b);
      case OfAum(i) => AumKeepsCounter(At(s, tx), tx.signer, i, b);
      case _ =>
    }
  }

  lemma BondKeepsCounter(s: State, signer: Pubkey, i: BondInstr, b: Pubkey)
    requires BondSpec.ApplyBond(s, signer, i).Ok?
    ensures var s' := BondSpec.ApplyBond(s, signer, i).value;
            if b in s.builders then b in s'.builders && s'.builders[b].agentCount == s.builders[b].agentCount
            else b in s'.builders ==> s'.builders[b].agentCount == 0
  {
  }

  lemma ListingKeepsIndexed(s: State, signer: Pubkey, i: ListingInstr, b: Pubkey)
    requires Indexed(s, b) && ListingSpec.ApplyListing(s, signer, i).Ok?
    ensures Indexed(ListingSpec.ApplyListing(s, signer, i).value, b)
  {
  }

  lemma AumKeepsCounter(s: State, signer: Pubkey, i: AumInstr, b: Pubkey)
    requires AumSpec.ApplyAum(s, signer, i).Ok?
    ensures b in s.builders ==>
              AumSpec.ApplyAum(s, signer, i).value.builders[b].agentCount == s.builders[b].agentCount
  {
  }

  /** Listings are numbered without gaps, so a new submission never collides with an old one. */
  lemma {:induction false} AlwaysIndexed(s0: State, txs: seq<Tx>, n: nat, b: Pubkey)
    requires IsGenesis(s0) && n <= |txs|
    ensures Indexed(StateAt(s0, txs, n), b)
  {
    hide Machine.Apply;
    if n > 0 {
      AlwaysIndexed(s0, txs, n - 1, b);
      IndexedStep(StateAt(s0, txs, n - 1), txs[n - 1], b);
    }
  }

  /**
    * A submission succeeds exactly for a builder of tier 1 or more, not unbonding, with a counter that can still
    * grow.
    */
  lemma {:induction false} SubmitExactly(s0: State, txs: seq<Tx>, n: nat, signer: Pubkey, agent: Pubkey, market: u8,
                                         hash: Hash)
    requires IsGenesis(s0) && n <= |txs|
    ensures var s := StateAt(s0, txs, n);
            ListingSpec.SubmitListing(s, signer, agent, market, hash).Ok? <==>
            signer in s.builders && s.builders[signer].tier >= 1 && !s.builders[signer].IsUnbonding() &&
            s.builders[signer].agentCount < U16_MAX
  {
    AlwaysIndexed(s0, txs, n, signer);
  }

  // ---- the status machine ----

  predicate ValidFees(f: FeeConfig) {
    && f.listingFeeBps <= 500 && f.performanceFeeBps <= 2_000 && 5_000 <= f.builderSplitBps <= 10_000
    && f.positionCapBps <= 10_000 && f.maxDrawdownBps <= 10_000
  }

  /** What each status promises. */
  predicate WellFormed(l: AgentListing) {
    match l.status
    case Vetting => l.fees == ZERO_FEES && l.aumCurrent == 0 && l.vaultCount == 0
    case Live => ValidFees(l.fees)
    case Paused => ValidFees(l.fees)
    case Delisted => l.aumCurrent == 0
  }

  /**
    * Approval succeeds exactly for the authority, on a listing in vetting, with terms within the guardrails; it
    * stores those terms, or 0 / 10% / 80% with caps of 12% and 15% when none are given, and changes nothing else.
    */
  lemma ApproveExactly(s: State, signer: Pubkey, id: ListingId, terms: Option<FeeConfig>)
    ensures var r := ListingSpec.ApproveListing(s, signer, id, terms);
            && (r.Ok? <==> id in s.listings && signer == s.admin.config.authority && s.listings[id].status == Vetting
                           && (terms.Some? ==> ValidFees(terms.value)))
            && (r.Ok? ==> ValidFees(r.value.listings[id].fees))
            && (r.Ok? ==> var fees := terms.GetOr(FeeConfig(0, 1_000, 8_000, 1_200, 1_500, true));
                          var l := s.listings[id].(status := Live, approvedAt := s.now, fees := fees);
                          r.value == s.(listings := s.listings[id := l]))
  {
  }

  /** The moves a listing's status may make, staying put included. */
  predicate MayBecome(from: ListingStatus, to: ListingStatus) {
    match from
    case Vetting => to != Paused
    case Live => to != Vetting
    case Paused => to != Vetting
    case Delisted => to == Delisted
  }

  /** One listing across one step. */
  predicate Moves(l: AgentListing, l': AgentListing) {
    && MayBecome(l.status, l'.status)
    // Fees and approval time are written once, when vetting ends in approval.
    && ((l.status == Vetting && l'.status == Live) || (l'.fees == l.fees && l'.approvedAt == l.approvedAt))
    // Capital arrives only while the listing is live, and delisting finds none.
    && (l'.aumCurrent > l.aumCurrent ==> l.status == Live && l'.status == Live)
    && (l'.status == Delisted && l.status != Delisted ==> l.aumCurrent == 0)
    && l'.market == l.market && l'.metadataHash == l.metadataHash && l'.createdAt == l.createdAt
    && (l.status == Delisted ==> l'.agentAuthority == l.agentAuthority)
  }

  ghost predicate ListingStep(s: State, s': State, id: ListingId) {
    if id in s.listings then
      && id in s'.listings && Moves(s.listings[id], s'.listings[id])
      && (WellFormed(s.listings[id]) ==> WellFormed(s'.listings[id]))
    else id in s'.listings ==> s'.listings[id].status == Vetting && WellFormed(s'.listings[id])
  }

  lemma ListingInstrStep(s: State, signer: Pubkey, i: ListingInstr, id: ListingId)
    requires ListingSpec.ApplyListing(s, signer, i).Ok?
    ensures ListingStep(s, ListingSpec.ApplyListing(s, signer, i).value, id)
  {
  }

  lemma AumInstrStep(s: State, signer: Pubkey, i: AumInstr, id: ListingId)
    requires AumSpec.ApplyAum(s, signer, i).Ok?
    ensures ListingStep(s, AumSpec.ApplyAum(s, signer, i).value, id)
  {
  }

  lemma ProcessListingStep(s: State, tx: Tx, id: ListingId)
    ensures ListingStep(s, Process(s, tx), id)
  {
    hide BondSpec.ApplyBond, ListingSpec.ApplyListing, AumSpec.ApplyAum;
    if Succeeds(s, tx) {
      match tx.instr
      case OfListing(i) => ListingInstrStep(At(s, tx), tx.signer, i, id);
      case OfAum(i) => AumInstrStep(At(s, tx), tx.signer, i, id);
      case _ =>
    }
  }

  /** In every reachable state each listing keeps what its status promises. */
  lemma {:induction false} AlwaysWellFormed(s0: State, txs: seq<Tx>, n: nat, id: ListingId)
    requires IsGenesis(s0) && n <= |txs| && id in StateAt(s0, txs, n).listings
    ensures WellFormed(StateAt(s0, txs, n).listings[id])
  {
    hide Machine.Apply;
    ProcessListingStep(StateAt(s0, txs, n - 1), txs[n - 1], id);
    if id in StateAt(s0, txs, n - 1).listings {
      AlwaysWellFormed(s0, txs, n - 1, id);
    }
  }

  /** Approved terms are final, and so is delisting: over any stretch of a run. */
  lemma {:induction false} ApprovalAndDelistingAreFinal(s0: State, txs: seq<Tx>, i: nat, j: nat, id: ListingId)
    requires IsGenesis(s0) && i <= j <= |txs| && id in StateAt(s0, txs, i).listings
    ensures id in StateAt(s0, txs, j).listings
    ensures var l, l' := StateAt(s0, txs, i).listings[id], StateAt(s0, txs, j).listings[id];
            && (l.status != Vetting ==> l'.status != Vetting && l'.fees == l.fees && l'.approvedAt == l.approvedAt)
            && (l.status == Delisted ==> l'.status == Delisted && l'.aumCurrent == 0
                                         && l'.agentAuthority == l.agentAuthority)
            && l'.metadataHash == l.metadataHash && l'.market == l.market && l'.createdAt == l.createdAt
  {
    hide Machine.Apply;
    if i < j {
      ApprovalAndDelistingAreFinal(s0, txs, i, j - 1, id);
      ProcessListingStep(StateAt(s0, txs, j - 1), txs[j - 1], id);
    }
    AlwaysWellFormed(s0, txs, j, id);
  }

  /**
    * Who can move a status: approval needs the authority; resuming needs the builder or the authority, never the
    * guardian.
    */
  lemma StatusMovers(s: State, tx: Tx, id: ListingId)
    requires id in s.listings && id in Process(s, tx).listings
    requires Process(s, tx).listings[id].status != s.listings[id].status
    ensures var from, to := s.listings[id].status, Process(s, tx).listings[id].status;
            var byOwners := tx.signer == id.builder || tx.signer == s.admin.config.authority;
            match to
            case Live => if from == Vetting then tx.signer == s.admin.config.authority else from == Paused && byOwners
            case Paused =>
              from == Live &&
              (byOwners || (s.admin.governance.Some? && tx.signer == s.admin.governance.value.guardian))
            case Delisted => byOwners
            case Vetting => false
  {
    hide BondSpec.ApplyBond, AumSpec.ApplyAum;
    if Succeeds(s, tx) && tx.instr.OfAum? {
      AumInstrStatus(At(s, tx), tx.signer, tx.instr.aum, id);
    }
  }

  lemma AumInstrStatus(s: State, signer: Pubkey, i: AumInstr, id: ListingId)
    requires AumSpec.ApplyAum(s, signer, i).Ok? && id in s.listings
    ensures AumSpec.ApplyAum(s, signer, i).value.listings[id].status == s.listings[id].status
  {
  }
}
