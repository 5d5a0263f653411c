/** What a key without any other role can do, the guardian's above all: obstruct, a bounded number of times. */
module Guardian {
  import opened Types
  import AdminSpec
  import BondSpec
  import ListingSpec
  import AumSpec
  import opened Machine

  /** `key` is neither the authority, nor a builder, nor the vault authority. */
  predicate NoOtherRole(s: State, key: Pubkey) {
    key != s.admin.config.authority && key != s.admin.config.vaultAuthority && key !in s.builders
  }

  /** An instruction of the program that does not enrol the signer as a builder. */
  predicate Outside(i: Instr) {
    !i.OfToken? && !(i.OfBond? && i.bond.RegisterBuilder?)
  }

  function LiveListings(s: State): set<ListingId> {
    set id | id in s.listings && s.listings[id].status == Live
  }

  /** What is left to veto and to pause. */
  function Obstructible(s: State): nat {
    |s.admin.pending| + |LiveListings(s)|
  }

  predicate IsGuardian(s: State, key: Pubkey) {
    s.admin.governance.Some? && s.admin.governance.value.guardian == key
  }

  /** Nothing changed but vetoed proposals and paused listings. */
  ghost predicate OnlyObstructed(s: State, s': State) {
    && s'.admin.config == s.admin.config && s'.admin.governance == s.admin.governance
    && s'.builders == s.builders && s'.tokens == s.tokens
    && s'.admin.pending.Keys <= s.admin.pending.Keys
    && (forall slot | slot in s'.admin.pending :: s'.admin.pending[slot] == s.admin.pending[slot])
    && s'.listings.Keys == s.listings.Keys
    && (forall id | id in s.listings ::
          s'.listings[id] == s.listings[id]
          || (s.listings[id].status == Live && s'.listings[id] == s.listings[id].(status := Paused)))
  }

  lemma VetoOnly(a: Admin, now: Timestamp, signer: Pubkey, i: AdminInstr)
    requires signer != a.config.authority && AdminSpec.ApplyAdmin(a, now, signer, i).Ok?
    ensures a.governance.Some? && signer == a.governance.value.guardian && i.VetoChange?
    ensures Seed(i.kind) in a.pending
    ensures AdminSpec.ApplyAdmin(a, now, signer, i).value == a.(pending := a.pending - {Seed(i.kind)})
  {
  }

  lemma PauseOnly(s: State, signer: Pubkey, i: ListingInstr)
    requires NoOtherRole(s, signer) && ListingSpec.ApplyListing(s, signer, i).Ok?
    ensures s.admin.governance.Some? && signer == s.admin.governance.value.guardian && i.GuardianPauseListing?
    ensures i.id in s.listings && s.listings[i.id].status == Live
    ensures ListingSpec.ApplyListing(s, signer, i).value ==
            s.(listings := s.listings[i.id := s.listings[i.id].(status := Paused)])
  {
  }

  lemma NothingElse(s: State, signer: Pubkey, i: Instr)
    requires NoOtherRole(s, signer) && Outside(i) && (i.OfBond? || i.OfAum?)
    ensures Apply(s, signer, i).Err?
  {
  }

  /** A veto uses up one proposal. */
  lemma VetoObstructs(s: State, slot: u8)
    requires slot in s.admin.pending
    ensures var s' := s.(admin := s.admin.(pending := s.admin.pending - {slot}));
            OnlyObstructed(s, s') && Obstructible(s') == Obstructible(s) - 1
  {
    var s' := s.(admin := s.admin.(pending := s.admin.pending - {slot}));
    assert s'.admin.pending.Keys == s.admin.pending.Keys - {slot};
    assert LiveListings(s') == LiveListings(s);
  }

  /** A pause uses up one live listing. */
  lemma PauseObstructs(s: State, id: ListingId)
    requires id in s.listings && s.listings[id].status == Live
    ensures var s' := s.(listings := s.listings[id := s.listings[id].(status := Paused)]);
            OnlyObstructed(s, s') && Obstructible(s') == Obstructible(s) - 1
  {
    var s' := s.(listings := s.listings[id := s.listings[id].(status := Paused)]);
    assert LiveListings(s') == LiveListings(s) - {id};
  }

  lemma ClockIsNoObstruction(s: State, now: Timestamp)
    ensures OnlyObstructed(s, s.(now := now)) && Obstructible(s.(now := now)) == Obstructible(s)
  {
    assert LiveListings(s.(now := now)) == LiveListings(s);
  }

  /** Each success uses up one proposal or one live listing. */
  lemma GuardianStep(s: State, tx: Tx)
    requires NoOtherRole(s, tx.signer) && Outside(tx.instr)
    ensures OnlyObstructed(s, Process(s, tx))
    ensures Obstructible(Process(s, tx)) == Obstructible(s) - if Succeeds(s, tx) then 1 else 0
    ensures Succeeds(s, tx) ==> IsGuardian(s, tx.signer)
  {
    hide BondSpec.ApplyBond, ListingSpec.ApplyListing, AumSpec.ApplyAum, AdminSpec.ApplyAdmin;
    hide OnlyObstructed, Obstructible;
    ClockIsNoObstruction(s, s.now);
    ClockIsNoObstruction(s, tx.now);
    if Succeeds(s, tx) {
      var at := At(s, tx);
      if tx.instr.OfAdmin? {
        VetoOnly(s.admin, tx.now, tx.signer, tx.instr.admin);
        VetoObstructs(at, Seed(tx.instr.admin.kind));
      } else if tx.instr.OfListing? {
        PauseOnly(at, tx.signer, tx.instr.listing);
        PauseObstructs(at, tx.instr.listing.id);
      } else {
        NothingElse(at, tx.signer, tx.instr);
      }
      ClockBeforeObstruction(s, tx.now, Process(s, tx));
    }
  }

  lemma ClockBeforeObstruction(s: State, now: Timestamp, s': State)
    requires OnlyObstructed(s.(now := now), s')
    ensures OnlyObstructed(s, s')
  {
  }

  /** Transactions that took effect among the first `n`. */
  function Successes(s0: State, txs: seq<Tx>, n: nat): nat
    requires n <= |txs|
  {
    if n == 0 then 0 else Successes(s0, txs, n - 1) + if Did(s0, txs, n - 1) then 1 else 0
  }

  /**
    * From any state, whatever a key without another role signs alone leaves configuration, governance, builders
    * and every token balance as they were: proposals may disappear, live listings may be paused, at most once
    * each; and a key that is not the guardian achieves nothing at all.
    */
  lemma {:induction false} GuardianOnlyRuns(s: State, txs: seq<Tx>, n: nat, key: Pubkey)
    requires n <= |txs| && NoOtherRole(s, key)
    requires forall i | 0 <= i < |txs| :: txs[i].signer == key && Outside(txs[i].instr)
    ensures OnlyObstructed(s, StateAt(s, txs, n))
    ensures Successes(s, txs, n) + Obstructible(StateAt(s, txs, n)) == Obstructible(s)
    ensures Successes(s, txs, n) > 0 ==> IsGuardian(s, key)
  {
    hide Machine.Apply, Obstructible;
    if n > 0 {
      GuardianOnlyRuns(s, txs, n - 1, key);
      GuardianStep(StateAt(s, txs, n - 1), txs[n - 1]);
    }
  }
}
