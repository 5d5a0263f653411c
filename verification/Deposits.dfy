/** Deposits commute: a batch is accepted or refused as a whole, whatever its order, and leaves the same state. */
module Deposits {
  import opened Types
  import opened Tiers
  import opened AumSpec
  import opened Machine

  datatype Deposit = Deposit(builder: Pubkey, id: ListingId, amount: u64, isNewVault: bool)

  function Record(s: State, signer: Pubkey, d: Deposit): Result<State> {
    AumSpec.RecordDeposit(s, signer, d.builder, d.id, d.amount, d.isNewVault)
  }

  /** The deposits of `ds` recorded one after another. */
  function DepositAll(s: State, signer: Pubkey, ds: seq<Deposit>): Result<State>
    decreases |ds|
  {
    if ds == [] then Ok(s)
    else
      match Record(s, signer, ds[0])
      case Err(e) => Err(e)
      case Ok(s') => DepositAll(s', signer, ds[1..])
  }

  /** What a batch is summed for: a builder's capital, a listing's capital, a listing's vaults. */
  datatype Weight = ForBuilder(builder: Pubkey) | ForListing(id: ListingId) | NewVaults(id: ListingId) {
    function Of(d: Deposit): nat {
      match this
      case ForBuilder(b) => if d.builder == b then d.amount else 0
      case ForListing(id) => if d.id == id then d.amount else 0
      case NewVaults(id) => if d.id == id && d.isNewVault then 1 else 0
    }
  }

  function Total(ds: seq<Deposit>, w: Weight): nat {
    if ds == [] then 0 else w.Of(ds[0]) + Total(ds[1..], w)
  }

  /** What makes one deposit admissible regardless of the others. */
  predicate Admissible(s: State, signer: Pubkey, d: Deposit) {
    && AumAccounts(s, signer, d.builder, d.id).Pass? && d.amount > 0
    && s.listings[d.id].status == Live && !s.builders[d.builder].IsUnbonding()
  }

  /** The batch as a whole respects every ceiling and every counter. */
  ghost predicate Fits(s: State, signer: Pubkey, ds: seq<Deposit>) {
    && (forall d | d in ds :: Admissible(s, signer, d))
    && (forall b | b in s.builders :: Total(ds, ForBuilder(b)) > 0 ==>
          s.builders[b].totalAum + Total(ds, ForBuilder(b)) <=
          CeilingForTier(s.admin.config.tierCeilings, s.builders[b].tier))
    && (forall id | id in s.listings :: s.listings[id].aumCurrent + Total(ds, ForListing(id)) <= U64_MAX)
    && (forall id | id in s.listings :: s.listings[id].vaultCount + Total(ds, NewVaults(id)) <= U32_MAX)
  }

  predicate AddedToBuilder(x: Builder, amount: nat, x': Builder) {
    x'.totalAum == x.totalAum + amount && x' == x.(totalAum := x'.totalAum)
  }

  predicate AddedToListing(l: AgentListing, amount: nat, vaults: nat, l': AgentListing) {
    && l'.aumCurrent == l.aumCurrent + amount && l'.vaultCount == l.vaultCount + vaults
    && l' == l.(aumCurrent := l'.aumCurrent, vaultCount := l'.vaultCount)
  }

  /** `s'` is `s` with the sums of `ds` added, and nothing else changed. */
  ghost predicate Added(s: State, ds: seq<Deposit>, s': State) {
    && s' == s.(builders := s'.builders, listings := s'.listings)
    && s'.builders.Keys == s.builders.Keys && s'.listings.Keys == s.listings.Keys
    && (forall b | b in s.builders :: AddedToBuilder(s.builders[b], Total(ds, ForBuilder(b)), s'.builders[b]))
    && (forall id | id in s.listings ::
          AddedToListing(s.listings[id], Total(ds, ForListing(id)), Total(ds, NewVaults(id)), s'.listings[id]))
  }

  /** A batch is accepted exactly when it fits, and then adds its sums. */
  lemma {:induction false} BatchExactly(s: State, signer: Pubkey, ds: seq<Deposit>)
    ensures DepositAll(s, signer, ds).Ok? <==> Fits(s, signer, ds)
    ensures DepositAll(s, signer, ds).Ok? ==> Added(s, ds, DepositAll(s, signer, ds).value)
    decreases |ds|
  {
    hide Added, Fits;
    if ds == [] {
      EmptyBatch(s, signer);
    } else {
      if Fits(s, signer, ds) {
        FirstFits(s, signer, ds);
      }
      if Record(s, signer, ds[0]).Ok? {
        var s' := Record(s, signer, ds[0]).value;
        BatchExactly(s', signer, ds[1..]);
        if DepositAll(s, signer, ds).Ok? {
          RestFits(s, signer, ds);
          FirstAdded(s, signer, ds, DepositAll(s, signer, ds).value);
        }
      }
    }
  }

  lemma EmptyBatch(s: State, signer: Pubkey)
    ensures Fits(s, signer, []) && Added(s, [], s)
  {
  }

  /** What a batch that fits leaves after its first deposit fits too. */
  lemma {:induction false} FirstFits(s: State, signer: Pubkey, ds: seq<Deposit>)
    requires ds != [] && Fits(s, signer, ds)
    ensures Record(s, signer, ds[0]).Ok? && Fits(Record(s, signer, ds[0]).value, signer, ds[1..])
  {
    var d, rest := ds[0], ds[1..];
    assert Admissible(s, signer, d);
    assert Total(ds, ForBuilder(d.builder)) >= d.amount && Total(ds, ForListing(d.id)) >= d.amount;
    assert Total(ds, NewVaults(d.id)) >= NewVaults(d.id).Of(d);
    var s' := Record(s, signer, d).value;
    forall x | x in rest ensures Admissible(s', signer, x) {
      assert x in ds;
      assert Admissible(s, signer, x);
    }
    forall b | b in s'.builders && Total(rest, ForBuilder(b)) > 0
      ensures s'.builders[b].totalAum + Total(rest, ForBuilder(b)) <=
              CeilingForTier(s'.admin.config.tierCeilings, s'.builders[b].tier)
    {
      assert Total(ds, ForBuilder(b)) == ForBuilder(b).Of(d) + Total(rest, ForBuilder(b));
    }
    forall id | id in s'.listings ensures s'.listings[id].aumCurrent + Total(rest, ForListing(id)) <= U64_MAX {
      assert Total(ds, ForListing(id)) == ForListing(id).Of(d) + Total(rest, ForListing(id));
    }
    forall id | id in s'.listings ensures s'.listings[id].vaultCount + Total(rest, NewVaults(id)) <= U32_MAX {
      assert Total(ds, NewVaults(id)) == NewVaults(id).Of(d) + Total(rest, NewVaults(id));
    }
  }

  /** What acceptance of one deposit says about the state before. */
  lemma RecordGuards(s: State, signer: Pubkey, d: Deposit)
    requires Record(s, signer, d).Ok?
    ensures Admissible(s, signer, d)
    ensures d.builder in s.builders
    ensures s.builders[d.builder].totalAum + d.amount <=
            CeilingForTier(s.admin.config.tierCeilings, s.builders[d.builder].tier)
  {
  }

  lemma RecordKeepsAdmissible(s: State, signer: Pubkey, d: Deposit, x: Deposit)
    requires Record(s, signer, d).Ok?
    ensures Admissible(Record(s, signer, d).value, signer, x) <==> Admissible(s, signer, x)
  {
  }

  /** An accepted deposit in front of a batch that then fits. */
  lemma {:induction false} RestFits(s: State, signer: Pubkey, ds: seq<Deposit>)
    requires ds != [] && Record(s, signer, ds[0]).Ok? && Fits(Record(s, signer, ds[0]).value, signer, ds[1..])
    ensures Fits(s, signer, ds)
  {
    hide Record, Admissible, CeilingForTier;
    var d, rest := ds[0], ds[1..];
    var s' := Record(s, signer, d).value;
    OneDeposit(s, signer, d);
    RecordGuards(s, signer, d);
    forall x | x in ds ensures Admissible(s, signer, x) {
      if x != d {
        assert x in rest;
        assert Admissible(s', signer, x);
        RecordKeepsAdmissible(s, signer, d, x);
      }
    }
    forall b | b in s.builders && Total(ds, ForBuilder(b)) > 0
      ensures s.builders[b].totalAum + Total(ds, ForBuilder(b)) <=
              CeilingForTier(s.admin.config.tierCeilings, s.builders[b].tier)
    {
      assert b in s'.builders;
      assert Total(ds, ForBuilder(b)) == ForBuilder(b).Of(d) + Total(rest, ForBuilder(b));
    }
    forall id | id in s.listings ensures s.listings[id].aumCurrent + Total(ds, ForListing(id)) <= U64_MAX {
      assert id in s'.listings;
      assert Total(ds, ForListing(id)) == ForListing(id).Of(d) + Total(rest, ForListing(id));
    }
    forall id | id in s.listings ensures s.listings[id].vaultCount + Total(ds, NewVaults(id)) <= U32_MAX {
      assert id in s'.listings;
      assert Total(ds, NewVaults(id)) == NewVaults(id).Of(d) + Total(rest, NewVaults(id));
    }
  }

  /** What one accepted deposit does, in terms of what it is summed for. */
  lemma OneDeposit(s: State, signer: Pubkey, d: Deposit)
    requires Record(s, signer, d).Ok?
    ensures var s' := Record(s, signer, d).value;
            && s' == s.(builders := s'.builders, listings := s'.listings)
            && s'.builders.Keys == s.builders.Keys && s'.listings.Keys == s.listings.Keys
            && (forall b | b in s.builders :: AddedToBuilder(s.builders[b], ForBuilder(b).Of(d), s'.builders[b]))
            && (forall id | id in s.listings ::
                  AddedToListing(s.listings[id], ForListing(id).Of(d), NewVaults(id).Of(d), s'.listings[id]))
  {
  }

  lemma {:induction false} FirstAdded(s: State, signer: Pubkey, ds: seq<Deposit>, end: State)
    requires ds != [] && Record(s, signer, ds[0]).Ok? && Added(Record(s, signer, ds[0]).value, ds[1..], end)
    ensures Added(s, ds, end)
  {
    hide Record;
    OneDeposit(s, signer, ds[0]);
    forall b | b in s.builders ensures AddedToBuilder(s.builders[b], Total(ds, ForBuilder(b)), end.builders[b]) {
    }
    forall id | id in s.listings
      ensures AddedToListing(s.listings[id], Total(ds, ForListing(id)), Total(ds, NewVaults(id)), end.listings[id])
    {
    }
  }

  // ---- permutations ----

  lemma {:induction false} TotalWithout(ds: seq<Deposit>, i: nat, w: Weight)
    requires i < |ds|
    ensures Total(ds, w) == w.Of(ds[i]) + Total(ds[..i] + ds[i + 1..], w)
  {
    if i == 0 {
      assert ds[..0] + ds[1..] == ds[1..];
    } else {
      TotalWithout(ds[1..], i - 1, w);
      assert (ds[..i] + ds[i + 1..])[1..] == ds[1..][..i - 1] + ds[1..][i..];
    }
  }

  lemma {:induction false} MultisetWithout(ds: seq<Deposit>, i: nat)
    requires i < |ds|
    ensures multiset(ds[..i] + ds[i + 1..]) == multiset(ds) - multiset{ds[i]}
  {
    assert ds == ds[..i] + [ds[i]] + ds[i + 1..];
  }

  lemma {:induction false} TotalOfPermutation(ds: seq<Deposit>, es: seq<Deposit>, w: Weight)
    requires multiset(ds) == multiset(es)
    ensures Total(ds, w) == Total(es, w)
    decreases |ds|
  {
    if ds == [] {
      assert |multiset(es)| == 0;
    } else {
      assert ds[0] in multiset(es);
      var i: nat :| i < |es| && es[i] == ds[0];
      TotalWithout(ds, 0, w);
      TotalWithout(es, i, w);
      MultisetWithout(ds, 0);
      MultisetWithout(es, i);
      TotalOfPermutation(ds[..0] + ds[1..], es[..i] + es[i + 1..], w);
    }
  }

  lemma {:induction false} FitsInAnyOrder(s: State, signer: Pubkey, ds: seq<Deposit>, es: seq<Deposit>)
    requires multiset(ds) == multiset(es) && Fits(s, signer, ds)
    ensures Fits(s, signer, es)
  {
    forall d | d in es ensures Admissible(s, signer, d) {
      assert d in multiset(es);
      assert d in ds;
    }
    forall b ensures Total(es, ForBuilder(b)) == Total(ds, ForBuilder(b)) {
      TotalOfPermutation(ds, es, ForBuilder(b));
    }
    forall id ensures Total(es, ForListing(id)) == Total(ds, ForListing(id)) {
      TotalOfPermutation(ds, es, ForListing(id));
    }
    forall id ensures Total(es, NewVaults(id)) == Total(ds, NewVaults(id)) {
      TotalOfPermutation(ds, es, NewVaults(id));
    }
  }

  /** Adding the same sums leaves the same state. */
  lemma {:induction false} SumsDetermineState(s: State, ds: seq<Deposit>, es: seq<Deposit>, s1: State, s2: State)
    requires multiset(ds) == multiset(es) && Added(s, ds, s1) && Added(s, es, s2)
    ensures s1 == s2
  {
    forall b | b in s.builders ensures s1.builders[b] == s2.builders[b] {
      TotalOfPermutation(ds, es, ForBuilder(b));
    }
    forall id | id in s.listings ensures s1.listings[id] == s2.listings[id] {
      TotalOfPermutation(ds, es, ForListing(id));
      TotalOfPermutation(ds, es, NewVaults(id));
    }
    assert s1.builders == s2.builders && s1.listings == s2.listings;
  }

  /** From any state, every order of a batch meets the same fate and leaves the same state. */
  lemma {:induction false} DepositsCommute(s: State, signer: Pubkey, ds: seq<Deposit>, es: seq<Deposit>)
    requires multiset(ds) == multiset(es)
    ensures DepositAll(s, signer, ds).Ok? <==> DepositAll(s, signer, es).Ok?
    ensures DepositAll(s, signer, ds).Ok? ==> DepositAll(s, signer, ds) == DepositAll(s, signer, es)
  {
    BatchExactly(s, signer, ds);
    BatchExactly(s, signer, es);
    if DepositAll(s, signer, ds).Ok? {
      FitsInAnyOrder(s, signer, ds, es);
      SumsDetermineState(s, ds, es, DepositAll(s, signer, ds).value, DepositAll(s, signer, es).value);
    } else if DepositAll(s, signer, es).Ok? {
      FitsInAnyOrder(s, signer, es, ds);
    }
  }

  // ---- as transactions ----

  /** The batch as transactions landing one after another at the present clock. */
  function Transactions(now: Timestamp, signer: Pubkey, ds: seq<Deposit>): seq<Tx> {
    seq(|ds|, i requires 0 <= i < |ds| =>
      Tx(now, signer, OfAum(RecordDeposit(ds[i].builder, ds[i].id, ds[i].amount, ds[i].isNewVault))))
  }

  ghost predicate AllDid(s: State, txs: seq<Tx>) {
    forall i | 0 <= i < |txs| :: Did(s, txs, i)
  }

  lemma {:induction false} BatchIsARun(s: State, signer: Pubkey, ds: seq<Deposit>)
    ensures AllDid(s, Transactions(s.now, signer, ds)) <==> DepositAll(s, signer, ds).Ok?
    ensures DepositAll(s, signer, ds).Ok? ==>
              StateAt(s, Transactions(s.now, signer, ds), |ds|) == DepositAll(s, signer, ds).value
    decreases |ds|
  {
    hide Machine.Process;
    if ds != [] {
      var txs, rest := Transactions(s.now, signer, ds), Transactions(s.now, signer, ds[1..]);
      assert txs == [txs[0]] + rest;
      FirstLands(s, signer, ds[0]);
      assert StateAt(s, txs, 0) == s;
      if Record(s, signer, ds[0]).Ok? {
        var s' := Record(s, signer, ds[0]).value;
        assert StateAt(s, [txs[0]], 0) == s && StateAt(s, [txs[0]], 1) == s';
        BatchIsARun(s', signer, ds[1..]);
        StateAtAppend(s, [txs[0]], rest, |rest|);
        ShiftedRun(s, txs, s', rest);
      } else {
        assert !Did(s, txs, 0);
      }
    }
  }

  lemma FirstLands(s: State, signer: Pubkey, d: Deposit)
    ensures var tx := Tx(s.now, signer, OfAum(RecordDeposit(d.builder, d.id, d.amount, d.isNewVault)));
            && (Succeeds(s, tx) <==> Record(s, signer, d).Ok?)
            && (Record(s, signer, d).Ok? ==> Process(s, tx) == Record(s, signer, d).value)
  {
    assert s.(now := s.now) == s;
  }

  lemma ShiftedRun(s: State, txs: seq<Tx>, s': State, rest: seq<Tx>)
    requires txs != [] && txs == [txs[0]] + rest && Did(s, txs, 0) && StateAt(s, [txs[0]], 1) == s'
    ensures AllDid(s, txs) <==> AllDid(s', rest)
  {
    hide Machine.Process, Machine.Succeeds;
    forall i | 0 <= i < |rest| ensures Did(s, txs, i + 1) <==> Did(s', rest, i) {
      StateAtAppend(s, [txs[0]], rest, i);
    }
    if AllDid(s, txs) {
      forall i | 0 <= i < |rest| ensures Did(s', rest, i) {
        assert Did(s, txs, i + 1);
      }
    }
    if AllDid(s', rest) {
      forall i | 0 <= i < |txs| ensures Did(s, txs, i) {
        if i > 0 {
          assert Did(s', rest, i - 1);
        }
      }
    }
  }

  /** A run of deposits that all take effect may be reordered at will: all still do, and the end is the same. */
  lemma {:induction false} DepositRunsReorder(s: State, signer: Pubkey, ds: seq<Deposit>, es: seq<Deposit>)
    requires multiset(ds) == multiset(es) && AllDid(s, Transactions(s.now, signer, ds))
    ensures AllDid(s, Transactions(s.now, signer, es)) && |es| == |ds|
    ensures StateAt(s, Transactions(s.now, signer, es), |es|) == StateAt(s, Transactions(s.now, signer, ds), |ds|)
  {
    hide Machine.Process, Machine.Succeeds, AllDid;
    BatchIsARun(s, signer, ds);
    BatchIsARun(s, signer, es);
    DepositsCommute(s, signer, ds, es);
    assert |multiset(ds)| == |ds| && |multiset(es)| == |es|;
  }
}
