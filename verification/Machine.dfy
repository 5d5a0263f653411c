/** The program as a state machine: one transaction at a time, each taking effect whole or not at all. */
module Machine {
  import opened Types
  import opened Tokens
  import AdminSpec
  import BondSpec
  import ListingSpec
  import AumSpec

  /** Tokens move outside the program too: anyone may open an account or send what a wallet of theirs holds. */
  function ApplyToken(t: Ledger, signer: Pubkey, i: TokenInstr): Result<Ledger> {
    match i
    case OpenTokenAccount(id, mint, owner) =>
      if Account(id) in t then Err(AccountAlreadyInUse) else Ok(t[Account(id) := TokenAccount(mint, owner, 0)])
    case TransferTokens(from, to, amount) =>
      if from !in t || to !in t then Err(AccountNotInitialized)
      else if t[from].owner != Wallet(signer) then Err(Unauthorized)
      else Transfer(t, from, to, amount)
  }

  function WithAdmin(s: State, r: Result<Admin>): Result<State> {
    match r
    case Ok(a) => Ok(s.(admin := a))
    case Err(e) => Err(e)
  }

  function WithTokens(s: State, r: Result<Ledger>): Result<State> {
    match r
    case Ok(t) => Ok(s.(tokens := t))
    case Err(e) => Err(e)
  }

  function Apply(s: State, signer: Pubkey, i: Instr): (r: Result<State>)
    ensures r.Ok? ==> r.value.now == s.now
  {
    match i
    case OfAdmin(i) => WithAdmin(s, AdminSpec.ApplyAdmin(s.admin, s.now, signer, i))
    case OfBond(i) => BondSpec.ApplyBond(s, signer, i)
    case OfListing(i) => ListingSpec.ApplyListing(s, signer, i)
    case OfAum(i) => AumSpec.ApplyAum(s, signer, i)
    case OfToken(i) => WithTokens(s, ApplyToken(s.tokens, signer, i))
  }

  /** The state as the clock reads when `tx` lands. */
  function At(s: State, tx: Tx): State {
    s.(now := tx.now)
  }

  /** The ledger clock never runs backwards, so a transaction from the past does not occur. */
  predicate Succeeds(s: State, tx: Tx) {
    s.now <= tx.now && Apply(At(s, tx), tx.signer, tx.instr).Ok?
  }

  /** One transaction. A failed one is rolled back: only the clock has moved. */
  function Process(s: State, tx: Tx): (s': State)
    ensures s.now <= s'.now
  {
    if Succeeds(s, tx) then Apply(At(s, tx), tx.signer, tx.instr).value
    else if s.now <= tx.now then At(s, tx)
    else s
  }

  /** The state after the first `n` transactions of a run. */
  function StateAt(s0: State, txs: seq<Tx>, n: nat): State
    requires n <= |txs|
  {
    if n == 0 then s0 else Process(StateAt(s0, txs, n - 1), txs[n - 1])
  }

  /** Transaction `i` of the run takes effect. */
  predicate Did(s0: State, txs: seq<Tx>, i: nat)
    requires i < |txs|
  {
    Succeeds(StateAt(s0, txs, i), txs[i])
  }

  /** Right after `initialize_config`: nothing but the configuration and other people's tokens. */
  ghost predicate IsGenesis(s: State) {
    var c := s.admin.config;
    && AdminSpec.InitialConfig(c.authority, c.agentMint, c.tierBonds, c.tierCeilings, Some(c.unbondPeriod)) == Ok(c)
    && s.admin.governance == None && s.admin.pending == map[] && s.builders == map[] && s.listings == map[]
    && (forall b :: BondVault(b) !in s.tokens)
    && Supply(s.tokens, c.agentMint) <= U64_MAX
  }

  /** Later transactions do not change what came before. */
  lemma {:induction false} StateAtPrefix(s0: State, txs: seq<Tx>, more: seq<Tx>, n: nat)
    requires n <= |txs|
    ensures StateAt(s0, txs + more, n) == StateAt(s0, txs, n)
  {
    hide Process;
    if n > 0 {
      StateAtPrefix(s0, txs, more, n - 1);
    }
  }

  /** Running on from where a run ended. */
  lemma {:induction false} StateAtAppend(s0: State, txs: seq<Tx>, more: seq<Tx>, n: nat)
    requires n <= |more|
    ensures StateAt(s0, txs + more, |txs| + n) == StateAt(StateAt(s0, txs, |txs|), more, n)
  {
    hide Process;
    if n == 0 {
      StateAtPrefix(s0, txs, more, |txs|);
    } else {
      StateAtAppend(s0, txs, more, n - 1);
      assert (txs + more)[|txs| + n - 1] == more[n - 1];
    }
  }

  /** A transaction that takes effect sets the clock. */
  lemma {:induction false} DidSetsClock(s0: State, txs: seq<Tx>, i: nat)
    requires i < |txs| && Did(s0, txs, i)
    ensures StateAt(s0, txs, i).now <= StateAt(s0, txs, i + 1).now == txs[i].now
  {
  }

  /** The clock over a run. */
  lemma {:induction false} ClockAdvances(s0: State, txs: seq<Tx>, i: nat, j: nat)
    requires i <= j <= |txs|
    ensures StateAt(s0, txs, i).now <= StateAt(s0, txs, j).now
  {
    if i < j {
      ClockAdvances(s0, txs, i, j - 1);
    }
  }
}
