/** Token balances: transfers, and the supply they conserve. */
module Tokens {
  import opened Types

  /** The token program's transfer. Moving tokens from an account to itself changes nothing. */
  function Transfer(t: Ledger, from: TokenAddress, to: TokenAddress, amount: u64): Result<Ledger> {
    if from !in t || to !in t then Err(AccountNotInitialized)
    else if t[from].amount < amount then Err(InsufficientFunds)
    else if t[from].mint != t[to].mint then Err(MintMismatch)
    else if from == to then Ok(t)
    else if t[to].amount + amount > U64_MAX then Err(TokenOverflow)
    else Ok(t[from := t[from].(amount := t[from].amount - amount)][to := t[to].(amount := t[to].amount + amount)])
  }

  function Holding(a: TokenAccount, mint: Pubkey): nat {
    if a.mint == mint then a.amount else 0
  }

  /** All tokens of `mint` in existence. */
  ghost function Supply(t: Ledger, mint: Pubkey): nat
    decreases |t|
  {
    if t == map[] then 0
    else
      var a :| a in t;
      Holding(t[a], mint) + Supply(t - {a}, mint)
  }

  /** Any account can be counted first. */
  lemma {:induction false} SupplySplit(t: Ledger, mint: Pubkey, a: TokenAddress)
    requires a in t
    ensures Supply(t, mint) == Holding(t[a], mint) + Supply(t - {a}, mint)
    decreases |t|
  {
    var b :| b in t && Supply(t, mint) == Holding(t[b], mint) + Supply(t - {b}, mint);
    if a != b {
      SupplySplit(t - {b}, mint, a);
      SupplySplit(t - {a}, mint, b);
      assert (t - {b}) - {a} == (t - {a}) - {b};
    }
  }

  lemma SupplyUpdate(t: Ledger, mint: Pubkey, a: TokenAddress, v: TokenAccount)
    ensures Supply(t[a := v], mint) == Supply(t, mint) - (if a in t then Holding(t[a], mint) else 0) + Holding(v, mint)
  {
    var t' := t[a := v];
    SupplySplit(t', mint, a);
    assert t' - {a} == t - {a};
    if a in t {
      SupplySplit(t, mint, a);
    } else {
      assert t - {a} == t;
    }
  }

  /** Two different accounts together never hold more than the supply. */
  lemma TwoHoldings(t: Ledger, mint: Pubkey, a: TokenAddress, b: TokenAddress)
    requires a in t && b in t && a != b
    ensures Holding(t[a], mint) + Holding(t[b], mint) <= Supply(t, mint)
  {
    SupplySplit(t, mint, a);
    SupplySplit(t - {a}, mint, b);
  }

  /** Transfers neither create nor destroy tokens of any mint. */
  lemma TransferConserves(t: Ledger, from: TokenAddress, to: TokenAddress, amount: u64, mint: Pubkey)
    requires Transfer(t, from, to, amount).Ok?
    ensures Supply(Transfer(t, from, to, amount).value, mint) == Supply(t, mint)
  {
    if from != to {
      var t1 := t[from := t[from].(amount := t[from].amount - amount)];
      SupplyUpdate(t, mint, from, t1[from]);
      SupplyUpdate(t1, mint, to, t1[to].(amount := t1[to].amount + amount));
    }
  }

  /** With a supply that fits 64 bits, a transfer fails only for want of funds, accounts or a common mint. */
  lemma TransferSucceeds(t: Ledger, from: TokenAddress, to: TokenAddress, amount: u64)
    requires from in t && to in t && t[from].mint == t[to].mint && Supply(t, t[from].mint) <= U64_MAX
    ensures Transfer(t, from, to, amount).Ok? <==> amount <= t[from].amount
  {
    if from != to {
      TwoHoldings(t, t[from].mint, from, to);
    }
  }
}
