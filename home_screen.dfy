/** The home screen's display helpers: the total balance, its own address
    shortener, the three most recent transactions and the sign of an amount. */
module Home {
  import opened Wrappers
  import opened Types
  import opened JsText
  import WalletService
  import WalletContext

  /** `getTotalBalance`: 0 without a wallet, otherwise the three balances added up. */
  function TotalBalance(wallet: Option<Wallet>): (r: real)
    ensures wallet.None? ==> r == 0.0
    ensures wallet.Some? ==> r == wallet.value.balance.Total()
  {
    if wallet.None? then 0.0
    else wallet.value.balance.Get(USDT) + wallet.value.balance.Get(USDC) + wallet.value.balance.Get(AECoin)
  }

  /** After a send of `amount`, the total shown drops by exactly `amount`, whatever the currency. */
  lemma TotalAfterSend(w: Wallet, amount: real, c: Currency, updated: seq<Transaction>)
    ensures TotalBalance(Some(WalletContext.SentWallet(w, amount, c, updated))) == TotalBalance(Some(w)) - amount
  {
    var r := WalletContext.SentWallet(w, amount, c, updated);
    assert r.balance.Get(USDT) + r.balance.Get(USDC) + r.balance.Get(AECoin)
        == w.balance.Get(USDT) + w.balance.Get(USDC) + w.balance.Get(AECoin) - amount by {
      match c
      case USDT =>
        assert r.balance.Get(USDC) == w.balance.Get(USDC) && r.balance.Get(AECoin) == w.balance.Get(AECoin);
      case USDC =>
        assert r.balance.Get(USDT) == w.balance.Get(USDT) && r.balance.Get(AECoin) == w.balance.Get(AECoin);
      case AECoin =>
        assert r.balance.Get(USDT) == w.balance.Get(USDT) && r.balance.Get(USDC) == w.balance.Get(USDC);
    }
  }

  /** The screen's `formatAddress`: the first six characters, "...", then the last four,
      with no guard for short input, so a short address has characters shown twice. */
  function FormatAddress(address: string): (r: string)
    ensures |r| == Min(6, |address|) + 3 + Min(4, |address|)
    ensures r[..Min(6, |address|)] == address[..Min(6, |address|)]
    ensures r[Min(6, |address|)..Min(6, |address|) + 3] == "..."
    ensures r[Min(6, |address|) + 3..] == address[|address| - Min(4, |address|)..]
  {
    Substring(address, 0, 6) + "..." + SubstringFrom(address, |address| - 4)
  }

  /** The screen's shortener agrees with the service's exactly on addresses longer
      than ten characters; the service returns shorter ones unchanged. */
  lemma ShortenersAgreeOnLongAddresses(address: string)
    ensures FormatAddress(address) == WalletService.FormatAddress(address) <==> |address| > 10
  {
    var r := FormatAddress(address);
    if |address| > 10 {
      assert r == address[..6] + "..." + address[|address| - 4..];
    } else {
      assert |r| > |address|;
    }
  }

  /** `getRecentTransactions`: `transactions.slice(0, 3)`. */
  function RecentTransactions(ts: seq<Transaction>): (r: seq<Transaction>)
    ensures |r| == Min(3, |ts|)
    ensures r == ts[..|r|]
  {
    if |ts| <= 3 then ts else ts[..3]
  }

  /** A just-sent transaction, which the session puts first, is the first recent one,
      followed by the two newest of the rest. */
  lemma SentShowsFirst(t: Transaction, ts: seq<Transaction>)
    ensures RecentTransactions([t] + ts) == [t] + RecentTransactions(ts)[..Min(2, |ts|)]
  {
    var r := RecentTransactions([t] + ts);
    assert r[0] == t;
    assert r[1..] == ts[..Min(2, |ts|)];
  }

  /** The sign before an amount: '-' for a send and '+' for every other kind. */
  function AmountSign(kind: TxKind): (r: string)
    ensures r == "-" <==> kind == Send
    ensures r == "+" <==> kind != Send
  {
    if kind == Send then "-" else "+"
  }
}
