/** src/contexts/WalletContext.tsx: the wallet session. Its state is the four
    React state cells `wallet`, `transactions`, `isWalletCreated` and
    `isLoading`; every operation runs to completion before the next starts.
    The secure store and the chain gateway are the session's collaborators;
    the BIP-39 library (`bip39Check`, `None` when it throws), ethers' HD
    derivation (`derive`, `None` when it throws), the phrase generator and the
    clock are parameters. */
module WalletContext {
  import opened Wrappers
  import opened Types
  import opened Storage
  import opened BlockchainService
  import WalletService

  datatype SessionError =
    | NoWallet                      // 'No wallet available'
    | InvalidMnemonic               // 'Invalid mnemonic phrase'
    | DerivationFailed              // ethers rejects the phrase
    | StoreWriteFailed              // SecureStore.setItemAsync rejects
    | Gateway(error: GatewayError)  // BlockchainService.sendTransaction rethrows

  /** `mnemonic || bip39.generateMnemonic()`: an absent or empty phrase is replaced. */
  function PhraseToUse(mnemonic: Option<string>, generated: string): (p: string)
    ensures mnemonic.Some? && mnemonic.value != "" ==> p == mnemonic.value
    ensures mnemonic.None? || mnemonic.value == "" ==> p == generated
  {
    if mnemonic.Some? && mnemonic.value != "" then mnemonic.value else generated
  }

  /** The record `sendTransaction` prepends: a pending send from the wallet's address. */
  function SentRecord(hash: string, from: string, to: string, amount: real, c: Currency, now: Timestamp)
    : (t: Transaction)
    ensures t.id == hash && t.kind == Send && t.status == Pending
    ensures t.fromAddress == from && t.toAddress == to && t.amount == amount && t.currency == c
  {
    Transaction(hash, Send, amount, c, from, to, now, Pending, Some(hash), None, None)
  }

  /** The wallet after the optimistic update: `balance[c] - amount`, no floor, and the new list. */
  function SentWallet(w: Wallet, amount: real, c: Currency, updated: seq<Transaction>): (r: Wallet)
    ensures r.balance.Get(c) == w.balance.Get(c) - amount
    ensures forall d :: d != c ==> r.balance.Get(d) == w.balance.Get(d)
    ensures r.address == w.address && r.transactions == updated
    ensures r.mnemonic == w.mnemonic && r.privateKey == w.privateKey
  {
    w.(balance := w.balance.Set(c, w.balance.Get(c) - amount), transactions := updated)
  }

  /** The optimistic deduction has no floor: sending more than the balance leaves
      a negative balance, and nothing about the recipient is checked. */
  lemma SendCanOverdraw(w: Wallet, amount: real, c: Currency, updated: seq<Transaction>)
    requires amount > w.balance.Get(c)
    ensures SentWallet(w, amount, c, updated).balance.Get(c) < 0.0
  {
  }

  class WalletSession {
    var wallet: Option<Wallet>
    var transactions: seq<Transaction>
    var isWalletCreated: bool
    var isLoading: bool
    const store: KeyValueStore
    const gateway: ChainGateway

    /** A wallet is present exactly when one has been created, and a writable store
        holds the wallet the session shows. */
    ghost predicate Valid()
      reads this, store
    {
      && (isWalletCreated <==> wallet.Some?)
      && (wallet.Some? && store.writable ==>
            WalletService.WalletKey in store.entries
            && store.entries[WalletService.WalletKey] == WalletJson(wallet.value))
    }

    /** The provider's initial state. */
    constructor (secureStore: KeyValueStore, chain: ChainGateway)
      ensures Valid() && store == secureStore && gateway == chain
      ensures wallet == None && transactions == [] && !isWalletCreated && !isLoading
    {
      store := secureStore;
      gateway := chain;
      wallet := None;
      transactions := [];
      isWalletCreated := false;
      isLoading := false;
    }

    /** `loadTransactions`: replaces the list with the fetched history (which never throws). */
    method LoadTransactions(
      address: string, queryEvents: (string, Currency, Direction) -> Option<seq<TransferEvent>>)
      modifies this
      ensures transactions == gateway.History(address, queryEvents)
      ensures wallet == old(wallet) && isWalletCreated == old(isWalletCreated) && isLoading == old(isLoading)
    {
      transactions := gateway.GetTransactionHistory(address, queryEvents);
    }

    /** `checkExistingWallet`: adopts a wallet record found in the store and loads its history;
        text that does not parse as a wallet is ignored. */
    method CheckExistingWallet(queryEvents: (string, Currency, Direction) -> Option<seq<TransferEvent>>)
      requires Valid()
      modifies this
      ensures Valid()
      ensures WalletService.GetStoredWallet(store).Some? ==>
        wallet == WalletService.GetStoredWallet(store) && isWalletCreated
        && transactions == gateway.History(wallet.value.address, queryEvents)
      ensures WalletService.GetStoredWallet(store).None? ==>
        wallet == old(wallet) && transactions == old(transactions) && isWalletCreated == old(isWalletCreated)
      ensures isLoading == old(isLoading)
    {
      match WalletService.GetStoredWallet(store)
      case Some(w) =>
        wallet := Some(w);
        isWalletCreated := true;
        LoadTransactions(w.address, queryEvents);
      case None =>
    }

    /** `createWallet`: uses the given phrase or a generated one, derives the account,
        writes `pma_wallet` then `pma_mnemonic`, and only then sets the state and
        connects the gateway. */
    method CreateWallet(mnemonic: Option<string>, generated: string, derive: string -> Option<Account>)
      returns (r: Result<Wallet, SessionError>)
      requires Valid()
      modifies this, store, gateway
      ensures Valid() && !isLoading && transactions == old(transactions)
      ensures store.writable == old(store.writable)
      ensures derive(PhraseToUse(mnemonic, generated)).None? ==> r == Err(DerivationFailed)
      ensures r.Ok? <==> derive(PhraseToUse(mnemonic, generated)).Some? && store.writable
      ensures r.Err? ==>
        wallet == old(wallet) && isWalletCreated == old(isWalletCreated)
        && store.entries == old(store.entries)
      ensures r.Ok? ==>
        && var account := derive(PhraseToUse(mnemonic, generated)).value;
        && r.value == NewWallet(account.address, PhraseToUse(mnemonic, generated), account.privateKey)
        && wallet == Some(r.value) && isWalletCreated
        && store.entries == old(store.entries)[WalletService.WalletKey := WalletJson(r.value)]
                                             [WalletService.MnemonicKey := Text(PhraseToUse(mnemonic, generated))]
        && gateway.providerReady && gateway.signer == Some(account)
    {
      isLoading := true;
      var phrase := PhraseToUse(mnemonic, generated);
      var derived := derive(phrase);
      if derived.None? {
        isLoading := false;
        return Err(DerivationFailed);
      }
      var account := derived.value;
      var newWallet := NewWallet(account.address, phrase, account.privateKey);
      var ok := store.SetItem(WalletService.WalletKey, WalletJson(newWallet));
      if !ok {
        isLoading := false;
        return Err(StoreWriteFailed);
      }
      ok := store.SetItem(WalletService.MnemonicKey, Text(phrase));
      wallet := Some(newWallet);
      isWalletCreated := true;
      gateway.InitializeWallet(account);
      isLoading := false;
      r := Ok(newWallet);
    }

    /** `importWallet`: rejects a phrase the BIP-39 check does not accept before any
        store write or state change; otherwise as `createWallet`, then loads the history. */
    method ImportWallet(
      mnemonic: string, bip39Check: string -> Option<bool>, derive: string -> Option<Account>,
      queryEvents: (string, Currency, Direction) -> Option<seq<TransferEvent>>)
      returns (r: Result<Wallet, SessionError>)
      requires Valid()
      modifies this, store, gateway
      ensures Valid() && !isLoading
      ensures store.writable == old(store.writable)
      ensures bip39Check(mnemonic) != Some(true) ==>
        r.Err? && wallet == old(wallet) && transactions == old(transactions)
        && isWalletCreated == old(isWalletCreated) && store.entries == old(store.entries)
      ensures r.Ok? <==> bip39Check(mnemonic) == Some(true) && derive(mnemonic).Some? && store.writable
      ensures r.Err? ==>
        wallet == old(wallet) && transactions == old(transactions)
        && isWalletCreated == old(isWalletCreated) && store.entries == old(store.entries)
      ensures r.Ok? ==>
        && var account := derive(mnemonic).value;
        && r.value == NewWallet(account.address, mnemonic, account.privateKey)
        && wallet == Some(r.value) && isWalletCreated
        && store.entries == old(store.entries)[WalletService.WalletKey := WalletJson(r.value)]
                                             [WalletService.MnemonicKey := Text(mnemonic)]
        && gateway.providerReady && gateway.signer == Some(account)
        && transactions == gateway.History(account.address, queryEvents)
    {
      isLoading := true;
      if bip39Check(mnemonic) != Some(true) {
        isLoading := false;
        return Err(InvalidMnemonic);
      }
      var derived := derive(mnemonic);
      if derived.None? {
        isLoading := false;
        return Err(DerivationFailed);
      }
      var account := derived.value;
      var imported := NewWallet(account.address, mnemonic, account.privateKey);
      var ok := store.SetItem(WalletService.WalletKey, WalletJson(imported));
      if !ok {
        isLoading := false;
        return Err(StoreWriteFailed);
      }
      ok := store.SetItem(WalletService.MnemonicKey, Text(mnemonic));
      wallet := Some(imported);
      isWalletCreated := true;
      gateway.InitializeWallet(account);
      LoadTransactions(imported.address, queryEvents);
      isLoading := false;
      r := Ok(imported);
    }

    /** `getBalance(c)`: fetches one currency, rewrites only that currency of the wallet,
        persists it and returns the fetched amount. The state is updated before the
        write, so a failed write leaves the new balance in memory and reports the error. */
    method GetBalance(c: Currency, balanceOf: (string, string) -> Option<real>)
      returns (r: Result<real, SessionError>)
      requires Valid()
      modifies this, store
      ensures Valid()
      ensures store.writable == old(store.writable)
      ensures transactions == old(transactions) && isWalletCreated == old(isWalletCreated)
      ensures isLoading == old(isLoading)
      ensures old(wallet).None? ==> r == Err(NoWallet) && wallet == None && store.entries == old(store.entries)
      ensures old(wallet).Some? ==>
        && var fetched := gateway.GetBalance(old(wallet).value.address, c, balanceOf);
        && wallet == Some(old(wallet).value.(balance := old(wallet).value.balance.Set(c, fetched)))
        && (r.Ok? <==> store.writable)
        && (r.Ok? ==> r.value == fetched)
        && (r.Err? ==> r.error == StoreWriteFailed)
        && store.entries == if store.writable then old(store.entries)[WalletService.WalletKey := WalletJson(wallet.value)]
                            else old(store.entries)
    {
      if wallet.None? {
        return Err(NoWallet);
      }
      var w := wallet.value;
      var balance := gateway.GetBalance(w.address, c, balanceOf);
      var updated := w.(balance := w.balance.Set(c, balance));
      wallet := Some(updated);
      var ok := store.SetItem(WalletService.WalletKey, WalletJson(updated));
      if !ok {
        return Err(StoreWriteFailed);
      }
      r := Ok(balance);
    }

    /** `sendTransaction`: no check of the recipient, the amount or the balance. On a
        successful submission it prepends one pending send record, lowers `balance[c]`
        by exactly `amount` (no floor at 0) and persists; a failed submission changes
        nothing and its error propagates. */
    method SendTransaction(
      to: string, amount: real, c: Currency,
      transfer: (string, string, real) -> Result<string, string>, mockHash: string, now: Timestamp)
      returns (r: Result<string, SessionError>)
      requires Valid()
      modifies this, store
      ensures Valid()
      ensures store.writable == old(store.writable) && isWalletCreated == old(isWalletCreated)
      ensures old(wallet).None? ==>
        r == Err(NoWallet) && wallet == None && transactions == old(transactions)
        && isLoading == old(isLoading) && store.entries == old(store.entries)
      ensures old(wallet).Some? ==> !isLoading
      ensures old(wallet).Some? ==>
        && var w := old(wallet).value;
        && var sent := gateway.SendTransaction(w.address, to, amount, c, transfer, mockHash);
        && (sent.Err? ==>
              r == Err(Gateway(sent.error)) && wallet == old(wallet)
              && transactions == old(transactions) && store.entries == old(store.entries))
        && (sent.Ok? ==>
              && var record := SentRecord(sent.value, w.address, to, amount, c, now);
              && transactions == [record] + old(transactions)
              && wallet == Some(SentWallet(w, amount, c, transactions))
              && (r.Ok? <==> store.writable)
              && (r.Ok? ==> r.value == sent.value)
              && (r.Err? ==> r.error == StoreWriteFailed))
    {
      if wallet.None? {
        return Err(NoWallet);
      }
      var w := wallet.value;
      isLoading := true;
      var sent := gateway.SendTransaction(w.address, to, amount, c, transfer, mockHash);
      if sent.Err? {
        isLoading := false;
        return Err(Gateway(sent.error));
      }
      var txHash := sent.value;
      var record := SentRecord(txHash, w.address, to, amount, c, now);
      var updatedTransactions := [record] + transactions;
      transactions := updatedTransactions;
      var updatedWallet := SentWallet(w, amount, c, updatedTransactions);
      wallet := Some(updatedWallet);
      var ok := store.SetItem(WalletService.WalletKey, WalletJson(updatedWallet));
      isLoading := false;
      if !ok {
        return Err(StoreWriteFailed);
      }
      r := Ok(txHash);
    }

    /** `refreshWallet`: nothing without a wallet. Otherwise fetches the three balances
        one after the other (each through `getBalance`, which persists), overwrites all
        three, persists, and replaces `transactions` with the fetched history, dropping
        local pending sends. A failed write ends the refresh quietly. */
    method RefreshWallet(
      balanceOf: (string, string) -> Option<real>,
      queryEvents: (string, Currency, Direction) -> Option<seq<TransferEvent>>)
      requires Valid()
      modifies this, store
      ensures Valid()
      ensures store.writable == old(store.writable) && isWalletCreated == old(isWalletCreated)
      ensures isLoading == old(isLoading)
      ensures old(wallet).None? ==>
        wallet == None && transactions == old(transactions) && store.entries == old(store.entries)
      ensures old(wallet).Some? && store.writable ==>
        && var w := old(wallet).value;
        && wallet == Some(w.(balance := Balances(
             gateway.GetBalance(w.address, USDT, balanceOf),
             gateway.GetBalance(w.address, USDC, balanceOf),
             gateway.GetBalance(w.address, AECoin, balanceOf))))
        && transactions == gateway.History(w.address, queryEvents)
        && store.entries == old(store.entries)[WalletService.WalletKey := WalletJson(wallet.value)]
      ensures old(wallet).Some? && !store.writable ==>
        && var w := old(wallet).value;
        && wallet == Some(w.(balance := w.balance.Set(USDT, gateway.GetBalance(w.address, USDT, balanceOf))))
        && transactions == old(transactions) && store.entries == old(store.entries)
    {
      if wallet.None? {
        return;
      }
      var w := wallet.value;
      var balances := FetchBalances(balanceOf);
      if balances.None? { return; }
      var updated := w.(balance := balances.value);
      wallet := Some(updated);
      var ok := store.SetItem(WalletService.WalletKey, WalletJson(updated));
      if !ok { return; }
      LoadTransactions(w.address, queryEvents);
    }

    /** The `Promise.all` of `refreshWallet`: `getBalance` for USDT, USDC and AECoin in
        turn, stopping at the first failed write. */
    method FetchBalances(balanceOf: (string, string) -> Option<real>) returns (r: Option<Balances>)
      requires Valid() && wallet.Some?
      modifies this, store
      ensures Valid()
      ensures store.writable == old(store.writable) && isWalletCreated == old(isWalletCreated)
      ensures isLoading == old(isLoading) && transactions == old(transactions)
      ensures r.Some? <==> store.writable
      ensures var w := old(wallet).value;
        var fetched := Balances(
          gateway.GetBalance(w.address, USDT, balanceOf),
          gateway.GetBalance(w.address, USDC, balanceOf),
          gateway.GetBalance(w.address, AECoin, balanceOf));
        if store.writable then
          && r == Some(fetched) && wallet == Some(w.(balance := fetched))
          && store.entries == old(store.entries)[WalletService.WalletKey := WalletJson(wallet.value)]
        else
          && wallet == Some(w.(balance := w.balance.Set(USDT, fetched.usdt)))
          && store.entries == old(store.entries)
    {
      var usdt := GetBalance(USDT, balanceOf);
      if usdt.Err? { return None; }
      var usdc := GetBalance(USDC, balanceOf);
      var aecoin := GetBalance(AECoin, balanceOf);
      BalancesExtensional(wallet.value.balance, Balances(usdt.value, usdc.value, aecoin.value));
      r := Some(Balances(usdt.value, usdc.value, aecoin.value));
    }
  }
}
