/** src/services/BlockchainService.ts: the decisions the gateway takes around
    its ethers calls. The network itself is a set of parameters: `balanceOf`
    (an ERC-20 balance query, `None` when it throws), `transfer` (a signed
    ERC-20 transfer), `queryEvents` (the Transfer events of the last 1000
    blocks, with their block times, `None` when any of those queries throws)
    and the receipt lookup. */
module BlockchainService {
  import opened Wrappers
  import opened Types

  const PlaceholderContract := "0x0000000000000000000000000000000000000000"

  /** `STABLECOIN_CONTRACTS`. */
  function ContractAddress(c: Currency): string {
    match c
    case USDT => "0xdAC17F958D2ee523a2206206994597C13D831ec7"
    case USDC => "0xA0b86a33E6c0113b7c13c8B2f8B56D3e1Fc5E6e8"
    case AECoin => PlaceholderContract
  }

  /** `!contractAddress || contractAddress === '0x000…0'`. */
  predicate IsPlaceholder(c: Currency) {
    ContractAddress(c) == "" || ContractAddress(c) == PlaceholderContract
  }

  /** Only the AECoin contract is the placeholder. */
  lemma PlaceholderIsAECoin(c: Currency)
    ensures IsPlaceholder(c) <==> c == AECoin
  {
    match c
    case USDT =>
      assert ContractAddress(c)[2] != PlaceholderContract[2];
    case USDC =>
      assert ContractAddress(c)[2] != PlaceholderContract[2];
    case AECoin =>
  }

  datatype GatewayError = WalletNotInitialised | TransferRejected(reason: string)

  datatype Direction = Incoming | Outgoing

  /** One `Transfer` event as `queryFilter` returns it, with its block's time. */
  datatype TransferEvent = TransferEvent(
    txHash: string, from: string, to: string, value: real, blockNumber: int,
    time: Timestamp, hasArgs: bool)

  /** What `getTransactionReceipt` gives: a receipt with its status, none yet, or an error. */
  datatype ReceiptLookup = NoReceipt | Receipt(status: int) | LookupFailed

  /** The record `getTransactionHistory` pushes for one event. */
  function EventRecord(e: TransferEvent, kind: TxKind, c: Currency): (t: Transaction)
    ensures t.id == e.txHash && t.txHash == Some(e.txHash) && t.status == Confirmed
    ensures t.kind == kind && t.currency == c && t.amount == e.value && t.timestamp == e.time
  {
    Transaction(e.txHash, kind, e.value, c, e.from, e.to, e.time, Confirmed,
                Some(e.txHash), Some(e.blockNumber), None)
  }

  /** The records for the events that carry arguments, in event order. */
  function EventRecords(events: seq<TransferEvent>, kind: TxKind, c: Currency): seq<Transaction> {
    if events == [] then []
    else
      var last := events[|events| - 1];
      EventRecords(events[..|events| - 1], kind, c) + (if last.hasArgs then [EventRecord(last, kind, c)] else [])
  }

  /** The records of the currencies `cs` (received before sent for each), or `None`
      as soon as one query fails. */
  function CollectHistory(
    address: string, cs: seq<Currency>, queryEvents: (string, Currency, Direction) -> Option<seq<TransferEvent>>)
    : Option<seq<Transaction>>
  {
    if cs == [] then Some([])
    else
      var c := cs[|cs| - 1];
      match CollectHistory(address, cs[..|cs| - 1], queryEvents)
      case None => None
      case Some(acc) =>
        if IsPlaceholder(c) then Some(acc)
        else if queryEvents(address, c, Incoming).None? || queryEvents(address, c, Outgoing).None? then None
        else Some(acc + EventRecords(queryEvents(address, c, Incoming).value, Receive, c)
                      + EventRecords(queryEvents(address, c, Outgoing).value, Send, c))
  }

  predicate SortedNewestFirst(s: seq<Transaction>) {
    forall i, j :: 0 <= i < j < |s| ==> s[i].timestamp.millis >= s[j].timestamp.millis
  }

  /** Puts `t` before the first record that is not newer than it. */
  function InsertNewest(t: Transaction, s: seq<Transaction>): (r: seq<Transaction>)
    requires SortedNewestFirst(s)
    ensures |r| == |s| + 1 && (r[0] == t || (s != [] && r[0] == s[0]))
    ensures SortedNewestFirst(r)
    ensures multiset(r) == multiset(s) + multiset{t}
  {
    if s == [] || s[0].timestamp.millis <= t.timestamp.millis then [t] + s
    else
      var rest := InsertNewest(t, s[1..]);
      assert s == [s[0]] + s[1..];
      assert s[0].timestamp.millis >= rest[0].timestamp.millis;
      [s[0]] + rest
  }

  /** `transactions.sort((a, b) => b.time - a.time)`: a stable sort, newest first. */
  function SortNewestFirst(s: seq<Transaction>): (r: seq<Transaction>)
    ensures SortedNewestFirst(r)
    ensures multiset(r) == multiset(s)
  {
    if s == [] then []
    else
      assert s == [s[0]] + s[1..];
      InsertNewest(s[0], SortNewestFirst(s[1..]))
  }

  /** The records stamped at instant `k`, in their order in `s`. */
  function AtInstant(s: seq<Transaction>, k: int): seq<Transaction>
    decreases |s|
  {
    if s == [] then []
    else (if s[0].timestamp.millis == k then [s[0]] else []) + AtInstant(s[1..], k)
  }

  /** Inserting `t` keeps it in front of the records stamped at the same instant. */
  lemma {:induction false} InsertNewestStable(t: Transaction, s: seq<Transaction>, k: int)
    requires SortedNewestFirst(s)
    ensures AtInstant(InsertNewest(t, s), k) == AtInstant([t] + s, k)
    decreases |s|
  {
    var r := InsertNewest(t, s);
    if s == [] || s[0].timestamp.millis <= t.timestamp.millis {
    } else {
      var rest := InsertNewest(t, s[1..]);
      assert r == [s[0]] + rest;
      assert r[1..] == rest;
      InsertNewestStable(t, s[1..], k);
      assert ([t] + s[1..])[1..] == s[1..];
      assert ([t] + s)[1..] == s;
    }
  }

  /** The sort is stable: records stamped at the same instant keep their input order. */
  lemma {:induction false} SortNewestFirstStable(s: seq<Transaction>, k: int)
    ensures AtInstant(SortNewestFirst(s), k) == AtInstant(s, k)
    decreases |s|
  {
    if s != [] {
      var sorted := SortNewestFirst(s[1..]);
      SortNewestFirstStable(s[1..], k);
      InsertNewestStable(s[0], sorted, k);
      assert ([s[0]] + sorted)[1..] == sorted;
    }
  }

  /** The gateway's static state: the provider and the connected signer. */
  class ChainGateway {
    var providerReady: bool
    var signer: Option<Account>

    /** Before `initializeWallet` both fields are unset. */
    constructor ()
      ensures !providerReady && signer == None
    {
      providerReady := false;
      signer := None;
    }

    /** `initializeWallet`: creates the provider and connects the wallet to it. */
    method InitializeWallet(account: Account)
      modifies this
      ensures providerReady && signer == Some(account)
    {
      providerReady := true;
      signer := Some(account);
    }

    /** `getBalance`: never fails; 0 without a provider, for the placeholder contract
        and whenever the query throws. */
    function GetBalance(address: string, c: Currency, balanceOf: (string, string) -> Option<real>): (r: real)
      reads this
      ensures !providerReady || IsPlaceholder(c) ==> r == 0.0
      ensures providerReady && !IsPlaceholder(c) ==> r == balanceOf(ContractAddress(c), address).GetOr(0.0)
    {
      if !providerReady then 0.0
      else if IsPlaceholder(c) then 0.0
      else
        match balanceOf(ContractAddress(c), address)
        case Some(b) => b
        case None => 0.0
    }

    /** `sendTransaction`: fails without a connected wallet, returns the mock hash for
        the placeholder contract, and otherwise passes on the transfer's hash or error. */
    function SendTransaction(
      from: string, to: string, amount: real, c: Currency,
      transfer: (string, string, real) -> Result<string, string>, mockHash: string)
      : (r: Result<string, GatewayError>)
      reads this
      ensures signer.None? ==> r == Err(WalletNotInitialised)
      ensures signer.Some? && IsPlaceholder(c) ==> r == Ok(mockHash)
      ensures signer.Some? && !IsPlaceholder(c) ==>
        (r.Ok? <==> transfer(ContractAddress(c), to, amount).Ok?)
        && (r.Ok? ==> r.value == transfer(ContractAddress(c), to, amount).value)
    {
      if signer.None? then Err(WalletNotInitialised)
      else if IsPlaceholder(c) then Ok(mockHash)
      else
        match transfer(ContractAddress(c), to, amount)
        case Ok(hash) => Ok(hash)
        case Err(reason) => Err(TransferRejected(reason))
    }

    /** What `getTransactionHistory` returns: `[]` without a provider or when any query
        fails, otherwise every collected record, newest first. */
    function History(address: string, queryEvents: (string, Currency, Direction) -> Option<seq<TransferEvent>>)
      : seq<Transaction>
      reads this
    {
      if !providerReady then []
      else
        match CollectHistory(address, AllCurrencies, queryEvents)
        case None => []
        case Some(records) => SortNewestFirst(records)
    }

    /** `getTransactionHistory`: loops over the contracts, skipping the placeholder,
        pushes a record per received and per sent event, then sorts. */
    method GetTransactionHistory(
      address: string, queryEvents: (string, Currency, Direction) -> Option<seq<TransferEvent>>)
      returns (txs: seq<Transaction>)
      ensures txs == History(address, queryEvents)
    {
      if !providerReady {
        return [];
      }
      var transactions: seq<Transaction> := [];
      var i := 0;
      while i < |AllCurrencies|
        invariant 0 <= i <= |AllCurrencies|
        invariant CollectHistory(address, AllCurrencies[..i], queryEvents) == Some(transactions)
      {
        var c := AllCurrencies[i];
        CollectHistoryStep(address, AllCurrencies, i, queryEvents);
        if !IsPlaceholder(c) {
          var received := queryEvents(address, c, Incoming);
          var sent := queryEvents(address, c, Outgoing);
          if received.None? || sent.None? {
            CollectHistoryFailureSticks(address, AllCurrencies, i + 1, queryEvents);
            return [];
          }
          transactions := PushEventRecords(transactions, received.value, Receive, c);
          transactions := PushEventRecords(transactions, sent.value, Send, c);
        }
        i := i + 1;
      }
      assert AllCurrencies[..i] == AllCurrencies;
      txs := SortNewestFirst(transactions);
    }

    /** `getTransactionStatus`: pending without a receipt, confirmed for receipt status 1,
        failed for any other status, without a provider, or when the lookup throws. */
    function GetTransactionStatus(lookup: ReceiptLookup): (s: TxStatus)
      reads this
      ensures s == Pending <==> providerReady && lookup == NoReceipt
      ensures s == Confirmed <==> providerReady && lookup == Receipt(1)
    {
      if !providerReady then Failed
      else
        match lookup
        case LookupFailed => Failed
        case NoReceipt => Pending
        case Receipt(status) => if status == 1 then Confirmed else Failed
    }
  }

  /** The loop over one event list: pushes a record for each event that has arguments. */
  method PushEventRecords(acc: seq<Transaction>, events: seq<TransferEvent>, kind: TxKind, c: Currency)
    returns (r: seq<Transaction>)
    ensures r == acc + EventRecords(events, kind, c)
  {
    r := acc;
    var k := 0;
    while k < |events|
      invariant 0 <= k <= |events|
      invariant r == acc + EventRecords(events[..k], kind, c)
    {
      assert events[..k + 1][..k] == events[..k];
      if events[k].hasArgs {
        r := r + [EventRecord(events[k], kind, c)];
      }
      k := k + 1;
    }
    assert events[..k] == events;
  }

  /** Once one query has failed, the whole collection has failed. */
  lemma {:induction false} CollectHistoryFailureSticks(
    address: string, cs: seq<Currency>, n: nat,
    queryEvents: (string, Currency, Direction) -> Option<seq<TransferEvent>>)
    requires n <= |cs| && CollectHistory(address, cs[..n], queryEvents).None?
    ensures CollectHistory(address, cs, queryEvents).None?
    decreases |cs|
  {
    if n == |cs| {
      assert cs[..n] == cs;
    } else {
      assert cs[..|cs| - 1][..n] == cs[..n];
      CollectHistoryFailureSticks(address, cs[..|cs| - 1], n, queryEvents);
    }
  }

  lemma CollectHistoryStep(
    address: string, cs: seq<Currency>, i: nat,
    queryEvents: (string, Currency, Direction) -> Option<seq<TransferEvent>>)
    requires i < |cs|
    ensures CollectHistory(address, cs[..i + 1], queryEvents) ==
      match CollectHistory(address, cs[..i], queryEvents)
      case None => None
      case Some(acc) =>
        if IsPlaceholder(cs[i]) then Some(acc)
        else if queryEvents(address, cs[i], Incoming).None? || queryEvents(address, cs[i], Outgoing).None? then None
        else Some(acc + EventRecords(queryEvents(address, cs[i], Incoming).value, Receive, cs[i])
                      + EventRecords(queryEvents(address, cs[i], Outgoing).value, Send, cs[i]))
  {
    assert cs[..i + 1][..i] == cs[..i];
  }

  lemma {:induction false} EventRecordsFacts(events: seq<TransferEvent>, kind: TxKind, c: Currency)
    ensures forall t :: t in EventRecords(events, kind, c) ==>
      t.status == Confirmed && t.txHash == Some(t.id) && t.currency == c && t.kind == kind
  {
    if events != [] {
      EventRecordsFacts(events[..|events| - 1], kind, c);
    }
  }

  /** Every collected record is a confirmed record of a real contract whose id is its hash. */
  lemma {:induction false} CollectHistoryFacts(
    address: string, cs: seq<Currency>, queryEvents: (string, Currency, Direction) -> Option<seq<TransferEvent>>)
    requires CollectHistory(address, cs, queryEvents).Some?
    ensures forall t :: t in CollectHistory(address, cs, queryEvents).value ==>
      t.status == Confirmed && t.txHash == Some(t.id) && !IsPlaceholder(t.currency) && t.currency in cs
  {
    if cs != [] {
      var c := cs[|cs| - 1];
      CollectHistoryFacts(address, cs[..|cs| - 1], queryEvents);
      if !IsPlaceholder(c) {
        EventRecordsFacts(queryEvents(address, c, Incoming).value, Receive, c);
        EventRecordsFacts(queryEvents(address, c, Outgoing).value, Send, c);
      }
    }
  }

  /** The history: sorted newest first, every record confirmed with id equal to its hash,
      never an AECoin record, and `[]` whenever any event query fails. */
  lemma HistoryFacts(
    gateway: ChainGateway, address: string,
    queryEvents: (string, Currency, Direction) -> Option<seq<TransferEvent>>)
    ensures SortedNewestFirst(gateway.History(address, queryEvents))
    ensures forall t :: t in gateway.History(address, queryEvents) ==>
      t.status == Confirmed && t.txHash == Some(t.id) && t.currency != AECoin
    ensures CollectHistory(address, AllCurrencies, queryEvents).None? ==> gateway.History(address, queryEvents) == []
  {
    var h := gateway.History(address, queryEvents);
    if gateway.providerReady && CollectHistory(address, AllCurrencies, queryEvents).Some? {
      var records := CollectHistory(address, AllCurrencies, queryEvents).value;
      CollectHistoryFacts(address, AllCurrencies, queryEvents);
      forall t | t in h
        ensures t.status == Confirmed && t.txHash == Some(t.id) && t.currency != AECoin
      {
        assert t in multiset(h);
        assert t in multiset(records);
        PlaceholderIsAECoin(AECoin);
      }
    }
  }
}
