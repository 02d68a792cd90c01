/** src/services/WalletService.ts: phrase checks and derivation around the
    BIP-39 and ethers libraries, the secure-store layout of a wallet, address
    display, the `ethereum:` QR format, backup restore and the fee rule.
    The libraries are parameters: `bip39Check` is `bip39.validateMnemonic`
    (`None` when it throws), `derive` is ethers' HD derivation (`None` when it
    throws), `isAddress` is `ethers.isAddress`. */
module WalletService {
  import opened Wrappers
  import opened Types
  import opened Storage
  import JsText
  import JsNumber

  const WalletKey := "pma_wallet"
  const MnemonicKey := "pma_mnemonic"
  const PrivateKeyKey := "pma_private_key"

  datatype WalletError =
    | InvalidMnemonic        // 'Invalid mnemonic phrase'
    | DerivationFailed       // 'Failed to create wallet from mnemonic'
    | StoreFailed            // 'Failed to store wallet securely'
    | InvalidQrAddress       // 'Invalid address for QR code generation'
    | RestoreFailed          // 'Failed to restore wallet from backup'

  /** `validateMnemonic`: the library's verdict, and `false` whenever the library throws. */
  function ValidateMnemonic(mnemonic: string, bip39Check: string -> Option<bool>): (ok: bool)
    ensures ok <==> bip39Check(mnemonic) == Some(true)
  {
    match bip39Check(mnemonic)
    case Some(b) => b
    case None => false
  }

  /** `getWalletFromMnemonic`: an invalid phrase is rejected before any derivation. */
  function GetWalletFromMnemonic(
    mnemonic: string, bip39Check: string -> Option<bool>, derive: string -> Option<Account>)
    : (r: Result<Account, WalletError>)
    ensures !ValidateMnemonic(mnemonic, bip39Check) ==> r == Err(InvalidMnemonic)
    ensures r.Ok? <==> ValidateMnemonic(mnemonic, bip39Check) && derive(mnemonic).Some?
    ensures r.Ok? ==> derive(mnemonic) == Some(r.value)
  {
    if !ValidateMnemonic(mnemonic, bip39Check) then Err(InvalidMnemonic)
    else
      match derive(mnemonic)
      case Some(account) => Ok(account)
      case None => Err(DerivationFailed)
  }

  /** A present, non-empty optional string (`if (wallet.mnemonic)`). */
  predicate Present(o: Option<string>) {
    o.Some? && o.value != ""
  }

  /** The keys `securelyStoreWallet` writes and what it writes under them. */
  function WalletWrites(w: Wallet): (m: map<string, Stored>)
    ensures WalletKey in m && m[WalletKey] == WalletJson(w)
    ensures MnemonicKey in m <==> Present(w.mnemonic)
    ensures PrivateKeyKey in m <==> Present(w.privateKey)
    ensures m.Keys <= {WalletKey, MnemonicKey, PrivateKeyKey}
  {
    map[WalletKey := WalletJson(w)]
    + (if Present(w.mnemonic) then map[MnemonicKey := Text(w.mnemonic.value)] else map[])
    + (if Present(w.privateKey) then map[PrivateKeyKey := Text(w.privateKey.value)] else map[])
  }

  /** The map that performing `tasks` in order writes. */
  function Applied(tasks: seq<(string, Stored)>): map<string, Stored> {
    if tasks == [] then map[] else Applied(tasks[..|tasks| - 1])[tasks[|tasks| - 1].0 := tasks[|tasks| - 1].1]
  }

  lemma AppliedSnoc(tasks: seq<(string, Stored)>, t: (string, Stored))
    ensures Applied(tasks + [t]) == Applied(tasks)[t.0 := t.1]
  {
    assert (tasks + [t])[..|tasks|] == tasks;
  }

  /** `Promise.all(tasks)`: every write is attempted in order; on a store that rejects
      writes none of them lands. */
  method PerformAll(store: KeyValueStore, tasks: seq<(string, Stored)>)
    modifies store
    ensures store.writable == old(store.writable)
    ensures store.entries == if store.writable then old(store.entries) + Applied(tasks) else old(store.entries)
  {
    var i := 0;
    while i < |tasks|
      invariant 0 <= i <= |tasks|
      invariant store.writable == old(store.writable)
      invariant store.entries == if store.writable then old(store.entries) + Applied(tasks[..i]) else old(store.entries)
    {
      var _ := store.SetItem(tasks[i].0, tasks[i].1);
      assert tasks[..i + 1][..i] == tasks[..i];
      i := i + 1;
    }
    assert tasks[..i] == tasks;
  }

  /** `securelyStoreWallet`: collects the writes in `tasks`, then performs them all. */
  method SecurelyStoreWallet(store: KeyValueStore, w: Wallet) returns (r: Result<(), WalletError>)
    modifies store
    ensures store.writable == old(store.writable)
    ensures r.Ok? <==> store.writable
    ensures store.entries == if r.Ok? then old(store.entries) + WalletWrites(w) else old(store.entries)
  {
    var tasks: seq<(string, Stored)> := [(WalletKey, WalletJson(w))];
    assert Applied(tasks) == map[WalletKey := WalletJson(w)] by { assert tasks[..0] == []; }
    if Present(w.mnemonic) {
      AppliedSnoc(tasks, (MnemonicKey, Text(w.mnemonic.value)));
      tasks := tasks + [(MnemonicKey, Text(w.mnemonic.value))];
    }
    if Present(w.privateKey) {
      AppliedSnoc(tasks, (PrivateKeyKey, Text(w.privateKey.value)));
      tasks := tasks + [(PrivateKeyKey, Text(w.privateKey.value))];
    }
    assert Applied(tasks) == WalletWrites(w);
    PerformAll(store, tasks);
    r := if store.writable then Ok(()) else Err(StoreFailed);
  }

  /** `getStoredWallet`: the wallet record under `pma_wallet`; `None` when the key is
      absent, holds the empty string, or holds text that is not a wallet record. */
  function GetStoredWallet(store: KeyValueStore): (r: Option<Wallet>)
    reads store
    ensures r.Some? <==> WalletKey in store.entries && store.entries[WalletKey].WalletJson?
    ensures r.Some? ==> store.entries[WalletKey] == WalletJson(r.value)
  {
    match store.Get(WalletKey)
    case Some(WalletJson(w)) => Some(w)
    case _ => None
  }

  const WalletKeys: seq<string> := [WalletKey, MnemonicKey, PrivateKeyKey]

  /** The map left after deleting `keys` one after the other. */
  function RemovedAll(m: map<string, Stored>, keys: seq<string>): map<string, Stored> {
    if keys == [] then m else RemovedAll(m, keys[..|keys| - 1]) - {keys[|keys| - 1]}
  }

  /** `clearWalletData`: deletes the three wallet keys; a failed delete is only logged. */
  method ClearWalletData(store: KeyValueStore)
    modifies store
    ensures store.writable == old(store.writable)
    ensures store.entries == if store.writable
      then old(store.entries) - {WalletKey, MnemonicKey, PrivateKeyKey}
      else old(store.entries)
    ensures store.writable ==> GetStoredWallet(store) == None
  {
    var i := 0;
    while i < |WalletKeys|
      invariant 0 <= i <= |WalletKeys|
      invariant store.writable == old(store.writable)
      invariant store.entries == if store.writable
        then RemovedAll(old(store.entries), WalletKeys[..i])
        else old(store.entries)
    {
      var _ := store.RemoveItem(WalletKeys[i]);
      assert WalletKeys[..i + 1][..i] == WalletKeys[..i];
      i := i + 1;
    }
    ghost var m := old(store.entries);
    assert RemovedAll(m, WalletKeys[..1]) == m - {WalletKey} by {
      assert WalletKeys[..1][..0] == [];
    }
    assert RemovedAll(m, WalletKeys[..2]) == m - {WalletKey} - {MnemonicKey} by {
      assert WalletKeys[..2][..1] == WalletKeys[..1];
    }
    assert RemovedAll(m, WalletKeys[..3]) == m - {WalletKey} - {MnemonicKey} - {PrivateKeyKey} by {
      assert WalletKeys[..3][..2] == WalletKeys[..2];
    }
    assert WalletKeys[..i] == WalletKeys[..3];
  }

  /** The secure-store round trip: a stored wallet reads back unchanged. */
  method StoreThenLoad(store: KeyValueStore, w: Wallet) returns (loaded: Option<Wallet>)
    modifies store
    ensures store.writable ==> loaded == Some(w)
    ensures !store.writable ==> loaded == GetStoredWallet(store)
  {
    var _ := SecurelyStoreWallet(store, w);
    loaded := GetStoredWallet(store);
  }

  /** `formatAddress`: "" for "", the address itself up to 10 characters,
      otherwise the first 6 and the last 4 around "...". */
  function FormatAddress(address: string): (r: string)
    ensures address == "" ==> r == ""
    ensures |address| <= 10 ==> r == address
    ensures |address| > 10 ==>
      |r| == 13 && r[..6] == address[..6] && r[6..9] == "..." && r[9..] == address[|address| - 4..]
  {
    if address == "" then ""
    else if |address| <= 10 then address
    else JsText.Substring(address, 0, 6) + "..." + JsText.SubstringFrom(address, |address| - 4)
  }

  /** `if (amount && currency)`: both present, the amount not 0, the currency not "". */
  predicate HasQrParams(amount: Option<JsNumber.Decimal>, currency: Option<string>) {
    && amount.Some? && JsNumber.AllDigits(amount.value.intDigits)
    && JsNumber.AllDigits(amount.value.fracDigits) && JsNumber.Value(amount.value) != 0.0
    && currency.Some? && currency.value != ""
  }

  const QrScheme := "ethereum:"

  /** `generateQRCodeData`: `ethereum:<address>`, followed by `?amount=…&currency=…`
      only when both an amount other than 0 and a currency are given. */
  function GenerateQRCodeData(
    address: string, amount: Option<JsNumber.Decimal>, currency: Option<string>,
    isAddress: string -> bool)
    : (r: Result<string, WalletError>)
    ensures !isAddress(address) <==> r == Err(InvalidQrAddress)
    ensures isAddress(address) && !HasQrParams(amount, currency) ==> r == Ok(QrScheme + address)
    ensures isAddress(address) && HasQrParams(amount, currency) ==>
      r == Ok(QrScheme + address + "?" + QrQuery(amount.value, currency.value))
  {
    if !isAddress(address) then Err(InvalidQrAddress)
    else if HasQrParams(amount, currency) then
      Ok(QrScheme + address + "?" + QrQuery(amount.value, currency.value))
    else Ok(QrScheme + address)
  }

  function QrQuery(amount: JsNumber.Decimal, currency: string): string {
    "amount=" + JsNumber.Render(amount) + "&currency=" + currency
  }

  /** One `name=value` pair of `URLSearchParams`: split at the first `=`,
      with `+` read as a space. */
  function DecodeComponent(s: string): (r: string)
    ensures |r| == |s|
    ensures '+' !in s ==> r == s
    ensures '+' !in r
    ensures forall i :: 0 <= i < |s| && s[i] != '+' ==> r[i] == s[i]
    ensures forall i :: 0 <= i < |s| ==> (r[i] == ' ' <==> s[i] == ' ' || s[i] == '+')
  {
    seq(|s|, i requires 0 <= i < |s| => if s[i] == '+' then ' ' else s[i])
  }

  function ParsePair(segment: string): (string, string) {
    match JsText.IndexOf(segment, '=')
    case None => (DecodeComponent(segment), "")
    case Some(i) => (DecodeComponent(segment[..i]), DecodeComponent(segment[i + 1..]))
  }

  /** `new URLSearchParams(query)`: the `&`-separated non-empty segments as pairs, in order. */
  function ParseQuery(query: string): seq<(string, string)> {
    ParsePairs(JsText.Split(query, '&'))
  }

  function ParsePairs(segments: seq<string>): seq<(string, string)> {
    if segments == [] then []
    else if segments[0] == "" then ParsePairs(segments[1..])
    else [ParsePair(segments[0])] + ParsePairs(segments[1..])
  }

  /** `params.get(name)`: the value of the first pair with that name. */
  function QueryGet(params: seq<(string, string)>, name: string): (r: Option<string>)
    ensures r.None? <==> forall k :: 0 <= k < |params| ==> params[k].0 != name
  {
    if params == [] then None
    else if params[0].0 == name then Some(params[0].1)
    else QueryGet(params[1..], name)
  }

  /** A found value belongs to the first pair carrying the name. */
  lemma {:induction false} QueryGetIsFirstMatch(params: seq<(string, string)>, name: string)
    ensures QueryGet(params, name).Some? ==>
              exists k :: 0 <= k < |params| && params[k] == (name, QueryGet(params, name).value)
                          && forall j :: 0 <= j < k ==> params[j].0 != name
    decreases |params|
  {
    if params != [] && params[0].0 != name {
      var r := QueryGet(params[1..], name);
      QueryGetIsFirstMatch(params[1..], name);
      if r.Some? {
        var k :| 0 <= k < |params[1..]| && params[1..][k] == (name, r.value)
          && forall j :: 0 <= j < k ==> params[1..][j].0 != name;
        assert params[k + 1] == (name, r.value);
        forall j | 0 <= j < k + 1
          ensures params[j].0 != name
        {
          if j > 0 {
            assert params[j] == params[1..][j - 1];
          }
        }
      }
    } else if params != [] {
      assert params[0] == (name, QueryGet(params, name).value);
    }
  }

  /** `parseFloat(text || '0')`, kept only when it is a number. */
  function AmountOf(text: string): Option<real> {
    match JsNumber.ParseFloat(if text == "" then "0" else text)
    case None => None
    case Some(d) => Some(JsNumber.Value(d))
  }

  /** The `amount` and `currency` that `parseQRCodeData` takes from a query string. */
  function QrParams(query: string): (Option<real>, Option<string>) {
    var params := ParseQuery(query);
    var amount := match QueryGet(params, "amount")
      case None => None
      case Some(text) => AmountOf(text);
    (amount, QueryGet(params, "currency"))
  }

  /** `parseQRCodeData`: an `ethereum:` URI gives the text before the first `?` as the
      address and reads the query up to the next `?`; anything else must be a bare address.
      The result is `None` unless its address is valid. */
  function ParseQRCodeData(qrData: string, isAddress: string -> bool): (r: Option<QRCodeData>)
    ensures r.Some? ==> isAddress(r.value.address)
    ensures !JsText.StartsWith(qrData, QrScheme) ==>
      r == if isAddress(qrData) then Some(QRCodeData(qrData, None, None)) else None
  {
    if JsText.StartsWith(qrData, QrScheme) then
      var parts := JsText.Split(JsText.SubstringFrom(qrData, 9), '?');
      var address := parts[0];
      var params := if |parts| > 1 && parts[1] != "" then QrParams(parts[1]) else (None, None);
      if isAddress(address) then Some(QRCodeData(address, params.0, params.1)) else None
    else if isAddress(qrData) then Some(QRCodeData(qrData, None, None))
    else None
  }

  lemma SymbolHasNoSeparator(c: Currency)
    ensures '?' !in Symbol(c) && '&' !in Symbol(c) && '+' !in Symbol(c) && Symbol(c) != ""
  {
  }

  lemma ParsePairOf(name: string, value: string)
    requires '=' !in name && '+' !in name && '+' !in value
    ensures ParsePair(name + "=" + value) == (name, value)
  {
    var seg := name + "=" + value;
    assert seg[|name|] == '=' && seg[..|name|] == name && seg[|name| + 1..] == value;
    assert JsText.IndexOf(seg, '=') == Some(|name|);
  }

  lemma AmountSegmentHasNoAmpersand(d: JsNumber.Decimal)
    requires JsNumber.WellFormed(d)
    ensures '&' !in "amount=" + JsNumber.Render(d)
  {
    JsNumber.RenderHasNoQuerySeparator(d);
  }

  lemma CurrencySegmentHasNoAmpersand(c: Currency)
    ensures '&' !in "currency=" + Symbol(c)
  {
    SymbolHasNoSeparator(c);
  }

  lemma QrQueryHasNoQuestionMark(d: JsNumber.Decimal, c: Currency)
    requires JsNumber.WellFormed(d)
    ensures '?' !in QrQuery(d, Symbol(c))
  {
    JsNumber.RenderHasNoQuerySeparator(d);
    SymbolHasNoSeparator(c);
  }

  /** `URLSearchParams` splits the query `generateQRCodeData` writes into its two segments. */
  lemma SplitQrQuery(d: JsNumber.Decimal, c: Currency)
    requires JsNumber.WellFormed(d)
    ensures JsText.Split(QrQuery(d, Symbol(c)), '&') == ["amount=" + JsNumber.Render(d), "currency=" + Symbol(c)]
  {
    var first := "amount=" + JsNumber.Render(d);
    var second := "currency=" + Symbol(c);
    assert QrQuery(d, Symbol(c)) == first + ['&'] + second;
    AmountSegmentHasNoAmpersand(d);
    CurrencySegmentHasNoAmpersand(c);
    JsText.SplitAtFirst(first, '&', second);
    JsText.SplitNoSeparator(second, '&');
  }

  lemma ParseTwoSegments(first: string, second: string)
    requires first != "" && second != ""
    ensures ParsePairs([first, second]) == [ParsePair(first), ParsePair(second)]
  {
    assert [first, second][1..] == [second];
    assert [second][1..] == [];
    assert ParsePairs([second]) == [ParsePair(second)] + ParsePairs([]);
  }

  lemma ParseAmountSegment(d: JsNumber.Decimal)
    requires JsNumber.WellFormed(d)
    ensures ParsePair("amount=" + JsNumber.Render(d)) == ("amount", JsNumber.Render(d))
  {
    JsNumber.RenderHasNoQuerySeparator(d);
    ParsePairOf("amount", JsNumber.Render(d));
    assert "amount" + "=" + JsNumber.Render(d) == "amount=" + JsNumber.Render(d);
  }

  lemma ParseCurrencySegment(c: Currency)
    ensures ParsePair("currency=" + Symbol(c)) == ("currency", Symbol(c))
  {
    SymbolHasNoSeparator(c);
    ParsePairOf("currency", Symbol(c));
    assert "currency" + "=" + Symbol(c) == "currency=" + Symbol(c);
  }

  /** How `URLSearchParams` reads the query that `generateQRCodeData` writes. */
  lemma ParseQrQuery(d: JsNumber.Decimal, c: Currency)
    requires JsNumber.WellFormed(d)
    ensures ParseQuery(QrQuery(d, Symbol(c))) == [("amount", JsNumber.Render(d)), ("currency", Symbol(c))]
  {
    SplitQrQuery(d, c);
    ParseTwoSegments("amount=" + JsNumber.Render(d), "currency=" + Symbol(c));
    ParseAmountSegment(d);
    ParseCurrencySegment(c);
  }

  /** `parseQRCodeData` on `ethereum:<address>?<query>` with no other `?`. */
  lemma ParseUriWithQuery(address: string, q: string, isAddress: string -> bool)
    requires isAddress(address) && '?' !in address && '?' !in q && q != ""
    ensures ParseQRCodeData(QrScheme + address + "?" + q, isAddress)
      == Some(QRCodeData(address, QrParams(q).0, QrParams(q).1))
  {
    var s := QrScheme + address + "?" + q;
    assert JsText.StartsWith(s, QrScheme) by { assert s[..9] == QrScheme; }
    assert JsText.SubstringFrom(s, 9) == address + ['?'] + q;
    JsText.SplitAtFirst(address, '?', q);
    JsText.SplitNoSeparator(q, '?');
  }

  lemma AmountOfRendered(d: JsNumber.Decimal)
    requires JsNumber.WellFormed(d)
    ensures AmountOf(JsNumber.Render(d)) == Some(JsNumber.Value(d))
  {
    JsNumber.ParseRender(d);
    assert JsNumber.Render(d) != "";
  }

  lemma QrParamsOfPairs(query: string, amountText: string, currency: string)
    requires ParseQuery(query) == [("amount", amountText), ("currency", currency)]
    ensures QrParams(query) == (AmountOf(amountText), Some(currency))
  {
    var params := ParseQuery(query);
    assert QueryGet(params, "amount") == Some(amountText);
    assert params[1..] == [("currency", currency)];
    assert QueryGet(params, "currency") == Some(currency);
  }

  lemma QrParamsOfQuery(d: JsNumber.Decimal, c: Currency)
    requires JsNumber.WellFormed(d)
    ensures QrParams(QrQuery(d, Symbol(c))) == (Some(JsNumber.Value(d)), Some(Symbol(c)))
  {
    ParseQrQuery(d, c);
    QrParamsOfPairs(QrQuery(d, Symbol(c)), JsNumber.Render(d), Symbol(c));
    AmountOfRendered(d);
  }

  /** The QR round trip: for a valid address, a non-zero amount and one of the three
      currency symbols, parsing the generated text gives back all three. */
  lemma {:induction false} QrRoundTrip(
    address: string, d: JsNumber.Decimal, c: Currency, isAddress: string -> bool)
    requires isAddress(address) && '?' !in address
    requires JsNumber.WellFormed(d) && JsNumber.Value(d) != 0.0
    ensures GenerateQRCodeData(address, Some(d), Some(Symbol(c)), isAddress).Ok?
    ensures ParseQRCodeData(GenerateQRCodeData(address, Some(d), Some(Symbol(c)), isAddress).value, isAddress)
      == Some(QRCodeData(address, Some(JsNumber.Value(d)), Some(Symbol(c))))
  {
    var q := QrQuery(d, Symbol(c));
    SymbolHasNoSeparator(c);
    assert GenerateQRCodeData(address, Some(d), Some(Symbol(c)), isAddress) == Ok(QrScheme + address + "?" + q);
    QrQueryHasNoQuestionMark(d, c);
    ParseUriWithQuery(address, q, isAddress);
    QrParamsOfQuery(d, c);
  }

  /** A URI without parameters, as written for a zero or absent amount, parses to the bare address. */
  lemma {:induction false} QrRoundTripAddressOnly(
    address: string, amount: Option<JsNumber.Decimal>, currency: Option<string>, isAddress: string -> bool)
    requires isAddress(address) && '?' !in address
    requires !HasQrParams(amount, currency)
    ensures GenerateQRCodeData(address, amount, currency, isAddress).Ok?
    ensures ParseQRCodeData(GenerateQRCodeData(address, amount, currency, isAddress).value, isAddress)
      == Some(QRCodeData(address, None, None))
  {
    var s := QrScheme + address;
    assert JsText.StartsWith(s, QrScheme) by { assert s[..9] == QrScheme; }
    assert JsText.SubstringFrom(s, 9) == address;
    JsText.SplitNoSeparator(address, '?');
  }

  /** The fields `restoreWalletFromBackup` reads from the parsed backup JSON. */
  datatype BackupData = BackupData(mnemonic: Option<string>, address: Option<string>)

  /** `restoreWalletFromBackup`: `backup` is `None` when `JSON.parse` throws. Every failure
      is reported as the one error 'Failed to restore wallet from backup'. */
  function RestoreWalletFromBackup(
    backup: Option<BackupData>, bip39Check: string -> Option<bool>, derive: string -> Option<Account>)
    : (r: Result<Wallet, WalletError>)
    ensures r.Err? ==> r.error == RestoreFailed
    ensures r.Ok? <==>
      && backup.Some? && Present(backup.value.mnemonic) && Present(backup.value.address)
      && ValidateMnemonic(backup.value.mnemonic.value, bip39Check)
      && derive(backup.value.mnemonic.value).Some?
      && derive(backup.value.mnemonic.value).value.address == backup.value.address.value
    ensures r.Ok? ==>
      && r.value == NewWallet(backup.value.address.value, backup.value.mnemonic.value,
                              derive(backup.value.mnemonic.value).value.privateKey)
  {
    if backup.None? then Err(RestoreFailed)
    else if !Present(backup.value.mnemonic) || !Present(backup.value.address) then Err(RestoreFailed)
    else if !ValidateMnemonic(backup.value.mnemonic.value, bip39Check) then Err(RestoreFailed)
    else
      match GetWalletFromMnemonic(backup.value.mnemonic.value, bip39Check, derive)
      case Err(_) => Err(RestoreFailed)
      case Ok(account) =>
        if account.address != backup.value.address.value then Err(RestoreFailed)
        else Ok(NewWallet(account.address, backup.value.mnemonic.value, account.privateKey))
  }

  /** `calculateTransactionFee`: base fee 0.001, halved for AECoin, 20% more above 1000. */
  function CalculateTransactionFee(amount: real, currency: Currency): (fee: real)
    ensures 0.0005 <= fee <= 0.0012
    ensures (amount > 1000.0) == (fee == 0.0012 || fee == 0.0006)
    ensures currency == AECoin <==> fee <= 0.0006
    ensures fee == if amount > 1000.0 then (if currency == AECoin then 0.0006 else 0.0012)
                   else (if currency == AECoin then 0.0005 else 0.001)
  {
    var baseFee := 0.001;
    var currencyMultiplier := if currency == AECoin then 0.5 else 1.0;
    var amountMultiplier := if amount > 1000.0 then 1.2 else 1.0;
    baseFee * currencyMultiplier * amountMultiplier
  }

  /** At the same amount, AECoin pays half the fee of USDT or USDC. */
  lemma AECoinFeeIsHalf(amount: real, other: Currency)
    requires other != AECoin
    ensures CalculateTransactionFee(amount, AECoin) * 2.0 == CalculateTransactionFee(amount, other)
  {
  }
}
