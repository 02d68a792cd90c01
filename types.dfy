/** The records and closed enumerations of src/types/index.ts. */
module Types {
  import opened Wrappers

  /** The closed set of currencies `'USDT' | 'USDC' | 'AECoin'`. */
  datatype Currency = USDT | USDC | AECoin

  /** Transaction `type`: `'send' | 'receive' | 'topup' | 'bank_transfer'`. */
  datatype TxKind = Send | Receive | Topup | BankTransfer

  /** Transaction `status`: `'pending' | 'confirmed' | 'failed'`. */
  datatype TxStatus = Pending | Confirmed | Failed

  const AllCurrencies: seq<Currency> := [USDT, USDC, AECoin]

  /** The string the source uses for each currency (the object key / union member). */
  function Symbol(c: Currency): string {
    match c
    case USDT => "USDT"
    case USDC => "USDC"
    case AECoin => "AECoin"
  }

  /** Reads a currency symbol back; any other text is not a currency. */
  function ParseCurrency(s: string): (r: Option<Currency>)
    ensures r.Some? ==> Symbol(r.value) == s
  {
    if s == "USDT" then Some(USDT)
    else if s == "USDC" then Some(USDC)
    else if s == "AECoin" then Some(AECoin)
    else None
  }

  lemma SymbolRoundTrip(c: Currency)
    ensures ParseCurrency(Symbol(c)) == Some(c)
  {
    match c
    case USDT =>
    case USDC =>
    case AECoin =>
  }

  /** The record `type` string of each kind. */
  function KindName(k: TxKind): string {
    match k
    case Send => "send"
    case Receive => "receive"
    case Topup => "topup"
    case BankTransfer => "bank_transfer"
  }

  lemma KindNameInjective(a: TxKind, b: TxKind)
    ensures KindName(a) == KindName(b) ==> a == b
  {
  }

  /** `balance: { USDT, USDC, AECoin }`: one amount per currency, always all three. */
  datatype Balances = Balances(usdt: real, usdc: real, aecoin: real) {

    /** `balance[currency]`. */
    function Get(c: Currency): real {
      match c
      case USDT => usdt
      case USDC => usdc
      case AECoin => aecoin
    }

    /** `{ ...balance, [currency]: v }`: rewrites one currency and keeps the others. */
    function Set(c: Currency, v: real): (r: Balances)
      ensures r.Get(c) == v
      ensures forall d :: d != c ==> r.Get(d) == Get(d)
    {
      match c
      case USDT => this.(usdt := v)
      case USDC => this.(usdc := v)
      case AECoin => this.(aecoin := v)
    }

    function Total(): real {
      usdt + usdc + aecoin
    }
  }

  const ZeroBalances: Balances := Balances(0.0, 0.0, 0.0)

  /** Two balance records that agree on every currency are the same record:
      there is no fourth currency to differ in. */
  lemma BalancesExtensional(a: Balances, b: Balances)
    requires forall c :: a.Get(c) == b.Get(c)
    ensures a == b
  {
    assert a.Get(USDT) == b.Get(USDT);
    assert a.Get(USDC) == b.Get(USDC);
    assert a.Get(AECoin) == b.Get(AECoin);
  }

  /** A calendar month as `Date.getFullYear()` and `Date.getMonth()` give it (month 0..11). */
  datatype YearMonth = YearMonth(year: int, month: int)

  predicate ValidMonth(ym: YearMonth) {
    0 <= ym.month < 12
  }

  /** A transaction's ISO timestamp, abstracted to the instant in milliseconds
      (for sorting and windows) and its calendar month (for monthly filters). */
  datatype Timestamp = Timestamp(millis: int, ym: YearMonth)

  /** `bankAccount?: { bankName, accountNumber, accountHolderName, iban }`. */
  datatype BankAccount = BankAccount(
    bankName: string,
    accountNumber: string,
    accountHolderName: string,
    iban: string)

  datatype Transaction = Transaction(
    id: string,
    kind: TxKind,
    amount: real,
    currency: Currency,
    fromAddress: string,
    toAddress: string,
    timestamp: Timestamp,
    status: TxStatus,
    txHash: Option<string>,
    blockNumber: Option<int>,
    bankAccount: Option<BankAccount>)

  /** `mnemonic` and `privateKey` are optional: only present for a wallet made on the device. */
  datatype Wallet = Wallet(
    address: string,
    balance: Balances,
    transactions: seq<Transaction>,
    mnemonic: Option<string>,
    privateKey: Option<string>)

  /** A fresh wallet as create, import and restore build it: zero balances, no transactions. */
  function NewWallet(address: string, mnemonic: string, privateKey: string): (w: Wallet)
    ensures forall c :: w.balance.Get(c) == 0.0
    ensures w.transactions == [] && w.address == address
    ensures w.mnemonic == Some(mnemonic) && w.privateKey == Some(privateKey)
  {
    Wallet(address, ZeroBalances, [], Some(mnemonic), Some(privateKey))
  }

  /** `QRCodeData` as `parseQRCodeData` returns it; `currency` is whatever text followed `currency=`. */
  datatype QRCodeData = QRCodeData(address: string, amount: Option<real>, currency: Option<string>)

  /** `User['address']['state']`. */
  datatype Region = WestBank | Gaza

  datatype PostalAddress = PostalAddress(street: string, city: string, state: Region)

  datatype User = User(
    id: string,
    firstName: string,
    middleName: Option<string>,
    lastName: string,
    dateOfBirth: string,
    address: PostalAddress,
    mobile: string,
    email: string,
    walletAddress: Option<string>,
    createdAt: string,
    updatedAt: string)

  /** An account derived from a recovery phrase (the ethers HD wallet's address and key). */
  datatype Account = Account(address: string, privateKey: string)

  /** An element of the `pma_users` list: the user record plus the password it was registered with. */
  datatype StoredUser = StoredUser(user: User, password: string)

  /** The `pma_saved_credentials` record of the login screen. */
  datatype Credentials = Credentials(email: string, password: string, rememberMe: bool)
}
