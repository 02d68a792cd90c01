/** src/screens/BankTransferScreen.tsx: the bank-transfer form. Its state is the
    amount text, the chosen currency, the amount error and the bank account being
    edited; the wallet comes from the wallet session. The effect that re-runs
    `validateAmount` whenever the amount, the currency or the wallet changes is
    folded into each method that changes one of them. */
module BankTransfer {
  import opened Wrappers
  import opened Types
  import JsText
  import JsNumber

  /** The flat transfer fee in dollars. */
  const TransferFee: real := 2.5

  /** The smallest amount a bank transfer may move. */
  const MinimumTransfer: real := 10.0

  /** The screen's bank-account record; `branchName` is optional here. */
  datatype ScreenBankAccount = ScreenBankAccount(
    bankName: string, accountNumber: string, accountHolderName: string, iban: string, branchName: Option<string>)

  const DefaultBankAccount := ScreenBankAccount(
    "Palestine Monetary Authority", "", "", "", Some("Ramallah Main Branch"))

  const SavedBankAccount := ScreenBankAccount(
    "Palestine Monetary Authority", "1234567890", "Your Account", "PS92PALS000000001234567890",
    Some("Ramallah Main Branch"))

  /** 'Amount must be greater than 0', 'Insufficient … balance', 'Minimum bank transfer amount is $10'. */
  datatype AmountError = NotPositive | Insufficient(currency: Currency) | BelowMinimum

  /** `wallet?.balance[selectedCurrency] || 0`. */
  function CurrentBalance(wallet: Option<Wallet>, c: Currency): (r: real)
    ensures wallet.None? ==> r == 0.0
    ensures wallet.Some? ==> r == wallet.value.balance.Get(c)
  {
    if wallet.Some? then wallet.value.balance.Get(c) else 0.0
  }

  /** `validateAmount`: no error for an empty field; then, in order, not a positive
      number, more than the wallet holds, less than the minimum. */
  function ValidateAmount(amountValue: string, wallet: Option<Wallet>, c: Currency): (r: Option<AmountError>)
    ensures amountValue == "" ==> r == None
    ensures r == Some(NotPositive) <==>
      amountValue != "" && (JsNumber.ParseNumber(amountValue).None? || JsNumber.ParseNumber(amountValue).value <= 0.0)
    ensures r.Some? && r.value.Insufficient? ==> r.value.currency == c
    ensures r == Some(Insufficient(c)) <==>
      && amountValue != "" && JsNumber.ParseNumber(amountValue).Some?
      && JsNumber.ParseNumber(amountValue).value > 0.0
      && wallet.Some? && JsNumber.ParseNumber(amountValue).value > wallet.value.balance.Get(c)
    ensures r == None <==>
      amountValue == "" ||
      (&& JsNumber.ParseNumber(amountValue).Some?
       && JsNumber.ParseNumber(amountValue).value >= MinimumTransfer
       && (wallet.Some? ==> JsNumber.ParseNumber(amountValue).value <= wallet.value.balance.Get(c)))
    ensures r == Some(BelowMinimum) <==>
      && amountValue != "" && JsNumber.ParseNumber(amountValue).Some?
      && 0.0 < JsNumber.ParseNumber(amountValue).value < MinimumTransfer
      && (wallet.Some? ==> JsNumber.ParseNumber(amountValue).value <= wallet.value.balance.Get(c))
  {
    if amountValue == "" then None
    else
      var numAmount := JsNumber.ParseNumber(amountValue);
      if numAmount.None? || numAmount.value <= 0.0 then Some(NotPositive)
      else if wallet.Some? && numAmount.value > wallet.value.balance.Get(c) then Some(Insufficient(c))
      else if numAmount.value < MinimumTransfer then Some(BelowMinimum)
      else None
  }

  /** The balance check comes first: an amount over the balance and under the
      minimum reports the balance. */
  lemma InsufficientBeforeMinimum(amountValue: string, w: Wallet, c: Currency)
    requires JsNumber.ParseNumber(amountValue).Some?
    requires 0.0 < JsNumber.ParseNumber(amountValue).value < MinimumTransfer
    requires JsNumber.ParseNumber(amountValue).value > w.balance.Get(c)
    ensures ValidateAmount(amountValue, Some(w), c) == Some(Insufficient(c))
  {
  }

  /** The alerts of `validateBankAccount`. */
  datatype BankAccountError = MissingAccountNumber | MissingHolderName | MissingIban

  /** `validateBankAccount`: account number, holder name and IBAN must each be
      non-blank after trimming, checked in that order. */
  function ValidateBankAccount(account: ScreenBankAccount): (r: Option<BankAccountError>)
    ensures r == None <==>
      !JsText.AllSpace(account.accountNumber) && !JsText.AllSpace(account.accountHolderName)
      && !JsText.AllSpace(account.iban)
    ensures r == Some(MissingAccountNumber) <==> JsText.AllSpace(account.accountNumber)
    ensures r == Some(MissingHolderName) <==>
      !JsText.AllSpace(account.accountNumber) && JsText.AllSpace(account.accountHolderName)
  {
    JsText.TrimEmptyIffBlank(account.accountNumber);
    JsText.TrimEmptyIffBlank(account.accountHolderName);
    JsText.TrimEmptyIffBlank(account.iban);
    if JsText.Trim(account.accountNumber) == [] then Some(MissingAccountNumber)
    else if JsText.Trim(account.accountHolderName) == [] then Some(MissingHolderName)
    else if JsText.Trim(account.iban) == [] then Some(MissingIban)
    else None
  }

  /** `Math.max(0, balance - transferFee)`. */
  function MaxAmount(balance: real): (r: real)
    ensures r >= 0.0
    ensures balance >= TransferFee ==> r + TransferFee == balance
    ensures balance < TransferFee ==> r == 0.0
  {
    JsNumber.MathMax(0.0, balance - TransferFee)
  }

  /** `keyof BankAccount`. */
  datatype BankField = BankName | AccountNumber | AccountHolderName | Iban | BranchName

  /** Reads one field; an absent branch name reads as the empty string. */
  function FieldOf(account: ScreenBankAccount, field: BankField): string {
    match field
    case BankName => account.bankName
    case AccountNumber => account.accountNumber
    case AccountHolderName => account.accountHolderName
    case Iban => account.iban
    case BranchName => account.branchName.GetOr("")
  }

  /** `{ ...prev, [field]: value }`. */
  function WithField(account: ScreenBankAccount, field: BankField, value: string): (r: ScreenBankAccount)
    ensures FieldOf(r, field) == value
    ensures forall f :: f != field ==> FieldOf(r, f) == FieldOf(account, f)
    ensures field == BranchName ==> r.branchName == Some(value)
    ensures field != BranchName ==> r.branchName == account.branchName
  {
    match field
    case BankName => account.(bankName := value)
    case AccountNumber => account.(accountNumber := value)
    case AccountHolderName => account.(accountHolderName := value)
    case Iban => account.(iban := value)
    case BranchName => account.(branchName := Some(value))
  }

  /** `isSavedAccountLoaded`: the account number and the IBAN are the saved ones. */
  predicate IsSavedAccountLoaded(account: ScreenBankAccount) {
    account.accountNumber == SavedBankAccount.accountNumber && account.iban == SavedBankAccount.iban
  }

  class TransferForm {
    var amount: string
    var selectedCurrency: Currency
    var amountError: Option<AmountError>
    var bankAccount: ScreenBankAccount
    var wallet: Option<Wallet>

    /** The amount error is the one `validateAmount` gives for the current amount,
        currency and wallet. */
    ghost predicate Valid()
      reads this
    {
      amountError == ValidateAmount(amount, wallet, selectedCurrency)
    }

    /** The form as first shown: no amount, USDT, the route's account or the default one. */
    constructor (routeAccount: Option<ScreenBankAccount>, currentWallet: Option<Wallet>)
      ensures Valid()
      ensures amount == "" && selectedCurrency == USDT && amountError == None && wallet == currentWallet
      ensures bankAccount == routeAccount.GetOr(DefaultBankAccount)
    {
      amount := "";
      selectedCurrency := USDT;
      amountError := None;
      bankAccount := routeAccount.GetOr(DefaultBankAccount);
      wallet := currentWallet;
    }

    /** `canTransfer`. */
    function CanTransfer(): (r: bool)
      reads this
      ensures r ==> wallet.Some? && ValidateBankAccount(bankAccount) == None && amountError == None
      ensures r ==> JsNumber.ParseNumber(amount).Some? && JsNumber.ParseNumber(amount).value > 0.0
      ensures r ==> JsNumber.ParseNumber(amount).value + TransferFee <= CurrentBalance(wallet, selectedCurrency)
    {
      var parsed := JsNumber.ParseNumber(amount);
      && wallet.Some?
      && amount != ""
      && parsed.Some? && parsed.value > 0.0
      && amountError.None?
      && ValidateBankAccount(bankAccount).None?
      && parsed.value + TransferFee <= CurrentBalance(wallet, selectedCurrency)
    }

    /** A transfer the form allows moves at least the minimum and leaves the fee covered. */
    lemma CanTransferMeetsMinimum()
      requires Valid() && CanTransfer()
      ensures JsNumber.ParseNumber(amount).value >= MinimumTransfer
      ensures JsNumber.ParseNumber(amount).value + TransferFee <= wallet.value.balance.Get(selectedCurrency)
    {
    }

    /** Typing into the amount field, then the validation effect. */
    method SetAmount(value: string)
      modifies this
      ensures Valid()
      ensures amount == value && selectedCurrency == old(selectedCurrency)
      ensures bankAccount == old(bankAccount) && wallet == old(wallet)
    {
      amount := value;
      amountError := ValidateAmount(amount, wallet, selectedCurrency);
    }

    /** Picking a currency, then the validation effect. */
    method SelectCurrency(c: Currency)
      modifies this
      ensures Valid()
      ensures selectedCurrency == c && amount == old(amount)
      ensures bankAccount == old(bankAccount) && wallet == old(wallet)
    {
      selectedCurrency := c;
      amountError := ValidateAmount(amount, wallet, selectedCurrency);
    }

    /** `handleMaxAmount`: the amount becomes the text of `max(0, balance - fee)`;
        `toText` is `Number.prototype.toString`. */
    method HandleMaxAmount(toText: real -> string)
      modifies this
      ensures Valid()
      ensures amount == toText(MaxAmount(CurrentBalance(wallet, selectedCurrency)))
      ensures selectedCurrency == old(selectedCurrency) && bankAccount == old(bankAccount) && wallet == old(wallet)
    {
      var maxAmount := MaxAmount(CurrentBalance(wallet, selectedCurrency));
      amount := toText(maxAmount);
      amountError := ValidateAmount(amount, wallet, selectedCurrency);
    }

    /** `updateBankAccount(field, value)`: only that field changes. */
    method UpdateBankAccount(field: BankField, value: string)
      modifies this
      ensures bankAccount == WithField(old(bankAccount), field, value)
      ensures amount == old(amount) && amountError == old(amountError)
      ensures selectedCurrency == old(selectedCurrency) && wallet == old(wallet)
    {
      bankAccount := WithField(bankAccount, field, value);
    }

    /** `loadSavedBankAccount`. */
    method LoadSavedBankAccount()
      modifies this
      ensures bankAccount == SavedBankAccount && IsSavedAccountLoaded(bankAccount)
      ensures amount == old(amount) && amountError == old(amountError)
      ensures selectedCurrency == old(selectedCurrency) && wallet == old(wallet)
    {
      bankAccount := SavedBankAccount;
    }
  }

  /** With a balance of at least the minimum plus the fee and a complete bank account,
      the maximum amount, once shown as text that reads back as the same number,
      can be transferred. */
  lemma MaxAmountIsTransferable(w: Wallet, c: Currency, account: ScreenBankAccount, shown: JsNumber.Decimal)
    requires w.balance.Get(c) >= MinimumTransfer + TransferFee
    requires ValidateBankAccount(account) == None
    requires JsNumber.WellFormed(shown) && JsNumber.Value(shown) == MaxAmount(w.balance.Get(c))
    ensures var text := JsNumber.Render(shown);
      ValidateAmount(text, Some(w), c) == None
      && text != ""
      && JsNumber.ParseNumber(text) == Some(MaxAmount(w.balance.Get(c)))
      && JsNumber.ParseNumber(text).value + TransferFee <= w.balance.Get(c)
  {
    JsNumber.ParseNumberOfRender(shown);
    assert JsNumber.Render(shown) != "" by {
      JsNumber.RenderIsSignThenUnsigned(shown);
    }
  }
}
