/**
 * The finance business rules (modules/finance/data/json_db_rules.py) over
 * the enumerations of modules/finance/data/constants.py, and the finance
 * exceptions they raise (modules/finance/exceptions/errors.py).
 */
module FinanceRules {
  import opened Common

  // ---------------------------------------------------------------------
  // Enumerations

  /** `TransactionType`: income or expense. */
  datatype TransactionType = Income | Expense
  {
    function Value(): string
    {
      match this
      case Income => "Gelir"
      case Expense => "Gider"
    }
  }

  datatype IncomeCategory =
    | MembershipFee | MatchTicket | Sponsorship | Donation | ProductSale | OtherIncome
  {
    function Value(): string
    {
      match this
      case MembershipFee => "Üyelik Aidatı"
      case MatchTicket => "Maç Bileti"
      case Sponsorship => "Sponsorluk"
      case Donation => "Bağış"
      case ProductSale => "Ürün Satışı"
      case OtherIncome => "Diğer Gelir"
    }
  }

  datatype ExpenseCategory =
    | Salary | Equipment | Maintenance | Travel | Tax | Utilities | OtherExpense
  {
    function Value(): string
    {
      match this
      case Salary => "Maaş Ödemesi"
      case Equipment => "Ekipman"
      case Maintenance => "Tesis Bakım"
      case Travel => "Deplasman/Seyahat"
      case Tax => "Vergi Ödemesi"
      case Utilities => "Fatura (Elk/Su)"
      case OtherExpense => "Diğer Gider"
    }
  }

  /** `[i.value for i in IncomeCategory]`, in declaration order. */
  const IncomeValues: seq<string> :=
    [MembershipFee.Value(), MatchTicket.Value(), Sponsorship.Value(), Donation.Value(),
     ProductSale.Value(), OtherIncome.Value()]

  /** `[e.value for e in ExpenseCategory]`, in declaration order. */
  const ExpenseValues: seq<string> :=
    [Salary.Value(), Equipment.Value(), Maintenance.Value(), Travel.Value(),
     Tax.Value(), Utilities.Value(), OtherExpense.Value()]

  /** The value lists hold exactly the values of the enumeration members. */
  lemma CategoryValuesComplete(s: string)
    ensures s in IncomeValues <==> exists c: IncomeCategory :: c.Value() == s
    ensures s in ExpenseValues <==> exists c: ExpenseCategory :: c.Value() == s
  {
    if s in IncomeValues {
      var i :| 0 <= i < |IncomeValues| && IncomeValues[i] == s;
      var all := [MembershipFee, MatchTicket, Sponsorship, Donation, ProductSale, OtherIncome];
      assert all[i].Value() == s;
    }
    if s in ExpenseValues {
      var i :| 0 <= i < |ExpenseValues| && ExpenseValues[i] == s;
      var all := [Salary, Equipment, Maintenance, Travel, Tax, Utilities, OtherExpense];
      assert all[i].Value() == s;
    }
  }

  // ---------------------------------------------------------------------
  // Errors

  /**
   * The `FinanceError` subclasses. Amounts are kept as numbers rather than
   * rendered into the message text.
   */
  datatype FinanceError =
    | InvalidDataType(expected: string, received: string)
    | InvalidAmount(amount: real)
    | DataStorage(path: string, reason: string)
    | TransactionLimitExceeded(amount: real, limit: real)
    | CategoryMismatch(transactionType: string, category: string)
  {
    /** The `error_code` each subclass passes to `FinanceError`. */
    function Code(): (c: int)
      ensures 1001 <= c <= 1005
      ensures InvalidAmount? <==> c == 1002
      ensures TransactionLimitExceeded? <==> c == 1004
      ensures CategoryMismatch? <==> c == 1005
    {
      match this
      case InvalidDataType(_, _) => 1001
      case InvalidAmount(_) => 1002
      case DataStorage(_, _) => 1003
      case TransactionLimitExceeded(_, _) => 1004
      case CategoryMismatch(_, _) => 1005
    }

    /** The label the message text starts with. */
    function Headline(): string
    {
      match this
      case InvalidDataType(_, _) => "Veri Tipi Hatası"
      case InvalidAmount(_) => "Geçersiz Tutar"
      case DataStorage(_, _) => "Veri Erişim Hatası"
      case TransactionLimitExceeded(_, _) => "Limit Aşımı"
      case CategoryMismatch(_, _) => "Kategori Uyuşmazlığı"
    }
  }

  // ---------------------------------------------------------------------
  // Rules

  /** `MAX_TRANSACTION_AMOUNT`: ten million per transaction. */
  const MaxTransactionAmount: real := 10000000.0

  /**
   * `check_business_limits`: a non-positive amount is refused first, then
   * one above the limit; the limit itself is allowed.
   */
  function CheckBusinessLimits(amount: real): (r: Result<bool, FinanceError>)
    ensures amount <= 0.0 ==> r == Err(InvalidAmount(amount))
    ensures 0.0 < amount <= MaxTransactionAmount ==> r == Ok(true)
    ensures amount > MaxTransactionAmount ==>
      r == Err(TransactionLimitExceeded(amount, MaxTransactionAmount))
    ensures r.Ok? <==> 0.0 < amount <= MaxTransactionAmount
  {
    if amount <= 0.0 then Err(InvalidAmount(amount))
    else if amount > MaxTransactionAmount then Err(TransactionLimitExceeded(amount, MaxTransactionAmount))
    else Ok(true)
  }

  /**
   * `validate_category_consistency`: an income must carry an income
   * category and an expense an expense category; any other type string is
   * not checked at all.
   */
  function ValidateCategoryConsistency(transactionType: string, category: string)
    : (r: Result<bool, FinanceError>)
    ensures transactionType == Income.Value() ==>
      (r.Ok? <==> category in IncomeValues)
    ensures transactionType == Expense.Value() ==>
      (r.Ok? <==> category in ExpenseValues)
    ensures transactionType != Income.Value() && transactionType != Expense.Value() ==> r == Ok(true)
    ensures r.Err? ==> r.error == CategoryMismatch(transactionType, category)
  {
    if transactionType == Income.Value() then
      if category !in IncomeValues then Err(CategoryMismatch(transactionType, category)) else Ok(true)
    else if transactionType == Expense.Value() then
      if category !in ExpenseValues then Err(CategoryMismatch(transactionType, category)) else Ok(true)
    else Ok(true)
  }

  /** No category is both an income and an expense category. */
  lemma CategoriesDisjoint(category: string)
    ensures !(category in IncomeValues && category in ExpenseValues)
  {
  }
}
