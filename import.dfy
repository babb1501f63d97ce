/**
 * The spreadsheet import of the settings page (App.tsx, `handleImport`),
 * from the moment the three sheets have been decoded into rows: the rows
 * are normalised into categories, account definitions and transactions,
 * unresolvable transactions are dropped, and every account's balance is
 * recomputed by replaying the transactions onto the sheet's balance.
 */
module Import {
  import opened Wrappers
  import opened Domain
  import opened Seqs
  import opened Dates
  import opened Timeline

  /** A decoded text cell: absent, or its text. */
  type Cell = Option<string>

  /** The truth test of `x || …`: an absent cell and the empty text both fail it. */
  predicate Present(c: Cell) {
    c.Some? && c.value != ""
  }

  /** `a || b`. */
  function Either(a: Cell, b: Cell): Cell {
    if Present(a) then a else b
  }

  /** `String(c || fallback)`. */
  function TextOr(c: Cell, fallback: string): string {
    if Present(c) then c.value else fallback
  }

  /** One field under its two accepted headers: the sheet's (`ID_Cuenta`) and the older key (`id`). */
  datatype Column = Column(sheet: Cell, legacy: Cell)

  /** `row.Header || row.key`. */
  function Read(c: Column): Cell {
    Either(c.sheet, c.legacy)
  }

  /** A numeric field under its two headers (`Monto`, `amount`). */
  datatype NumberColumn = NumberColumn(sheet: Option<int>, legacy: Option<int>)

  /** `Number(row.Monto || row.amount) || 0`. */
  function AmountOf(c: NumberColumn): (r: int)
    ensures c.sheet.Some? && c.sheet.value != 0 ==> r == c.sheet.value
    ensures !(c.sheet.Some? && c.sheet.value != 0) && c.legacy.Some? ==> r == c.legacy.value
    ensures c.sheet.GetOr(0) == 0 && c.legacy.None? ==> r == 0
  {
    if c.sheet.Some? && c.sheet.value != 0 then c.sheet.value else c.legacy.GetOr(0)
  }

  /** A row of the `Categorías` sheet. */
  datatype CategoryRow = CategoryRow(id: Column, name: Column, color: Column, kind: Column, icon: Column)

  /** A row of the `Cuentas` sheet; `saldo` is the numeric `Saldo` cell. */
  datatype AccountRow = AccountRow(id: Column, name: Column, kind: Column, saldo: Option<int>, color: Column, icon: Column)

  /** A row of the `Transacciones` sheet. */
  datatype TransactionRow = TransactionRow(
    id: Column, date: Column, description: Column, amount: NumberColumn, kind: Column,
    categoryId: Column, categoryName: Column, accountId: Column, accountName: Column, notes: Column)

  /** `Tipo === 'Ingreso' || type === 'income'` (also `Tipo_Categoria` for categories). */
  predicate LabelledIncome(c: Column) {
    c.sheet == Some("Ingreso") || c.legacy == Some("income")
  }

  /** The type of a category or transaction row: income only when labelled so, expense by default. */
  function KindOf(c: Column): (k: TxType)
    ensures k == Income <==> c.sheet == Some("Ingreso") || c.legacy == Some("income")
  {
    if LabelledIncome(c) then Income else Expense
  }

  // ---------------------------------------------------------------- categories

  /** A row of `Categorías` as a category: the row's text where present, else the defaults. */
  function NormalizeCategory(row: CategoryRow, generatedId: string): (c: Category)
    ensures c.kind == Income <==> LabelledIncome(row.kind)
    ensures c.id == if Present(Read(row.id)) then Read(row.id).value else generatedId
    ensures c.icon.Some? && c.icon.value != ""
  {
    var kind := KindOf(row.kind);
    Category(
      TextOr(Read(row.id), generatedId),
      TextOr(Read(row.name), "Categor\U{ED}a Importada"),
      TextOr(Read(row.color), "#CCCCCC"),
      kind,
      Some(TextOr(Read(row.icon), if kind == Income then "\U{1F4B0}" else "\U{1F4CE}")))
  }

  /** `importedCategoriesRaw.map(...)`; `generatedIds[i]` is the id made up for row `i` if it has none. */
  function NormalizeCategories(rows: seq<CategoryRow>, generatedIds: seq<string>): (r: seq<Category>)
    requires |generatedIds| == |rows|
    ensures |r| == |rows|
    ensures forall i :: 0 <= i < |rows| ==> r[i] == NormalizeCategory(rows[i], generatedIds[i])
  {
    seq(|rows|, i requires 0 <= i < |rows| => NormalizeCategory(rows[i], generatedIds[i]))
  }

  /** Where `categories.find(c => c.name === name && c.type === kind)` stops: the first category with that name and type. */
  function CategoryIndexByName(categories: seq<Category>, name: string, kind: TxType): (r: Option<nat>)
    ensures r.Some? ==> r.value < |categories| && categories[r.value].name == name && categories[r.value].kind == kind
    ensures r.Some? ==> forall j :: 0 <= j < r.value ==> !(categories[j].name == name && categories[j].kind == kind)
    ensures r.None? <==> forall j :: 0 <= j < |categories| ==> !(categories[j].name == name && categories[j].kind == kind)
  {
    if categories == [] then None
    else if categories[0].name == name && categories[0].kind == kind then Some(0)
    else match CategoryIndexByName(categories[1..], name, kind)
      case None => None
      case Some(k) => Some(k + 1)
  }

  /** Where `categories.find(c => c.type === kind)` stops: the first category of that type. */
  function IndexOfKind(categories: seq<Category>, kind: TxType): (r: Option<nat>)
    ensures r.Some? ==> r.value < |categories| && categories[r.value].kind == kind
    ensures r.Some? ==> forall j :: 0 <= j < r.value ==> categories[j].kind != kind
    ensures r.None? <==> forall j :: 0 <= j < |categories| ==> categories[j].kind != kind
  {
    if categories == [] then None
    else if categories[0].kind == kind then Some(0)
    else match IndexOfKind(categories[1..], kind)
      case None => None
      case Some(k) => Some(k + 1)
  }

  /**
   * The fallback category for transactions of `kind`: the first one called
   * `name` ("Gasto Diverso", "Otro Ingreso") of that kind, and when there is
   * none, the first of that kind. There is none exactly when no category has
   * that kind.
   */
  function DefaultCategory(categories: seq<Category>, name: string, kind: TxType): (r: Option<Category>)
    ensures r.Some? ==> r.value in categories && r.value.kind == kind
    ensures r.None? <==> forall i :: 0 <= i < |categories| ==> categories[i].kind != kind
    ensures var named := CategoryIndexByName(categories, name, kind);
            named.Some? ==> r == Some(categories[named.value])
    ensures var named := CategoryIndexByName(categories, name, kind);
            var first := IndexOfKind(categories, kind);
            named.None? && first.Some? ==> r == Some(categories[first.value])
  {
    match CategoryIndexByName(categories, name, kind)
    case Some(k) => Some(categories[k])
    case None =>
      match IndexOfKind(categories, kind)
      case Some(k) => Some(categories[k])
      case None => None
  }

  // ---------------------------------------------------------------- accounts

  /** The `type` text of each account type (types.ts). */
  function AccountTypeLabel(t: AccountType): string {
    match t
    case Checking => "checking"
    case Savings => "savings"
    case CreditCard => "credit_card"
    case Cash => "cash"
    case Investment => "investment"
    case Other => "other"
  }

  /** The six labels name their types; any other text, or none, is `other`. */
  function ParseAccountType(c: Cell): (t: AccountType)
    ensures t != Other ==> c == Some(AccountTypeLabel(t))
  {
    if c == Some("checking") then Checking
    else if c == Some("savings") then Savings
    else if c == Some("credit_card") then CreditCard
    else if c == Some("cash") then Cash
    else if c == Some("investment") then Investment
    else Other
  }

  lemma {:induction false} ParseAccountTypeLabel(t: AccountType)
    ensures ParseAccountType(Some(AccountTypeLabel(t))) == t
  {
    match t
    case Checking =>
    case Savings =>
    case CreditCard =>
    case Cash =>
    case Investment =>
    case Other =>
  }

  /**
   * A row of `Cuentas` as an account definition. Its balance is the sheet's
   * `Saldo`, the base the transactions are replayed onto.
   */
  function NormalizeAccount(row: AccountRow, generatedId: string): (a: Account)
    ensures a.id == if Present(Read(row.id)) then Read(row.id).value else generatedId
    ensures a.balance == row.saldo.GetOr(0)
    ensures a.kind != Other ==> Read(row.kind) == Some(AccountTypeLabel(a.kind))
    ensures a.icon.Some? && a.icon.value != ""
  {
    Account(
      TextOr(Read(row.id), generatedId),
      TextOr(Read(row.name), "Cuenta Importada"),
      ParseAccountType(Read(row.kind)),
      row.saldo.GetOr(0),
      TextOr(Read(row.color), "#CCCCCC"),
      Some(TextOr(Read(row.icon), "\U{1F3E6}")))
  }

  /** `importedAccountsRaw.map(...)`; `generatedIds[i]` is the id made up for row `i` if it has none. */
  function NormalizeAccounts(rows: seq<AccountRow>, generatedIds: seq<string>): (r: seq<Account>)
    requires |generatedIds| == |rows|
    ensures |r| == |rows|
    ensures forall i :: 0 <= i < |rows| ==> r[i] == NormalizeAccount(rows[i], generatedIds[i])
  {
    seq(|rows|, i requires 0 <= i < |rows| => NormalizeAccount(rows[i], generatedIds[i]))
  }

  /** Where `accounts.find(a => a.name === name)` stops: the first account with that name. */
  function AccountIndexByName(accounts: seq<Account>, name: string): (r: Option<nat>)
    ensures r.Some? ==> r.value < |accounts| && accounts[r.value].name == name
    ensures r.Some? ==> forall j :: 0 <= j < r.value ==> accounts[j].name != name
    ensures r.None? <==> forall j :: 0 <= j < |accounts| ==> accounts[j].name != name
  {
    if accounts == [] then None
    else if accounts[0].name == name then Some(0)
    else match AccountIndexByName(accounts[1..], name)
      case None => None
      case Some(k) => Some(k + 1)
  }

  // ---------------------------------------------------------------- transactions

  /** A date cell already in `YYYY-MM-DD` form is kept; anything else is what the host's date parsing gives. */
  function NormalizeDate(c: Column, hostDate: string): (d: string)
    ensures Read(c).Some? && IsIsoDate(Read(c).value) ==> d == Read(c).value
    ensures !(Read(c).Some? && IsIsoDate(Read(c).value)) ==> d == hostDate
  {
    var text := Read(c);
    if text.Some? && IsIsoDate(text.value) then text.value else hostDate
  }

  /** An element of a list is found by its id. */
  lemma {:induction false} FoundByOwnKey<T>(s: seq<T>, key: T -> string, x: T)
    requires x in s
    ensures IndexOfKey(s, key, key(x)).Some?
  {
    var j :| 0 <= j < |s| && s[j] == x;
    assert key(s[j]) == key(x);
  }

  /** A reference cell that holds the id of one of `categories`. */
  predicate NamesCategory(categories: seq<Category>, c: Cell) {
    Present(c) && FindByKey(categories, CategoryKey, c.value).Some?
  }

  /** A reference cell that holds the id of one of `accounts`. */
  predicate NamesAccount(accounts: seq<Account>, c: Cell) {
    Present(c) && FindByKey(accounts, AccountKey, c.value).Some?
  }

  /**
   * The category the by-name lookup finds: it runs only when the row gives
   * no category id but a category name, and finds the first category with
   * that name and the row's type.
   */
  function CategoryFoundByName(row: TransactionRow, kind: TxType, categories: seq<Category>): (r: Option<Category>)
    ensures r.Some? ==> !Present(Read(row.categoryId)) && Present(Read(row.categoryName))
    ensures r.Some? ==> var k := CategoryIndexByName(categories, Read(row.categoryName).value, kind);
                        k.Some? && r.value == categories[k.value]
    ensures (!Present(Read(row.categoryId)) && Present(Read(row.categoryName))
             && CategoryIndexByName(categories, Read(row.categoryName).value, kind).Some?) ==> r.Some?
  {
    if !Present(Read(row.categoryId)) && Present(Read(row.categoryName)) then
      match CategoryIndexByName(categories, Read(row.categoryName).value, kind)
      case Some(k) => Some(categories[k])
      case None => None
    else None
  }

  /**
   * The account the by-name lookup finds: it runs only when the row gives
   * no account id but an account name, and finds the first account with
   * that name.
   */
  function AccountFoundByName(row: TransactionRow, accounts: seq<Account>): (r: Option<Account>)
    ensures r.Some? ==> !Present(Read(row.accountId)) && Present(Read(row.accountName))
    ensures r.Some? ==> var k := AccountIndexByName(accounts, Read(row.accountName).value);
                        k.Some? && r.value == accounts[k.value]
    ensures (!Present(Read(row.accountId)) && Present(Read(row.accountName))
             && AccountIndexByName(accounts, Read(row.accountName).value).Some?) ==> r.Some?
  {
    if !Present(Read(row.accountId)) && Present(Read(row.accountName)) then
      match AccountIndexByName(accounts, Read(row.accountName).value)
      case Some(k) => Some(accounts[k])
      case None => None
    else None
  }

  /**
   * The category id a transaction row ends up with: the given id when it
   * names an imported category; else the id of the category found by name,
   * when it has one; else the fallback's id for the row's type, if there is
   * a fallback. A usable result always names an imported category.
   */
  function ResolveCategoryId(row: TransactionRow, kind: TxType, categories: seq<Category>, fallback: Option<Category>): (r: Cell)
    requires fallback.Some? ==> fallback.value in categories
    ensures Present(r) ==> FindByKey(categories, CategoryKey, r.value).Some?
    ensures NamesCategory(categories, Read(row.categoryId)) ==> r == Read(row.categoryId)
    ensures var named := CategoryFoundByName(row, kind, categories);
            named.Some? && named.value.id != "" ==> r == Some(named.value.id)
    ensures var named := CategoryFoundByName(row, kind, categories);
            !NamesCategory(categories, Read(row.categoryId)) && !(named.Some? && named.value.id != "")
            ==> r == if fallback.Some? then Some(fallback.value.id) else None
  {
    var given := Read(row.categoryId);
    var named :=
      match CategoryFoundByName(row, kind, categories)
      case Some(c) => Some(c.id)
      case None => given;
    if !Present(named) || FindByKey(categories, CategoryKey, named.value).None? then
      match fallback
      case Some(c) => FoundByOwnKey(categories, CategoryKey, c); Some(c.id)
      case None => None
    else named
  }

  /**
   * The account id a transaction row ends up with: the given id when it
   * names an imported account; else the id of the account found by name,
   * when it has one; else the first account's id, if there is an account.
   * A usable result always names an imported account.
   */
  function ResolveAccountId(row: TransactionRow, accounts: seq<Account>): (r: Cell)
    ensures Present(r) ==> FindByKey(accounts, AccountKey, r.value).Some?
    ensures NamesAccount(accounts, Read(row.accountId)) ==> r == Read(row.accountId)
    ensures var named := AccountFoundByName(row, accounts);
            named.Some? && named.value.id != "" ==> r == Some(named.value.id)
    ensures var named := AccountFoundByName(row, accounts);
            !NamesAccount(accounts, Read(row.accountId)) && !(named.Some? && named.value.id != "")
            ==> r == if accounts == [] then None else Some(accounts[0].id)
  {
    var given := Read(row.accountId);
    var named :=
      match AccountFoundByName(row, accounts)
      case Some(a) => Some(a.id)
      case None => given;
    if !Present(named) || FindByKey(accounts, AccountKey, named.value).None? then
      if accounts == [] then None
      else
        FoundByOwnKey(accounts, AccountKey, accounts[0]);
        Some(accounts[0].id)
    else named
  }

  /** The fallback category for a transaction of `kind`. */
  function FallbackFor(kind: TxType, incomeFallback: Option<Category>, expenseFallback: Option<Category>): Option<Category> {
    if kind == Income then incomeFallback else expenseFallback
  }

  /**
   * A row of `Transacciones` as a transaction with its resolved category and
   * account, or nothing exactly when either cannot be resolved.
   */
  function NormalizeTransaction(
    row: TransactionRow, categories: seq<Category>, accounts: seq<Account>,
    incomeFallback: Option<Category>, expenseFallback: Option<Category>,
    hostDate: string, generatedId: string): (r: Option<Transaction>)
    requires incomeFallback.Some? ==> incomeFallback.value in categories
    requires expenseFallback.Some? ==> expenseFallback.value in categories
    ensures var categoryId := ResolveCategoryId(row, KindOf(row.kind), categories, FallbackFor(KindOf(row.kind), incomeFallback, expenseFallback));
            var accountId := ResolveAccountId(row, accounts);
            (r.None? <==> !Present(categoryId) || !Present(accountId))
            && (r.Some? ==> r.value.categoryId == categoryId.value && r.value.accountId == accountId.value)
    ensures r.Some? ==> FindByKey(categories, CategoryKey, r.value.categoryId).Some?
    ensures r.Some? ==> FindByKey(accounts, AccountKey, r.value.accountId).Some?
    ensures r.Some? ==> r.value.id == TextOr(Read(row.id), generatedId) && r.value.date == NormalizeDate(row.date, hostDate)
    ensures r.Some? ==> r.value.kind == KindOf(row.kind) && r.value.amount == AmountOf(row.amount)
    ensures r.Some? ==> r.value.description == TextOr(Read(row.description), "N/A") && r.value.notes == Some(TextOr(Read(row.notes), ""))
  {
    var kind := KindOf(row.kind);
    var categoryId := ResolveCategoryId(row, kind, categories, FallbackFor(kind, incomeFallback, expenseFallback));
    var accountId := ResolveAccountId(row, accounts);
    if !Present(categoryId) || !Present(accountId) then None
    else Some(Transaction(
      TextOr(Read(row.id), generatedId),
      NormalizeDate(row.date, hostDate),
      TextOr(Read(row.description), "N/A"),
      AmountOf(row.amount),
      kind,
      categoryId.value,
      accountId.value,
      Some(TextOr(Read(row.notes), ""))))
  }

  /** A row is kept whenever its kind has a usable fallback category and the first account has an id. */
  lemma {:induction false} RowKeptWithFallbacks(
    row: TransactionRow, categories: seq<Category>, accounts: seq<Account>,
    incomeFallback: Option<Category>, expenseFallback: Option<Category>,
    hostDate: string, generatedId: string)
    requires incomeFallback.Some? ==> incomeFallback.value in categories
    requires expenseFallback.Some? ==> expenseFallback.value in categories
    requires var fallback := FallbackFor(KindOf(row.kind), incomeFallback, expenseFallback);
             fallback.Some? && fallback.value.id != ""
    requires accounts != [] && accounts[0].id != ""
    ensures NormalizeTransaction(row, categories, accounts, incomeFallback, expenseFallback, hostDate, generatedId).Some?
  {
  }

  /** `importedTransactionsRaw.map(...)`: each row normalised, `None` where the source returns `null`. */
  function NormalizedRows(
    rows: seq<TransactionRow>, categories: seq<Category>, accounts: seq<Account>,
    incomeFallback: Option<Category>, expenseFallback: Option<Category>,
    hostDates: seq<string>, generatedIds: seq<string>): (r: seq<Option<Transaction>>)
    requires incomeFallback.Some? ==> incomeFallback.value in categories
    requires expenseFallback.Some? ==> expenseFallback.value in categories
    requires |hostDates| == |rows| && |generatedIds| == |rows|
    ensures |r| == |rows|
    ensures forall i :: 0 <= i < |rows| ==>
      r[i] == NormalizeTransaction(rows[i], categories, accounts, incomeFallback, expenseFallback, hostDates[i], generatedIds[i])
  {
    seq(|rows|, i requires 0 <= i < |rows| =>
      NormalizeTransaction(rows[i], categories, accounts, incomeFallback, expenseFallback, hostDates[i], generatedIds[i]))
  }

  /**
   * `importedTransactionsRaw.map(...).filter(t => t !== null)`: the kept
   * rows' transactions, in row order. A transaction is imported exactly when
   * some row normalises to it, and every one names an imported category and
   * an imported account.
   */
  function NormalizeTransactions(
    rows: seq<TransactionRow>, categories: seq<Category>, accounts: seq<Account>,
    incomeFallback: Option<Category>, expenseFallback: Option<Category>,
    hostDates: seq<string>, generatedIds: seq<string>): (r: seq<Transaction>)
    requires incomeFallback.Some? ==> incomeFallback.value in categories
    requires expenseFallback.Some? ==> expenseFallback.value in categories
    requires |hostDates| == |rows| && |generatedIds| == |rows|
    ensures |r| <= |rows|
    ensures forall t :: t in r <==>
      exists i :: 0 <= i < |rows| && NormalizeTransaction(rows[i], categories, accounts, incomeFallback, expenseFallback, hostDates[i], generatedIds[i]) == Some(t)
    ensures forall i :: 0 <= i < |r| ==> FindByKey(categories, CategoryKey, r[i].categoryId).Some?
    ensures forall i :: 0 <= i < |r| ==> FindByKey(accounts, AccountKey, r[i].accountId).Some?
  {
    var normalized := NormalizedRows(rows, categories, accounts, incomeFallback, expenseFallback, hostDates, generatedIds);
    var kept := Kept(normalized);
    assert forall i :: 0 <= i < |kept| ==>
      FindByKey(categories, CategoryKey, kept[i].categoryId).Some? && FindByKey(accounts, AccountKey, kept[i].accountId).Some?
    by {
      forall i | 0 <= i < |kept|
        ensures FindByKey(categories, CategoryKey, kept[i].categoryId).Some?
        ensures FindByKey(accounts, AccountKey, kept[i].accountId).Some?
      {
        assert kept[i] in kept;
        var j :| 0 <= j < |normalized| && normalized[j] == Some(kept[i]);
      }
    }
    kept
  }

  /** Normalising the rows before a split point gives the first part of the normalised rows. */
  lemma {:induction false} NormalizedRowsPrefix(
    rows: seq<TransactionRow>, categories: seq<Category>, accounts: seq<Account>,
    incomeFallback: Option<Category>, expenseFallback: Option<Category>,
    hostDates: seq<string>, generatedIds: seq<string>, k: nat)
    requires incomeFallback.Some? ==> incomeFallback.value in categories
    requires expenseFallback.Some? ==> expenseFallback.value in categories
    requires |hostDates| == |rows| && |generatedIds| == |rows| && k <= |rows|
    ensures NormalizedRows(rows, categories, accounts, incomeFallback, expenseFallback, hostDates, generatedIds)[..k]
         == NormalizedRows(rows[..k], categories, accounts, incomeFallback, expenseFallback, hostDates[..k], generatedIds[..k])
  {
    var all := NormalizedRows(rows, categories, accounts, incomeFallback, expenseFallback, hostDates, generatedIds);
    var before := NormalizedRows(rows[..k], categories, accounts, incomeFallback, expenseFallback, hostDates[..k], generatedIds[..k]);
    forall i | 0 <= i < k
      ensures all[..k][i] == before[i]
    {
      assert rows[..k][i] == rows[i] && hostDates[..k][i] == hostDates[i] && generatedIds[..k][i] == generatedIds[i];
    }
  }

  /** Normalising the rows from a split point on gives the rest of the normalised rows. */
  lemma {:induction false} NormalizedRowsSuffix(
    rows: seq<TransactionRow>, categories: seq<Category>, accounts: seq<Account>,
    incomeFallback: Option<Category>, expenseFallback: Option<Category>,
    hostDates: seq<string>, generatedIds: seq<string>, k: nat)
    requires incomeFallback.Some? ==> incomeFallback.value in categories
    requires expenseFallback.Some? ==> expenseFallback.value in categories
    requires |hostDates| == |rows| && |generatedIds| == |rows| && k <= |rows|
    ensures NormalizedRows(rows, categories, accounts, incomeFallback, expenseFallback, hostDates, generatedIds)[k..]
         == NormalizedRows(rows[k..], categories, accounts, incomeFallback, expenseFallback, hostDates[k..], generatedIds[k..])
  {
    var all := NormalizedRows(rows, categories, accounts, incomeFallback, expenseFallback, hostDates, generatedIds);
    var after := NormalizedRows(rows[k..], categories, accounts, incomeFallback, expenseFallback, hostDates[k..], generatedIds[k..]);
    forall i | 0 <= i < |rows| - k
      ensures all[k..][i] == after[i]
    {
      assert rows[k..][i] == rows[k + i] && hostDates[k..][i] == hostDates[k + i] && generatedIds[k..][i] == generatedIds[k + i];
    }
  }

  /** Normalising the rows before and after a split point gives the two halves of the normalised rows. */
  lemma {:induction false} NormalizedRowsSplit(
    rows: seq<TransactionRow>, categories: seq<Category>, accounts: seq<Account>,
    incomeFallback: Option<Category>, expenseFallback: Option<Category>,
    hostDates: seq<string>, generatedIds: seq<string>, k: nat)
    requires incomeFallback.Some? ==> incomeFallback.value in categories
    requires expenseFallback.Some? ==> expenseFallback.value in categories
    requires |hostDates| == |rows| && |generatedIds| == |rows| && k <= |rows|
    ensures NormalizedRows(rows, categories, accounts, incomeFallback, expenseFallback, hostDates, generatedIds)
         == NormalizedRows(rows[..k], categories, accounts, incomeFallback, expenseFallback, hostDates[..k], generatedIds[..k])
          + NormalizedRows(rows[k..], categories, accounts, incomeFallback, expenseFallback, hostDates[k..], generatedIds[k..])
  {
    NormalizedRowsPrefix(rows, categories, accounts, incomeFallback, expenseFallback, hostDates, generatedIds, k);
    NormalizedRowsSuffix(rows, categories, accounts, incomeFallback, expenseFallback, hostDates, generatedIds, k);
    JoinedAt(
      NormalizedRows(rows, categories, accounts, incomeFallback, expenseFallback, hostDates, generatedIds),
      NormalizedRows(rows[..k], categories, accounts, incomeFallback, expenseFallback, hostDates[..k], generatedIds[..k]),
      NormalizedRows(rows[k..], categories, accounts, incomeFallback, expenseFallback, hostDates[k..], generatedIds[k..]),
      k);
  }

  /** The transactions of the rows before and after a split point are imported one after the other. */
  lemma {:induction false} ImportKeepsRowOrder(
    rows: seq<TransactionRow>, categories: seq<Category>, accounts: seq<Account>,
    incomeFallback: Option<Category>, expenseFallback: Option<Category>,
    hostDates: seq<string>, generatedIds: seq<string>, k: nat)
    requires incomeFallback.Some? ==> incomeFallback.value in categories
    requires expenseFallback.Some? ==> expenseFallback.value in categories
    requires |hostDates| == |rows| && |generatedIds| == |rows| && k <= |rows|
    ensures NormalizeTransactions(rows, categories, accounts, incomeFallback, expenseFallback, hostDates, generatedIds)
         == NormalizeTransactions(rows[..k], categories, accounts, incomeFallback, expenseFallback, hostDates[..k], generatedIds[..k])
          + NormalizeTransactions(rows[k..], categories, accounts, incomeFallback, expenseFallback, hostDates[k..], generatedIds[k..])
  {
    NormalizedRowsSplit(rows, categories, accounts, incomeFallback, expenseFallback, hostDates, generatedIds, k);
    KeptConcat(
      NormalizedRows(rows[..k], categories, accounts, incomeFallback, expenseFallback, hostDates[..k], generatedIds[..k]),
      NormalizedRows(rows[k..], categories, accounts, incomeFallback, expenseFallback, hostDates[k..], generatedIds[k..]));
  }

  /** With no account to fall back on, every transaction row is dropped. */
  lemma {:induction false} NoAccountsDropsEveryRow(
    rows: seq<TransactionRow>, categories: seq<Category>,
    incomeFallback: Option<Category>, expenseFallback: Option<Category>,
    hostDates: seq<string>, generatedIds: seq<string>)
    requires incomeFallback.Some? ==> incomeFallback.value in categories
    requires expenseFallback.Some? ==> expenseFallback.value in categories
    requires |hostDates| == |rows| && |generatedIds| == |rows|
    ensures NormalizeTransactions(rows, categories, [], incomeFallback, expenseFallback, hostDates, generatedIds) == []
  {
    var normalized := NormalizedRows(rows, categories, [], incomeFallback, expenseFallback, hostDates, generatedIds);
    forall i | 0 <= i < |normalized|
      ensures normalized[i].None?
    {
      assert ResolveAccountId(rows[i], []) == None;
    }
    KeptNone(normalized);
  }

  // ---------------------------------------------------------------- balances

  /** `Math.max(a, b)`. */
  function Max(a: int, b: int): int {
    if a >= b then a else b
  }

  /** An account definition with its balance moved by its transactions and clamped at zero. */
  function Rebalanced(definition: Account, txs: seq<Transaction>): (a: Account)
    ensures a.balance >= 0
    ensures definition.balance + SignedSum(txs, definition.id) >= 0 ==> a.balance == definition.balance + SignedSum(txs, definition.id)
    ensures definition.balance + SignedSum(txs, definition.id) < 0 ==> a.balance == 0
    ensures a == definition.(balance := a.balance)
  {
    definition.(balance := Max(0, definition.balance + SignedSum(txs, definition.id)))
  }

  /**
   * The `forEach` over the imported transactions that moves one account's
   * sheet balance by each of its incomes and expenses, clamped at zero
   * at the end.
   */
  method ReplayBalance(definition: Account, txs: seq<Transaction>) returns (account: Account)
    ensures account == Rebalanced(definition, txs)
    ensures account.balance == Max(0, definition.balance + IncomeTotal(txs, definition.id) - ExpenseTotal(txs, definition.id))
  {
    var currentBalance := definition.balance;
    for i := 0 to |txs|
      invariant currentBalance == definition.balance + SignedSum(txs[..i], definition.id)
    {
      var tx := txs[i];
      if tx.accountId == definition.id {
        if tx.kind == Income {
          currentBalance := currentBalance + tx.amount;
        } else {
          currentBalance := currentBalance - tx.amount;
        }
      }
      assert txs[..i + 1] == txs[..i] + [tx];
      SignedSumConcat(txs[..i], [tx], definition.id);
      assert [tx][1..] == [];
    }
    assert txs[..|txs|] == txs;
    SignedSumIsIncomeMinusExpense(txs, definition.id);
    account := definition.(balance := Max(0, currentBalance));
  }

  /** `accountDefinitionsFromExcel.map(...)`: every definition with its replayed, clamped balance. */
  method ReconcileBalances(definitions: seq<Account>, txs: seq<Transaction>) returns (finals: seq<Account>)
    ensures |finals| == |definitions|
    ensures forall i :: 0 <= i < |definitions| ==>
      finals[i] == Rebalanced(definitions[i], txs)
    ensures forall i :: 0 <= i < |finals| ==> finals[i].balance >= 0
  {
    finals := [];
    for i := 0 to |definitions|
      invariant |finals| == i
      invariant forall j :: 0 <= j < i ==>
        finals[j] == Rebalanced(definitions[j], txs)
    {
      var account := ReplayBalance(definitions[i], txs);
      finals := finals + [account];
    }
  }

  /** Replaying the transactions in stored order gives the same balances as in sheet order. */
  lemma {:induction false} BalancesSurviveSort(definitions: seq<Account>, imported: seq<Transaction>, accounts: seq<Account>)
    requires |accounts| == |definitions|
    requires forall i :: 0 <= i < |definitions| ==>
      accounts[i] == Rebalanced(definitions[i], imported)
    ensures forall i :: 0 <= i < |definitions| ==>
      accounts[i] == Rebalanced(definitions[i], SortByDateDesc(imported))
  {
    forall i | 0 <= i < |definitions|
      ensures SignedSum(SortByDateDesc(imported), definitions[i].id) == SignedSum(imported, definitions[i].id)
    {
      SignedSumSort(imported, definitions[i].id);
    }
  }

  /**
   * Sorting the transactions and rebalancing the accounts keep every
   * transaction's category and account resolvable.
   */
  lemma {:induction false} ReferencesSurviveReconciliation(
    imported: seq<Transaction>, categories: seq<Category>, definitions: seq<Account>, accounts: seq<Account>)
    requires forall i :: 0 <= i < |imported| ==>
      FindByKey(categories, CategoryKey, imported[i].categoryId).Some?
      && FindByKey(definitions, AccountKey, imported[i].accountId).Some?
    requires |accounts| == |definitions|
    requires forall i :: 0 <= i < |accounts| ==> accounts[i].id == definitions[i].id
    ensures forall i :: 0 <= i < |SortByDateDesc(imported)| ==>
      FindByKey(categories, CategoryKey, SortByDateDesc(imported)[i].categoryId).Some?
      && FindByKey(accounts, AccountKey, SortByDateDesc(imported)[i].accountId).Some?
  {
    var sorted := SortByDateDesc(imported);
    forall i | 0 <= i < |sorted|
      ensures FindByKey(categories, CategoryKey, sorted[i].categoryId).Some?
      ensures FindByKey(accounts, AccountKey, sorted[i].accountId).Some?
    {
      assert sorted[i] in multiset(imported);
      var j :| 0 <= j < |imported| && imported[j] == sorted[i];
      IndexOfSameKeys(accounts, definitions, AccountKey, sorted[i].accountId);
    }
  }

  /**
   * The whole reconciliation: categories, account definitions and
   * transactions normalised, accounts rebalanced, transactions stored most
   * recent first. `*Ids` are the ids made up for rows that carry none and
   * `hostDates` the host's reading of each transaction's date cell.
   */
  method Reconcile(
    categoryRows: seq<CategoryRow>, accountRows: seq<AccountRow>, transactionRows: seq<TransactionRow>,
    categoryIds: seq<string>, accountIds: seq<string>, transactionIds: seq<string>, hostDates: seq<string>)
    returns (accounts: seq<Account>, categories: seq<Category>, transactions: seq<Transaction>)
    requires |categoryIds| == |categoryRows| && |accountIds| == |accountRows|
    requires |transactionIds| == |transactionRows| && |hostDates| == |transactionRows|
    ensures categories == NormalizeCategories(categoryRows, categoryIds)
    ensures |accounts| == |accountRows|
    ensures var definitions := NormalizeAccounts(accountRows, accountIds);
      forall i :: 0 <= i < |accounts| ==>
        accounts[i] == Rebalanced(definitions[i], transactions)
    ensures forall i :: 0 <= i < |accounts| ==> accounts[i].balance >= 0
    ensures forall i :: 0 <= i < |transactions| ==>
      FindByKey(categories, CategoryKey, transactions[i].categoryId).Some?
      && FindByKey(accounts, AccountKey, transactions[i].accountId).Some?
    ensures |transactions| <= |transactionRows|
    ensures transactions == SortByDateDesc(NormalizeTransactions(
      transactionRows, categories, NormalizeAccounts(accountRows, accountIds),
      DefaultCategory(categories, "Otro Ingreso", Income), DefaultCategory(categories, "Gasto Diverso", Expense),
      hostDates, transactionIds))
    ensures DateDescending(transactions)
  {
    categories := NormalizeCategories(categoryRows, categoryIds);
    var expenseFallback := DefaultCategory(categories, "Gasto Diverso", Expense);
    var incomeFallback := DefaultCategory(categories, "Otro Ingreso", Income);
    var definitions := NormalizeAccounts(accountRows, accountIds);
    var imported := NormalizeTransactions(transactionRows, categories, definitions, incomeFallback, expenseFallback, hostDates, transactionIds);
    accounts := ReconcileBalances(definitions, imported);
    transactions := SortByDateDesc(imported);

    BalancesSurviveSort(definitions, imported, accounts);
    ReferencesSurviveReconciliation(imported, categories, definitions, accounts);
  }
}
