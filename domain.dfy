/**
 * The entities of the finance tracker (types.ts): categories, accounts and
 * transactions, and the signed effect a transaction has on its account.
 *
 * Amounts and balances are integers: the currency is shown without decimals
 * and every amount field of the forms steps by one.
 */
module Domain {
  import opened Wrappers

  /** `TransactionType`, also the `type` of a category. */
  datatype TxType = Income | Expense

  /** The six account types of types.ts. */
  datatype AccountType = Checking | Savings | CreditCard | Cash | Investment | Other

  datatype Category = Category(id: string, name: string, color: string, kind: TxType, icon: Option<string>)

  datatype Account = Account(id: string, name: string, kind: AccountType, balance: int, color: string, icon: Option<string>)

  /** `date` is the `YYYY-MM-DD` text; `amount` is a magnitude, its direction is `kind`. */
  datatype Transaction = Transaction(
    id: string, date: string, description: string, amount: int, kind: TxType,
    categoryId: string, accountId: string, notes: Option<string>)

  /** The identity of each entity, as used by every lookup (`x.id === id`). */
  function CategoryKey(c: Category): string { c.id }
  function AccountKey(a: Account): string { a.id }
  function TransactionKey(t: Transaction): string { t.id }

  /** What a transaction does to its account's balance: `+amount` for income, `-amount` for expense. */
  function SignedAmount(t: Transaction): int {
    if t.kind == Income then t.amount else -t.amount
  }

  /** What `t` does to the balance of the account named `accountId`. */
  function Contribution(t: Transaction, accountId: string): int {
    if t.accountId == accountId then SignedAmount(t) else 0
  }

  /** The signed sum of the transactions of `txs` that reference `accountId`. */
  function SignedSum(txs: seq<Transaction>, accountId: string): int {
    if txs == [] then 0 else Contribution(txs[0], accountId) + SignedSum(txs[1..], accountId)
  }

  /** Income amounts referencing `accountId`, added up on their own. */
  function IncomeTotal(txs: seq<Transaction>, accountId: string): int {
    if txs == [] then 0
    else (if txs[0].accountId == accountId && txs[0].kind == Income then txs[0].amount else 0)
         + IncomeTotal(txs[1..], accountId)
  }

  /** Expense amounts referencing `accountId`, added up on their own. */
  function ExpenseTotal(txs: seq<Transaction>, accountId: string): int {
    if txs == [] then 0
    else (if txs[0].accountId == accountId && txs[0].kind == Expense then txs[0].amount else 0)
         + ExpenseTotal(txs[1..], accountId)
  }

  /** The signed sum is the income total minus the expense total. */
  lemma {:induction false} SignedSumIsIncomeMinusExpense(txs: seq<Transaction>, accountId: string)
    ensures SignedSum(txs, accountId) == IncomeTotal(txs, accountId) - ExpenseTotal(txs, accountId)
  {
    if txs != [] {
      SignedSumIsIncomeMinusExpense(txs[1..], accountId);
    }
  }

  lemma {:induction false} SignedSumConcat(a: seq<Transaction>, b: seq<Transaction>, accountId: string)
    ensures SignedSum(a + b, accountId) == SignedSum(a, accountId) + SignedSum(b, accountId)
  {
    if a == [] {
      assert a + b == b;
    } else {
      assert (a + b)[1..] == a[1..] + b;
      SignedSumConcat(a[1..], b, accountId);
    }
  }

  /** The signed sum of a list with one transaction singled out. */
  lemma {:induction false} SignedSumSplice(pre: seq<Transaction>, t: Transaction, post: seq<Transaction>, accountId: string)
    ensures SignedSum(pre + [t] + post, accountId)
         == SignedSum(pre, accountId) + Contribution(t, accountId) + SignedSum(post, accountId)
  {
    SignedSumConcat(pre + [t], post, accountId);
    SignedSumConcat(pre, [t], accountId);
    assert [t][1..] == [];
  }

  /** Leaving out the transaction at `k` takes its contribution out of the signed sum. */
  lemma {:induction false} SignedSumWithout(txs: seq<Transaction>, k: nat, accountId: string)
    requires k < |txs|
    ensures SignedSum(txs[..k] + txs[k + 1..], accountId) == SignedSum(txs, accountId) - Contribution(txs[k], accountId)
  {
    assert txs == txs[..k] + [txs[k]] + txs[k + 1..];
    SignedSumSplice(txs[..k], txs[k], txs[k + 1..], accountId);
    SignedSumConcat(txs[..k], txs[k + 1..], accountId);
  }

  /** `transactions.some(t => t.accountId === accountId)`: true exactly when some transaction is booked on the account. */
  function ReferencesAccount(txs: seq<Transaction>, accountId: string): (r: bool)
    ensures r <==> exists i :: 0 <= i < |txs| && txs[i].accountId == accountId
  {
    if txs == [] then false
    else if txs[0].accountId == accountId then true
    else
      var rest := ReferencesAccount(txs[1..], accountId);
      assert rest ==> exists i :: 0 <= i < |txs| && txs[i].accountId == accountId by {
        if rest {
          var j :| 0 <= j < |txs[1..]| && txs[1..][j].accountId == accountId;
          assert txs[j + 1] == txs[1..][j];
        }
      }
      rest
  }

  /** `transactions.some(t => t.categoryId === categoryId)`: true exactly when some transaction is filed under the category. */
  function ReferencesCategory(txs: seq<Transaction>, categoryId: string): (r: bool)
    ensures r <==> exists i :: 0 <= i < |txs| && txs[i].categoryId == categoryId
  {
    if txs == [] then false
    else if txs[0].categoryId == categoryId then true
    else
      var rest := ReferencesCategory(txs[1..], categoryId);
      assert rest ==> exists i :: 0 <= i < |txs| && txs[i].categoryId == categoryId by {
        if rest {
          var j :| 0 <= j < |txs[1..]| && txs[1..][j].categoryId == categoryId;
          assert txs[j + 1] == txs[1..][j];
        }
      }
      rest
  }

  /** An account no transaction references has nothing to its signed sum. */
  lemma {:induction false} UnreferencedSignedSum(txs: seq<Transaction>, accountId: string)
    requires !ReferencesAccount(txs, accountId)
    ensures SignedSum(txs, accountId) == 0
  {
    if txs != [] {
      assert txs[0].accountId != accountId;
      assert !ReferencesAccount(txs[1..], accountId) by {
        forall i | 0 <= i < |txs[1..]| ensures txs[1..][i].accountId != accountId {
          assert txs[1..][i] == txs[i + 1];
        }
      }
      UnreferencedSignedSum(txs[1..], accountId);
    }
  }
}
