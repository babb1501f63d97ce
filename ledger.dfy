/**
 * The ledger of `GastoZenProvider` (App.tsx): accounts, categories and
 * transactions, and the operations that change them. Each state setter is an
 * assignment to a field, and the balance adjustments one operation makes are
 * applied one after the other, each to the result of the previous one.
 */
module LedgerEngine {
  import opened Wrappers
  import opened Domain
  import opened Seqs
  import opened Timeline
  import opened Balances

  /** Why an operation changed nothing; the fields are what the user-facing message names. */
  datatype Rejection =
    | InsufficientFunds(accountName: string, requested: int, available: int)
    | TransactionNotFound
    | TargetAccountNotFound
    | WouldGoNegative(accountName: string, amount: int, resulting: int)
    | AccountInUse
    | CategoryInUse

  datatype Outcome = Accepted | Rejected(reason: Rejection)

  /** `Omit<Transaction, 'id'>`: a transaction before the ledger gives it an id. */
  datatype TransactionDraft = TransactionDraft(
    date: string, description: string, amount: int, kind: TxType,
    categoryId: string, accountId: string, notes: Option<string>)

  /** `{ ...transactionData, id }`: the draft's fields, and the given id. */
  function WithId(d: TransactionDraft, id: string): (t: Transaction)
    ensures t.id == id
    ensures t.date == d.date && t.description == d.description && t.amount == d.amount && t.kind == d.kind
    ensures t.categoryId == d.categoryId && t.accountId == d.accountId && t.notes == d.notes
  {
    Transaction(id, d.date, d.description, d.amount, d.kind, d.categoryId, d.accountId, d.notes)
  }

  /** `Omit<Account, 'id' | 'balance'>`; the opening balance is passed on its own. */
  datatype AccountDraft = AccountDraft(name: string, kind: AccountType, color: string, icon: Option<string>)

  /** `Omit<Category, 'id'>`. */
  datatype CategoryDraft = CategoryDraft(name: string, color: string, kind: TxType, icon: Option<string>)

  class Ledger {
    var accounts: seq<Account>
    var categories: seq<Category>
    var transactions: seq<Transaction>

    /** Each account's opening balance: its balance before the transactions now referencing it. */
    ghost var openings: seq<int>

    /**
     * Every account's balance is its opening balance plus the signed sum of
     * the transactions referencing it; transaction ids are distinct; the
     * transactions are in descending date order.
     */
    ghost predicate Valid()
      reads this
    {
      && openings == Baselines(accounts, transactions)
      && DistinctKeys(transactions, TransactionKey)
      && DateDescending(transactions)
    }

    /** The ledger over the collections loaded at start-up; their balances are taken as they are. */
    constructor (accounts0: seq<Account>, categories0: seq<Category>, transactions0: seq<Transaction>)
      requires DistinctKeys(transactions0, TransactionKey) && DateDescending(transactions0)
      ensures Valid()
      ensures accounts == accounts0 && categories == categories0 && transactions == transactions0
    {
      accounts, categories, transactions := accounts0, categories0, transactions0;
      openings := Baselines(accounts0, transactions0);
    }

    /** `getAccountById`: the first account with that id. */
    function GetAccountById(id: string): (r: Option<Account>)
      reads this
      ensures r.Some? ==> r.value in accounts && r.value.id == id
      ensures r.Some? ==> IndexOfKey(accounts, AccountKey, id).Some? && r.value == accounts[IndexOfKey(accounts, AccountKey, id).value]
      ensures r.None? <==> forall i :: 0 <= i < |accounts| ==> accounts[i].id != id
    {
      FindByKey(accounts, AccountKey, id)
    }

    /** `getCategoryById`: the first category with that id. */
    function GetCategoryById(id: string): (r: Option<Category>)
      reads this
      ensures r.Some? ==> r.value in categories && r.value.id == id
      ensures r.Some? ==> IndexOfKey(categories, CategoryKey, id).Some? && r.value == categories[IndexOfKey(categories, CategoryKey, id).value]
      ensures r.None? <==> forall i :: 0 <= i < |categories| ==> categories[i].id != id
    {
      FindByKey(categories, CategoryKey, id)
    }

    /** `updateAccountBalance`: adjusts the balance of the accounts with that id and nothing else. */
    method UpdateAccountBalance(accountId: string, amount: int, mode: BalanceMode)
      modifies this
      ensures accounts == BalanceUpdated(old(accounts), accountId, amount, mode)
      ensures transactions == old(transactions) && categories == old(categories) && openings == old(openings)
    {
      accounts := BalanceUpdated(accounts, accountId, amount, mode);
    }

    /**
     * `addTransaction`: an expense larger than its account's balance is
     * rejected; otherwise the transaction goes in at its place in date
     * order and its account is adjusted. A transaction whose account does
     * not exist is added and adjusts nothing.
     */
    method AddTransaction(draft: TransactionDraft, freshId: string) returns (outcome: Outcome)
      requires Valid()
      requires forall j :: 0 <= j < |transactions| ==> transactions[j].id != freshId
      modifies this
      ensures Valid() && openings == old(openings) && categories == old(categories)
      ensures var target := FindByKey(old(accounts), AccountKey, draft.accountId);
              if draft.kind == Expense && target.Some? && draft.amount > target.value.balance then
                && outcome == Rejected(InsufficientFunds(target.value.name, draft.amount, target.value.balance))
                && accounts == old(accounts) && transactions == old(transactions)
              else
                && outcome == Accepted
                && transactions == SortByDateDesc([WithId(draft, freshId)] + old(transactions))
                && transactions == InsertByDate(WithId(draft, freshId), old(transactions))
                && accounts == ApplyEffect(old(accounts), WithId(draft, freshId))
      ensures outcome.Accepted? && draft.kind == Expense && FindByKey(old(accounts), AccountKey, draft.accountId).Some? ==>
              && FindByKey(accounts, AccountKey, draft.accountId).Some?
              && FindByKey(accounts, AccountKey, draft.accountId).value.balance >= 0
    {
      if draft.kind == Expense {
        var account := FindByKey(accounts, AccountKey, draft.accountId);
        if account.Some? && draft.amount > account.value.balance {
          return Rejected(InsufficientFunds(account.value.name, draft.amount, account.value.balance));
        }
      }
      var t := WithId(draft, freshId);
      ghost var accountsBefore, transactionsBefore := accounts, transactions;
      transactions := SortByDateDesc([t] + transactions);
      if t.kind == Income {
        UpdateAccountBalance(t.accountId, t.amount, Add);
      } else {
        UpdateAccountBalance(t.accountId, t.amount, Subtract);
      }
      outcome := Accepted;

      AddKeepsBaselines(accountsBefore, transactionsBefore, t);
      SortPrepended(t, transactionsBefore);
      DistinctCons(t, transactionsBefore, TransactionKey);
      DistinctSort([t] + transactionsBefore);
      if t.kind == Expense && FindByKey(accountsBefore, AccountKey, t.accountId).Some? {
        AddedExpenseNonNegative(accountsBefore, t);
      }
    }

    /**
     * `updateTransaction`: rejected when the id is unknown, or when the
     * update is an expense whose account is missing or whose amount exceeds
     * the effective balance. Otherwise the transaction is replaced and the
     * list re-sorted, the original is taken back from its account and the
     * update is booked on its own account, in that order.
     */
    method UpdateTransaction(updated: Transaction) returns (outcome: Outcome)
      requires Valid()
      modifies this
      ensures Valid() && openings == old(openings) && categories == old(categories)
      ensures IndexOfKey(old(transactions), TransactionKey, updated.id).None? ==>
              && outcome == Rejected(TransactionNotFound)
              && accounts == old(accounts) && transactions == old(transactions)
      ensures IndexOfKey(old(transactions), TransactionKey, updated.id).Some? ==>
              var original := old(transactions)[IndexOfKey(old(transactions), TransactionKey, updated.id).value];
              var target := FindByKey(old(accounts), AccountKey, updated.accountId);
              if updated.kind == Expense && target.None? then
                && outcome == Rejected(TargetAccountNotFound)
                && accounts == old(accounts) && transactions == old(transactions)
              else if updated.kind == Expense && updated.amount > EffectiveBalance(target.value, original, updated) then
                && outcome == Rejected(InsufficientFunds(target.value.name, updated.amount,
                                                         EffectiveBalance(target.value, original, updated)))
                && accounts == old(accounts) && transactions == old(transactions)
              else
                && outcome == Accepted
                && transactions == SortByDateDesc(ReplaceByKey(old(transactions), TransactionKey, updated))
                && accounts == ApplyEffect(ReverseEffect(old(accounts), original), updated)
      ensures outcome.Accepted? && updated.kind == Expense ==>
              && FindByKey(accounts, AccountKey, updated.accountId).Some?
              && FindByKey(accounts, AccountKey, updated.accountId).value.balance >= 0
    {
      var index := IndexOfKey(transactions, TransactionKey, updated.id);
      if index.None? {
        return Rejected(TransactionNotFound);
      }
      var original := transactions[index.value];

      if updated.kind == Expense {
        var target := FindByKey(accounts, AccountKey, updated.accountId);
        if target.Some? {
          var effectiveBalance := target.value.balance;
          if original.accountId == updated.accountId {
            if original.kind == Income {
              effectiveBalance := effectiveBalance - original.amount;
            } else {
              effectiveBalance := effectiveBalance + original.amount;
            }
          }
          if updated.amount > effectiveBalance {
            return Rejected(InsufficientFunds(target.value.name, updated.amount, effectiveBalance));
          }
        } else {
          return Rejected(TargetAccountNotFound);
        }
      }

      ghost var accountsBefore := accounts;
      Rebook(index.value, updated);
      outcome := Accepted;
      if updated.kind == Expense {
        UpdatedExpenseNonNegative(accountsBefore, original, updated);
      }
    }

    /**
     * The accepted part of `updateTransaction`: replace the transaction at
     * `k` and re-sort, take the original back from its account, then book
     * the update on its account.
     */
    method Rebook(k: nat, updated: Transaction)
      requires Valid() && k < |transactions| && transactions[k].id == updated.id
      modifies this
      ensures Valid() && openings == old(openings) && categories == old(categories)
      ensures transactions == SortByDateDesc(ReplaceByKey(old(transactions), TransactionKey, updated))
      ensures accounts == ApplyEffect(ReverseEffect(old(accounts), old(transactions)[k]), updated)
    {
      var original := transactions[k];
      ghost var accountsBefore, transactionsBefore := accounts, transactions;
      transactions := SortByDateDesc(ReplaceByKey(transactions, TransactionKey, updated));
      if original.kind == Income {
        UpdateAccountBalance(original.accountId, original.amount, Subtract);
      } else {
        UpdateAccountBalance(original.accountId, original.amount, Add);
      }
      if updated.kind == Income {
        UpdateAccountBalance(updated.accountId, updated.amount, Add);
      } else {
        UpdateAccountBalance(updated.accountId, updated.amount, Subtract);
      }
      UpdateKeepsBaselines(accountsBefore, transactionsBefore, k, updated);
      ReplaceKeepsDistinct(transactionsBefore, TransactionKey, updated);
      DistinctSort(ReplaceByKey(transactionsBefore, TransactionKey, updated));
    }

    /**
     * `deleteTransaction`: an unknown id changes nothing; removing an income
     * that would leave its account negative is rejected. Otherwise the
     * transaction leaves the list (the others keep their order) and is
     * taken back from its account.
     */
    method DeleteTransaction(transactionId: string) returns (outcome: Outcome)
      requires Valid()
      modifies this
      ensures Valid() && openings == old(openings) && categories == old(categories)
      ensures IndexOfKey(old(transactions), TransactionKey, transactionId).None? ==>
              && outcome == Rejected(TransactionNotFound)
              && accounts == old(accounts) && transactions == old(transactions)
      ensures IndexOfKey(old(transactions), TransactionKey, transactionId).Some? ==>
              var k := IndexOfKey(old(transactions), TransactionKey, transactionId).value;
              var doomed := old(transactions)[k];
              var account := FindByKey(old(accounts), AccountKey, doomed.accountId);
              if doomed.kind == Income && account.Some? && account.value.balance - doomed.amount < 0 then
                && outcome == Rejected(WouldGoNegative(account.value.name, doomed.amount, account.value.balance - doomed.amount))
                && accounts == old(accounts) && transactions == old(transactions)
              else
                && outcome == Accepted
                && transactions == old(transactions)[..k] + old(transactions)[k + 1..]
                && accounts == ReverseEffect(old(accounts), doomed)
                && (doomed.kind == Income && account.Some? ==>
                      FindByKey(accounts, AccountKey, doomed.accountId).Some?
                      && FindByKey(accounts, AccountKey, doomed.accountId).value.balance >= 0)
    {
      var index := IndexOfKey(transactions, TransactionKey, transactionId);
      if index.Some? {
        var doomed := transactions[index.value];
        if doomed.kind == Income {
          var account := FindByKey(accounts, AccountKey, doomed.accountId);
          if account.Some? && account.value.balance - doomed.amount < 0 {
            return Rejected(WouldGoNegative(account.value.name, doomed.amount, account.value.balance - doomed.amount));
          }
        }

        ghost var accountsBefore, transactionsBefore := accounts, transactions;
        Unbook(index.value);
        assert transactions == transactionsBefore[..index.value] + transactionsBefore[index.value + 1..];
        outcome := Accepted;
        if doomed.kind == Income && FindByKey(accountsBefore, AccountKey, doomed.accountId).Some? {
          DeletedIncomeNonNegative(accountsBefore, doomed);
        }
      } else {
        outcome := Rejected(TransactionNotFound);
      }
    }

    /**
     * The accepted part of `deleteTransaction`: filter the transaction at
     * `k` out by its id and take it back from its account.
     */
    method Unbook(k: nat)
      requires Valid() && k < |transactions|
      modifies this
      ensures Valid() && openings == old(openings) && categories == old(categories)
      ensures transactions == old(transactions)[..k] + old(transactions)[k + 1..]
      ensures accounts == ReverseEffect(old(accounts), old(transactions)[k])
    {
      var doomed := transactions[k];
      ghost var accountsBefore, transactionsBefore := accounts, transactions;
      transactions := RemoveByKey(transactions, TransactionKey, doomed.id);
      if doomed.kind == Income {
        UpdateAccountBalance(doomed.accountId, doomed.amount, Subtract);
      } else {
        UpdateAccountBalance(doomed.accountId, doomed.amount, Add);
      }
      DeleteKeepsBaselines(accountsBefore, transactionsBefore, k);
      RemoveByKeyAt(transactionsBefore, TransactionKey, k);
      RemoveSorted(transactionsBefore, k);
      DistinctWithout(transactionsBefore, TransactionKey, k);
    }

    /** `addAccount`: appends the new account with its opening balance. */
    method AddAccount(draft: AccountDraft, initialBalance: int, freshId: string)
      requires Valid()
      modifies this
      ensures Valid()
      ensures accounts == old(accounts) + [Account(freshId, draft.name, draft.kind, initialBalance, draft.color, draft.icon)]
      ensures transactions == old(transactions) && categories == old(categories)
      ensures openings == old(openings) + [initialBalance - SignedSum(transactions, freshId)]
    {
      var account := Account(freshId, draft.name, draft.kind, initialBalance, draft.color, draft.icon);
      ghost var before := accounts;
      accounts := accounts + [account];
      openings := openings + [initialBalance - SignedSum(transactions, freshId)];
      assert openings == Baselines(accounts, transactions) by {
        forall i | 0 <= i < |accounts| ensures openings[i] == Baselines(accounts, transactions)[i] {
          if i < |before| {
            assert accounts[i] == before[i];
          }
        }
      }
    }

    /**
     * `updateAccount`: replaces the accounts with that id. The new balance is
     * trusted as given, so those accounts' opening balances are re-based;
     * every other opening balance stays.
     */
    method UpdateAccount(updated: Account)
      requires Valid()
      modifies this
      ensures Valid()
      ensures accounts == ReplaceByKey(old(accounts), AccountKey, updated)
      ensures transactions == old(transactions) && categories == old(categories)
      ensures forall i :: 0 <= i < |accounts| && old(accounts)[i].id != updated.id ==> openings[i] == old(openings)[i]
      ensures forall i :: 0 <= i < |accounts| && old(accounts)[i].id == updated.id ==>
              openings[i] == updated.balance - SignedSum(transactions, updated.id)
    {
      accounts := ReplaceByKey(accounts, AccountKey, updated);
      openings := Baselines(accounts, transactions);
    }

    /** `deleteAccount`: blocked while a transaction references the account; otherwise removes it. */
    method DeleteAccount(accountId: string) returns (outcome: Outcome)
      requires Valid()
      modifies this
      ensures Valid()
      ensures transactions == old(transactions) && categories == old(categories)
      ensures ReferencesAccount(old(transactions), accountId) ==>
              outcome == Rejected(AccountInUse) && accounts == old(accounts) && openings == old(openings)
      ensures !ReferencesAccount(old(transactions), accountId) ==>
              outcome == Accepted && accounts == RemoveByKey(old(accounts), AccountKey, accountId)
    {
      if ReferencesAccount(transactions, accountId) {
        return Rejected(AccountInUse);
      }
      accounts := RemoveByKey(accounts, AccountKey, accountId);
      openings := Baselines(accounts, transactions);
      outcome := Accepted;
    }

    /** `addCategory`: appends the new category. */
    method AddCategory(draft: CategoryDraft, freshId: string)
      requires Valid()
      modifies this
      ensures Valid()
      ensures categories == old(categories) + [Category(freshId, draft.name, draft.color, draft.kind, draft.icon)]
      ensures accounts == old(accounts) && transactions == old(transactions) && openings == old(openings)
    {
      categories := categories + [Category(freshId, draft.name, draft.color, draft.kind, draft.icon)];
    }

    /** `updateCategory`: replaces the categories with that id. */
    method UpdateCategory(updated: Category)
      requires Valid()
      modifies this
      ensures Valid()
      ensures categories == ReplaceByKey(old(categories), CategoryKey, updated)
      ensures accounts == old(accounts) && transactions == old(transactions) && openings == old(openings)
    {
      categories := ReplaceByKey(categories, CategoryKey, updated);
    }

    /** `deleteCategory`: blocked while a transaction references the category; otherwise removes it. */
    method DeleteCategory(categoryId: string) returns (outcome: Outcome)
      requires Valid()
      modifies this
      ensures Valid()
      ensures accounts == old(accounts) && transactions == old(transactions) && openings == old(openings)
      ensures ReferencesCategory(old(transactions), categoryId) ==>
              outcome == Rejected(CategoryInUse) && categories == old(categories)
      ensures !ReferencesCategory(old(transactions), categoryId) ==>
              outcome == Accepted && categories == RemoveByKey(old(categories), CategoryKey, categoryId)
    {
      if ReferencesCategory(transactions, categoryId) {
        return Rejected(CategoryInUse);
      }
      categories := RemoveByKey(categories, CategoryKey, categoryId);
      outcome := Accepted;
    }
  }
}
