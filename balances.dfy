/**
 * The balance arithmetic of the ledger as functions on the account list,
 * and the facts that make the ledger consistent: every accepted add,
 * update and delete keeps each account's balance equal to its opening
 * balance plus the signed sum of the transactions referencing it.
 */
module Balances {
  import opened Wrappers
  import opened Domain
  import opened Seqs
  import opened Dates
  import opened Timeline

  /** The three modes of `updateAccountBalance`. */
  datatype BalanceMode = Add | Subtract | Set

  /** `add` shifts the balance up by the amount, `subtract` down by it, and `set` replaces it. */
  function AdjustedBalance(balance: int, amount: int, mode: BalanceMode): (r: int)
    ensures mode == Add ==> r - balance == amount
    ensures mode == Subtract ==> balance - r == amount
    ensures mode == Set ==> r == amount
  {
    match mode
    case Add => balance + amount
    case Subtract => balance - amount
    case Set => amount
  }

  /**
   * The updater `updateAccountBalance` hands to `setAccounts`: only the
   * balance of the accounts with that id changes; an unknown id changes nothing.
   */
  function BalanceUpdated(accounts: seq<Account>, accountId: string, amount: int, mode: BalanceMode): (r: seq<Account>)
    ensures |r| == |accounts|
    ensures forall i :: 0 <= i < |accounts| ==>
      r[i] == if accounts[i].id == accountId
              then accounts[i].(balance := AdjustedBalance(accounts[i].balance, amount, mode))
              else accounts[i]
    ensures (forall i :: 0 <= i < |accounts| ==> accounts[i].id != accountId) ==> r == accounts
  {
    if accounts == [] then []
    else
      var a := accounts[0];
      [if a.id == accountId then a.(balance := AdjustedBalance(a.balance, amount, mode)) else a]
      + BalanceUpdated(accounts[1..], accountId, amount, mode)
  }

  /** The adjustment that books `t` on its account: `add` for income, `subtract` for expense. */
  function ApplyEffect(accounts: seq<Account>, t: Transaction): (r: seq<Account>)
    ensures |r| == |accounts|
    ensures forall i :: 0 <= i < |accounts| ==>
      r[i] == accounts[i].(balance := accounts[i].balance + Contribution(t, accounts[i].id))
  {
    BalanceUpdated(accounts, t.accountId, t.amount, if t.kind == Income then Add else Subtract)
  }

  /** The adjustment that takes `t` back: `subtract` for income, `add` for expense. */
  function ReverseEffect(accounts: seq<Account>, t: Transaction): (r: seq<Account>)
    ensures |r| == |accounts|
    ensures forall i :: 0 <= i < |accounts| ==>
      r[i] == accounts[i].(balance := accounts[i].balance - Contribution(t, accounts[i].id))
  {
    BalanceUpdated(accounts, t.accountId, t.amount, if t.kind == Income then Subtract else Add)
  }

  /** Booking a transaction and taking it back, in either order, restores every account. */
  lemma {:induction false} ReverseUndoesApply(accounts: seq<Account>, t: Transaction)
    ensures ReverseEffect(ApplyEffect(accounts, t), t) == accounts
    ensures ApplyEffect(ReverseEffect(accounts, t), t) == accounts
  {
    var up, down := ApplyEffect(accounts, t), ReverseEffect(accounts, t);
    var r1, r2 := ReverseEffect(up, t), ApplyEffect(down, t);
    forall i | 0 <= i < |accounts| ensures r1[i] == accounts[i] && r2[i] == accounts[i] {
      assert up[i].id == accounts[i].id && down[i].id == accounts[i].id;
    }
  }

  /**
   * The balance `updateTransaction` tests an expense against: the target's
   * balance with the original transaction taken back when it was booked on
   * the same account.
   */
  function EffectiveBalance(target: Account, original: Transaction, updated: Transaction): (r: int)
    ensures r == target.balance - (if original.accountId == updated.accountId then SignedAmount(original) else 0)
  {
    if original.accountId == updated.accountId then
      if original.kind == Income then target.balance - original.amount else target.balance + original.amount
    else target.balance
  }

  /** Searching by id finds the same position after a balance adjustment. */
  lemma {:induction false} AdjustedIndex(accounts: seq<Account>, r: seq<Account>, id: string)
    requires |r| == |accounts| && forall i :: 0 <= i < |accounts| ==> r[i].id == accounts[i].id
    ensures IndexOfKey(r, AccountKey, id) == IndexOfKey(accounts, AccountKey, id)
  {
    IndexOfSameKeys(r, accounts, AccountKey, id);
  }

  /**
   * When the account does not change, the effective balance is exactly the
   * target's balance once the original transaction is taken back.
   */
  lemma {:induction false} EffectiveBalanceIsReversedBalance(accounts: seq<Account>, original: Transaction, updated: Transaction)
    requires original.accountId == updated.accountId
    requires FindByKey(accounts, AccountKey, updated.accountId).Some?
    ensures var target := FindByKey(accounts, AccountKey, updated.accountId).value;
            FindByKey(ReverseEffect(accounts, original), AccountKey, updated.accountId).Some?
            && EffectiveBalance(target, original, updated)
               == FindByKey(ReverseEffect(accounts, original), AccountKey, updated.accountId).value.balance
  {
    AdjustedIndex(accounts, ReverseEffect(accounts, original), updated.accountId);
  }

  /** An accepted expense (amount within the balance) leaves its account non-negative. */
  lemma {:induction false} AddedExpenseNonNegative(accounts: seq<Account>, t: Transaction)
    requires t.kind == Expense
    requires FindByKey(accounts, AccountKey, t.accountId).Some?
    requires t.amount <= FindByKey(accounts, AccountKey, t.accountId).value.balance
    ensures FindByKey(ApplyEffect(accounts, t), AccountKey, t.accountId).Some?
    ensures FindByKey(ApplyEffect(accounts, t), AccountKey, t.accountId).value.balance >= 0
  {
    AdjustedIndex(accounts, ApplyEffect(accounts, t), t.accountId);
  }

  /**
   * An accepted expense update (amount within the effective balance) leaves
   * the destination account non-negative, whether or not it moved.
   */
  lemma {:induction false} UpdatedExpenseNonNegative(accounts: seq<Account>, original: Transaction, updated: Transaction)
    requires updated.kind == Expense
    requires FindByKey(accounts, AccountKey, updated.accountId).Some?
    requires updated.amount <= EffectiveBalance(FindByKey(accounts, AccountKey, updated.accountId).value, original, updated)
    ensures var r := ApplyEffect(ReverseEffect(accounts, original), updated);
            FindByKey(r, AccountKey, updated.accountId).Some? && FindByKey(r, AccountKey, updated.accountId).value.balance >= 0
  {
    var mid := ReverseEffect(accounts, original);
    AdjustedIndex(accounts, mid, updated.accountId);
    AdjustedIndex(mid, ApplyEffect(mid, updated), updated.accountId);
  }

  /** Deleting an income the guard lets through leaves its account non-negative. */
  lemma {:induction false} DeletedIncomeNonNegative(accounts: seq<Account>, t: Transaction)
    requires t.kind == Income
    requires FindByKey(accounts, AccountKey, t.accountId).Some?
    requires FindByKey(accounts, AccountKey, t.accountId).value.balance - t.amount >= 0
    ensures FindByKey(ReverseEffect(accounts, t), AccountKey, t.accountId).Some?
    ensures FindByKey(ReverseEffect(accounts, t), AccountKey, t.accountId).value.balance >= 0
  {
    AdjustedIndex(accounts, ReverseEffect(accounts, t), t.accountId);
  }

  /** Each account's balance minus the signed sum of the transactions referencing it. */
  function Baselines(accounts: seq<Account>, txs: seq<Transaction>): (r: seq<int>)
    ensures |r| == |accounts|
    ensures forall i :: 0 <= i < |accounts| ==> accounts[i].balance == r[i] + SignedSum(txs, accounts[i].id)
  {
    seq(|accounts|, i requires 0 <= i < |accounts| => accounts[i].balance - SignedSum(txs, accounts[i].id))
  }

  /** Adding a transaction (prepend, sort, book) keeps every account's opening balance. */
  lemma {:induction false} AddKeepsBaselines(accounts: seq<Account>, txs: seq<Transaction>, t: Transaction)
    ensures Baselines(ApplyEffect(accounts, t), SortByDateDesc([t] + txs)) == Baselines(accounts, txs)
  {
    var after := Baselines(ApplyEffect(accounts, t), SortByDateDesc([t] + txs));
    forall i | 0 <= i < |accounts| ensures after[i] == Baselines(accounts, txs)[i] {
      SignedSumSort([t] + txs, accounts[i].id);
      assert ([t] + txs)[1..] == txs;
    }
  }

  /** Replacing the transaction at `k` and re-sorting swaps its contribution to `accountId` for the update's. */
  lemma {:induction false} SignedSumRebooked(txs: seq<Transaction>, k: nat, updated: Transaction, accountId: string)
    requires DistinctKeys(txs, TransactionKey) && k < |txs| && txs[k].id == updated.id
    ensures SignedSum(SortByDateDesc(ReplaceByKey(txs, TransactionKey, updated)), accountId)
         == SignedSum(txs, accountId) - Contribution(txs[k], accountId) + Contribution(updated, accountId)
  {
    var replaced := ReplaceByKey(txs, TransactionKey, updated);
    ReplaceByKeyAt(txs, TransactionKey, k, updated);
    assert txs == txs[..k] + [txs[k]] + txs[k + 1..];
    SignedSumSort(replaced, accountId);
    SignedSumSplice(txs[..k], updated, txs[k + 1..], accountId);
    SignedSumSplice(txs[..k], txs[k], txs[k + 1..], accountId);
  }

  /**
   * Updating the transaction at `k` (replace by id, sort, take the original
   * back, book the update) keeps every account's opening balance.
   */
  lemma {:induction false} UpdateKeepsBaselines(accounts: seq<Account>, txs: seq<Transaction>, k: nat, updated: Transaction)
    requires DistinctKeys(txs, TransactionKey) && k < |txs| && txs[k].id == updated.id
    ensures Baselines(ApplyEffect(ReverseEffect(accounts, txs[k]), updated),
                      SortByDateDesc(ReplaceByKey(txs, TransactionKey, updated)))
         == Baselines(accounts, txs)
  {
    var rebooked := ApplyEffect(ReverseEffect(accounts, txs[k]), updated);
    var after := Baselines(rebooked, SortByDateDesc(ReplaceByKey(txs, TransactionKey, updated)));
    forall i | 0 <= i < |accounts| ensures after[i] == Baselines(accounts, txs)[i] {
      var id := accounts[i].id;
      assert rebooked[i].id == id;
      assert rebooked[i].balance == accounts[i].balance - Contribution(txs[k], id) + Contribution(updated, id);
      SignedSumRebooked(txs, k, updated, id);
    }
  }

  /** Deleting the transaction at `k` (filter by id, take it back) keeps every account's opening balance. */
  lemma {:induction false} DeleteKeepsBaselines(accounts: seq<Account>, txs: seq<Transaction>, k: nat)
    requires DistinctKeys(txs, TransactionKey) && k < |txs|
    ensures Baselines(ReverseEffect(accounts, txs[k]), RemoveByKey(txs, TransactionKey, txs[k].id))
         == Baselines(accounts, txs)
  {
    var removed := RemoveByKey(txs, TransactionKey, txs[k].id);
    RemoveByKeyAt(txs, TransactionKey, k);
    assert removed == txs[..k] + txs[k + 1..];
    var reversed := ReverseEffect(accounts, txs[k]);
    forall i | 0 <= i < |accounts| ensures Baselines(reversed, removed)[i] == Baselines(accounts, txs)[i] {
      SignedSumWithout(txs, k, accounts[i].id);
    }
  }

  /**
   * Updating a transaction with the value it already has changes nothing:
   * the list stays as it is and every balance is restored.
   */
  lemma {:induction false} UpdateWithSameValueChangesNothing(accounts: seq<Account>, txs: seq<Transaction>, k: nat)
    requires DistinctKeys(txs, TransactionKey) && DateDescending(txs) && k < |txs|
    ensures SortByDateDesc(ReplaceByKey(txs, TransactionKey, txs[k])) == txs
    ensures ApplyEffect(ReverseEffect(accounts, txs[k]), txs[k]) == accounts
  {
    ReplaceByKeyAt(txs, TransactionKey, k, txs[k]);
    assert txs[..k] + [txs[k]] + txs[k + 1..] == txs;
    SortKeepsSorted(txs);
    ReverseUndoesApply(accounts, txs[k]);
  }

  /**
   * Moving a transaction to another account takes its effect off the
   * original account and puts it on the new one; nothing else changes.
   */
  lemma {:induction false} MoveShiftsEffect(accounts: seq<Account>, original: Transaction, target: string, i: nat)
    requires original.accountId != target && i < |accounts|
    ensures var r := ApplyEffect(ReverseEffect(accounts, original), original.(accountId := target));
            && |r| == |accounts|
            && r[i].balance == accounts[i].balance
                 + (if accounts[i].id == target then SignedAmount(original)
                    else if accounts[i].id == original.accountId then -SignedAmount(original)
                    else 0)
            && r[i] == accounts[i].(balance := r[i].balance)
  {
  }

  /** Adding a transaction to a sorted list and then deleting it restores the list and every balance. */
  lemma {:induction false} AddThenDeleteRestores(accounts: seq<Account>, txs: seq<Transaction>, t: Transaction)
    requires DateDescending(txs)
    requires forall j :: 0 <= j < |txs| ==> txs[j].id != t.id
    ensures RemoveByKey(SortByDateDesc([t] + txs), TransactionKey, t.id) == txs
    ensures ReverseEffect(ApplyEffect(accounts, t), t) == accounts
  {
    SortPrepended(t, txs);
    RemoveInserted(t, txs);
    ReverseUndoesApply(accounts, t);
  }

  lemma {:induction false} RemoveInserted(t: Transaction, txs: seq<Transaction>)
    requires forall j :: 0 <= j < |txs| ==> txs[j].id != t.id
    ensures RemoveByKey(InsertByDate(t, txs), TransactionKey, t.id) == txs
  {
    if txs == [] || LexLe(txs[0].date, t.date) {
      assert ([t] + txs)[1..] == txs;
      RemoveNoneOfKey(txs, TransactionKey, t.id);
    } else {
      var rest := InsertByDate(t, txs[1..]);
      assert ([txs[0]] + rest)[1..] == rest;
      RemoveInserted(t, txs[1..]);
      assert [txs[0]] + txs[1..] == txs;
    }
  }
}
