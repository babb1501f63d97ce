/**
 * Worked examples: the ledger operations on a small concrete state, as a
 * user would meet them in the app.
 */
module Scenarios {
  import opened Wrappers
  import opened Domain
  import opened Seqs
  import opened Dates
  import opened Timeline
  import opened Balances
  import opened LedgerEngine

  const Salary := Transaction("t1", "2024-05-02", "Sueldo", 100, Income, "cat-1", "acc-a", None)
  const Groceries := Transaction("t2", "2024-05-01", "Super", 50, Expense, "cat-2", "acc-a", None)

  /** The salary and the groceries have different ids and are listed newest first. */
  lemma {:induction false} HouseholdHistoryIsOrdered()
    ensures DistinctKeys([Salary, Groceries], TransactionKey) && DateDescending([Salary, Groceries])
  {
    LexLeAtFirstDifference(Groceries.date, Salary.date, 9);
    assert Salary.id[1] != Groceries.id[1];
    var history := [Salary, Groceries];
    assert history[0] == Salary && history[1] == Groceries;
  }

  /** A savings account that received a salary of 100 and paid groceries of 50, and a cash account holding 20. */
  method Household() returns (ledger: Ledger)
    ensures fresh(ledger) && ledger.Valid()
    ensures ledger.accounts == [
      Account("acc-a", "Ahorros", Savings, 50, "#0000AA", None),
      Account("acc-b", "Efectivo", Cash, 20, "#00AA00", None)]
    ensures ledger.transactions == [Salary, Groceries]
  {
    HouseholdHistoryIsOrdered();
    ledger := new Ledger(
      [Account("acc-a", "Ahorros", Savings, 50, "#0000AA", None), Account("acc-b", "Efectivo", Cash, 20, "#00AA00", None)],
      [], [Salary, Groceries]);
  }

  /** An expense larger than the account's balance is refused and nothing changes. */
  method OverspendingIsRefused() {
    var ledger := Household();
    var outcome := ledger.AddTransaction(
      TransactionDraft("2024-05-03", "Cine", 80, Expense, "cat-2", "acc-a", None), "t3");
    assert outcome == Rejected(InsufficientFunds("Ahorros", 80, 50));
    assert ledger.accounts[0].balance == 50;
  }

  /** Deleting the salary would leave the savings account at -50, so it is refused. */
  method DeletingFundingIncomeIsRefused() {
    var ledger := Household();
    var outcome := ledger.DeleteTransaction("t1");
    assert outcome == Rejected(WouldGoNegative("Ahorros", 100, -50));
  }

  /** An account with transactions cannot be deleted; one without can. */
  method DeletingAccounts() {
    var ledger := Household();
    assert ledger.transactions[0].accountId == "acc-a";
    var inUse := ledger.DeleteAccount("acc-a");
    assert inUse == Rejected(AccountInUse);
    var unused := ledger.DeleteAccount("acc-b");
    assert unused == Accepted;
  }

  /**
   * Moving the salary to the cash account is not checked at all (it stays an
   * income), and the savings account is left at -50.
   */
  method MovingAnIncomeCanOverdrawItsAccount() {
    var ledger := Household();
    var salary := ledger.transactions[0];
    var outcome := ledger.UpdateTransaction(salary.(accountId := "acc-b"));
    assert outcome == Accepted;
    assert ledger.accounts[0].balance == -50;
    assert ledger.accounts[1].balance == 120;
  }

  /**
   * Turning the salary into an expense of 10 paid from the cash account is
   * checked against the cash account only, which covers it; the savings
   * account the salary is taken back from is left at -50.
   */
  method TurningAnIncomeIntoAnExpenseCanOverdrawItsAccount() {
    var ledger := Household();
    var before := ledger.accounts;
    var changed := Salary.(accountId := "acc-b", kind := Expense, amount := 10);
    assert before[0].id != "acc-b" by {
      assert before[0].id[4] != "acc-b"[4];
    }
    assert IndexOfKey(ledger.transactions, TransactionKey, changed.id) == Some(0);
    assert IndexOfKey(before, AccountKey, "acc-b") == Some(1);
    assert EffectiveBalance(before[1], Salary, changed) == 20;
    var outcome := ledger.UpdateTransaction(changed);
    assert outcome == Accepted;
    assert ledger.accounts == ApplyEffect(ReverseEffect(before, Salary), changed);
    assert ledger.accounts[0].balance == -50;
    assert ledger.accounts[1].balance == 10;
  }
}
