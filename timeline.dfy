/**
 * The order of the transaction list: most recent date first. Every
 * mutation re-sorts with `Array.prototype.sort`, which is stable, so
 * transactions of equal date keep their relative order. The model's
 * sort is a stable insertion sort.
 */
module Timeline {
  import opened Domain
  import opened Dates
  import opened Seqs

  /** Every transaction's date is no earlier than those after it. */
  predicate DateDescending(txs: seq<Transaction>) {
    forall i, j :: 0 <= i < j < |txs| ==> LexLe(txs[j].date, txs[i].date)
  }

  /** Puts `t` after the transactions strictly later than it and before the rest. */
  function InsertByDate(t: Transaction, txs: seq<Transaction>): (r: seq<Transaction>)
    ensures |r| == |txs| + 1
    ensures multiset(r) == multiset(txs) + multiset{t}
  {
    if txs == [] || LexLe(txs[0].date, t.date) then [t] + txs
    else
      assert txs == [txs[0]] + txs[1..];
      [txs[0]] + InsertByDate(t, txs[1..])
  }

  /** Inserting a transaction no later than `d` into transactions no later than `d` keeps them all no later than `d`. */
  lemma {:induction false} InsertBelow(t: Transaction, txs: seq<Transaction>, d: string)
    requires LexLe(t.date, d) && forall i :: 0 <= i < |txs| ==> LexLe(txs[i].date, d)
    ensures forall j :: 0 <= j < |InsertByDate(t, txs)| ==> LexLe(InsertByDate(t, txs)[j].date, d)
  {
    var r := InsertByDate(t, txs);
    if txs == [] || LexLe(txs[0].date, t.date) {
      assert forall j :: 1 <= j < |r| ==> r[j] == txs[j - 1];
    } else {
      var tail := txs[1..];
      assert forall i :: 0 <= i < |tail| ==> tail[i] == txs[i + 1];
      InsertBelow(t, tail, d);
      var rest := InsertByDate(t, tail);
      assert forall j :: 1 <= j < |r| ==> r[j] == rest[j - 1];
    }
  }

  lemma {:induction false} InsertSorted(t: Transaction, txs: seq<Transaction>)
    requires DateDescending(txs)
    ensures DateDescending(InsertByDate(t, txs))
  {
    if txs == [] {
    } else if LexLe(txs[0].date, t.date) {
      var r := [t] + txs;
      forall i, j | 0 <= i < j < |r| ensures LexLe(r[j].date, r[i].date) {
        if i == 0 && j > 1 {
          LexLeTransitive(txs[j - 1].date, txs[0].date, t.date);
        }
      }
    } else {
      LexLeTotal(txs[0].date, t.date);
      var tail := txs[1..];
      assert DateDescending(tail) by {
        forall i, j | 0 <= i < j < |tail| ensures LexLe(tail[j].date, tail[i].date) {
          assert tail[i] == txs[i + 1] && tail[j] == txs[j + 1];
        }
      }
      assert forall i :: 0 <= i < |tail| ==> LexLe(tail[i].date, txs[0].date) by {
        forall i | 0 <= i < |tail| ensures LexLe(tail[i].date, txs[0].date) {
          assert tail[i] == txs[i + 1];
        }
      }
      InsertSorted(t, tail);
      InsertBelow(t, tail, txs[0].date);
      var rest := InsertByDate(t, tail);
      var r := [txs[0]] + rest;
      forall i, j | 0 <= i < j < |r| ensures LexLe(r[j].date, r[i].date) {
        assert r[j] == rest[j - 1];
        if i > 0 {
          assert r[i] == rest[i - 1];
        }
      }
    }
  }

  /** `txs.sort((a, b) => date(b) - date(a))`. */
  function SortByDateDesc(txs: seq<Transaction>): (r: seq<Transaction>)
    ensures |r| == |txs| && multiset(r) == multiset(txs)
    ensures DateDescending(r)
  {
    if txs == [] then []
    else
      var rest := SortByDateDesc(txs[1..]);
      InsertSorted(txs[0], rest);
      assert txs == [txs[0]] + txs[1..];
      InsertByDate(txs[0], rest)
  }

  /** Sorting a list already in order leaves it as it is (the sort is stable). */
  lemma {:induction false} SortKeepsSorted(txs: seq<Transaction>)
    requires DateDescending(txs)
    ensures SortByDateDesc(txs) == txs
  {
    if txs != [] {
      assert DateDescending(txs[1..]) by {
        forall i, j | 0 <= i < j < |txs[1..]| ensures LexLe(txs[1..][j].date, txs[1..][i].date) {
          assert txs[1..][i] == txs[i + 1] && txs[1..][j] == txs[j + 1];
        }
      }
      SortKeepsSorted(txs[1..]);
      if |txs| > 1 {
        assert LexLe(txs[1].date, txs[0].date);
      }
      assert [txs[0]] + txs[1..] == txs;
    }
  }

  /** How many leading transactions of `txs` are strictly later than `t`. */
  function LaterPrefix(t: Transaction, txs: seq<Transaction>): (k: nat)
    ensures k <= |txs|
  {
    if txs == [] || LexLe(txs[0].date, t.date) then 0 else 1 + LaterPrefix(t, txs[1..])
  }

  lemma {:induction false} InsertAtLaterPrefix(t: Transaction, txs: seq<Transaction>)
    ensures var k := LaterPrefix(t, txs); InsertByDate(t, txs) == txs[..k] + [t] + txs[k..]
  {
    if txs == [] || LexLe(txs[0].date, t.date) {
      assert txs[..0] == [] && txs[0..] == txs;
    } else {
      var tail := txs[1..];
      var k' := LaterPrefix(t, tail);
      var k := k' + 1;
      assert InsertByDate(t, txs) == [txs[0]] + InsertByDate(t, tail);
      InsertAtLaterPrefix(t, tail);
      InsertedAfterHead(txs, t, k);
    }
  }

  lemma {:induction false} LaterPrefixIsLater(t: Transaction, txs: seq<Transaction>)
    ensures forall i :: 0 <= i < LaterPrefix(t, txs) ==> !LexLe(txs[i].date, t.date)
    ensures LaterPrefix(t, txs) < |txs| ==> LexLe(txs[LaterPrefix(t, txs)].date, t.date)
  {
    if txs != [] && !LexLe(txs[0].date, t.date) {
      var tail := txs[1..];
      LaterPrefixIsLater(t, tail);
      forall i | 0 <= i < LaterPrefix(t, txs) ensures !LexLe(txs[i].date, t.date) {
        if i > 0 {
          assert tail[i - 1] == txs[i];
        }
      }
      assert LaterPrefix(t, txs) < |txs| ==> txs[LaterPrefix(t, txs)] == tail[LaterPrefix(t, tail)];
    }
  }

  /**
   * Inserting into a sorted list puts `t` at one position `k`: every
   * transaction before it is strictly later, and the one after it (if any)
   * is not later.
   */
  lemma {:induction false} InsertPosition(t: Transaction, txs: seq<Transaction>) returns (k: nat)
    ensures k <= |txs| && InsertByDate(t, txs) == txs[..k] + [t] + txs[k..]
    ensures forall i :: 0 <= i < k ==> !LexLe(txs[i].date, t.date)
    ensures k < |txs| ==> LexLe(txs[k].date, t.date)
  {
    k := LaterPrefix(t, txs);
    InsertAtLaterPrefix(t, txs);
    LaterPrefixIsLater(t, txs);
  }

  /** Prepending `t` to a sorted list and sorting is inserting `t`. */
  lemma {:induction false} SortPrepended(t: Transaction, txs: seq<Transaction>)
    requires DateDescending(txs)
    ensures SortByDateDesc([t] + txs) == InsertByDate(t, txs)
  {
    assert ([t] + txs)[1..] == txs;
    SortKeepsSorted(txs);
  }

  lemma {:induction false} SignedSumInsert(t: Transaction, txs: seq<Transaction>, accountId: string)
    ensures SignedSum(InsertByDate(t, txs), accountId) == Contribution(t, accountId) + SignedSum(txs, accountId)
  {
    if txs == [] || LexLe(txs[0].date, t.date) {
      assert ([t] + txs)[1..] == txs;
    } else {
      SignedSumInsert(t, txs[1..], accountId);
      assert ([txs[0]] + InsertByDate(t, txs[1..]))[1..] == InsertByDate(t, txs[1..]);
    }
  }

  /** Sorting does not change any account's signed sum. */
  lemma {:induction false} SignedSumSort(txs: seq<Transaction>, accountId: string)
    ensures SignedSum(SortByDateDesc(txs), accountId) == SignedSum(txs, accountId)
  {
    if txs != [] {
      SignedSumSort(txs[1..], accountId);
      SignedSumInsert(txs[0], SortByDateDesc(txs[1..]), accountId);
    }
  }

  lemma {:induction false} DistinctInsert(t: Transaction, txs: seq<Transaction>)
    requires DistinctKeys(txs, TransactionKey)
    requires forall j :: 0 <= j < |txs| ==> txs[j].id != t.id
    ensures DistinctKeys(InsertByDate(t, txs), TransactionKey)
  {
    if txs == [] || LexLe(txs[0].date, t.date) {
      DistinctCons(t, txs, TransactionKey);
    } else {
      DistinctTail(txs, TransactionKey);
      assert forall j :: 0 <= j < |txs[1..]| ==> txs[1..][j].id != t.id by {
        forall j | 0 <= j < |txs[1..]| ensures txs[1..][j].id != t.id {
          assert txs[1..][j] == txs[j + 1];
        }
      }
      DistinctInsert(t, txs[1..]);
      var rest := InsertByDate(t, txs[1..]);
      forall j | 0 <= j < |rest| ensures TransactionKey(rest[j]) != TransactionKey(txs[0]) {
        assert rest[j] in multiset(rest);
        if rest[j] != t {
          assert rest[j] in txs[1..];
          var m :| 0 <= m < |txs[1..]| && txs[1..][m] == rest[j];
        }
      }
      DistinctCons(txs[0], rest, TransactionKey);
    }
  }

  /** Sorting keeps transaction ids distinct. */
  lemma {:induction false} DistinctSort(txs: seq<Transaction>)
    requires DistinctKeys(txs, TransactionKey)
    ensures DistinctKeys(SortByDateDesc(txs), TransactionKey)
  {
    if txs != [] {
      DistinctTail(txs, TransactionKey);
      DistinctSort(txs[1..]);
      var rest := SortByDateDesc(txs[1..]);
      forall j | 0 <= j < |rest| ensures rest[j].id != txs[0].id {
        assert rest[j] in multiset(txs[1..]);
        var m :| 0 <= m < |txs[1..]| && txs[1..][m] == rest[j];
      }
      DistinctInsert(txs[0], rest);
    }
  }

  /** Dropping transactions keeps the rest in date order. */
  lemma {:induction false} RemoveSorted(txs: seq<Transaction>, k: nat)
    requires DateDescending(txs) && k < |txs|
    ensures DateDescending(txs[..k] + txs[k + 1..])
  {
    var r := txs[..k] + txs[k + 1..];
    forall i, j | 0 <= i < j < |r| ensures LexLe(r[j].date, r[i].date) {
      var i' := if i < k then i else i + 1;
      var j' := if j < k then j else j + 1;
      assert r[i] == txs[i'] && r[j] == txs[j'];
    }
  }
}
