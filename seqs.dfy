/**
 * The array operations the ledger applies to its collections by id:
 * `find`, `map` replacing the entry with a matching id, and `filter`
 * dropping it. `key` selects the id of an element.
 */
module Seqs {
  import opened Wrappers

  /** The position `find(x => key(x) === id)` stops at, if any. */
  function IndexOfKey<T>(s: seq<T>, key: T -> string, id: string): (r: Option<nat>)
    ensures r.Some? ==> r.value < |s| && key(s[r.value]) == id
    ensures r.Some? ==> forall j :: 0 <= j < r.value ==> key(s[j]) != id
    ensures r.None? <==> forall j :: 0 <= j < |s| ==> key(s[j]) != id
  {
    if s == [] then None
    else if key(s[0]) == id then Some(0)
    else match IndexOfKey(s[1..], key, id)
      case None => None
      case Some(k) => Some(k + 1)
  }

  /** `s.find(x => key(x) === id)`: the first element with that id. */
  function FindByKey<T>(s: seq<T>, key: T -> string, id: string): (r: Option<T>)
    ensures r.Some? <==> IndexOfKey(s, key, id).Some?
    ensures r.Some? ==> r.value == s[IndexOfKey(s, key, id).value] && key(r.value) == id
  {
    match IndexOfKey(s, key, id)
    case None => None
    case Some(k) => Some(s[k])
  }

  /** Two sequences whose elements have the same ids position by position are searched alike. */
  lemma {:induction false} IndexOfSameKeys<T>(s: seq<T>, t: seq<T>, key: T -> string, id: string)
    requires |s| == |t|
    requires forall i :: 0 <= i < |s| ==> key(s[i]) == key(t[i])
    ensures IndexOfKey(s, key, id) == IndexOfKey(t, key, id)
  {
    if s != [] {
      IndexOfSameKeys(s[1..], t[1..], key, id);
    }
  }

  /** `s.map(x => key(x) === key(y) ? y : x)`. */
  function ReplaceByKey<T>(s: seq<T>, key: T -> string, y: T): (r: seq<T>)
    ensures |r| == |s|
    ensures forall i :: 0 <= i < |s| ==> r[i] == if key(s[i]) == key(y) then y else s[i]
  {
    if s == [] then [] else [if key(s[0]) == key(y) then y else s[0]] + ReplaceByKey(s[1..], key, y)
  }

  /** `s.filter(x => key(x) !== id)`. */
  function RemoveByKey<T(==,!new)>(s: seq<T>, key: T -> string, id: string): (r: seq<T>)
    ensures |r| <= |s|
    ensures forall x :: x in r <==> x in s && key(x) != id
  {
    if s == [] then []
    else if key(s[0]) == id then RemoveByKey(s[1..], key, id)
    else [s[0]] + RemoveByKey(s[1..], key, id)
  }

  /** The filter drops every copy of each element with that id and keeps every copy of the others. */
  lemma {:induction false} RemoveByKeyCounts<T(!new)>(s: seq<T>, key: T -> string, id: string, x: T)
    ensures multiset(RemoveByKey(s, key, id))[x] == if key(x) == id then 0 else multiset(s)[x]
  {
    if s != [] {
      RemoveByKeyCounts(s[1..], key, id, x);
      assert s == [s[0]] + s[1..];
    }
  }

  /** No two elements share an id. */
  predicate DistinctKeys<T>(s: seq<T>, key: T -> string) {
    forall i, j :: 0 <= i < |s| && 0 <= j < |s| && i != j ==> key(s[i]) != key(s[j])
  }

  /** With distinct ids, replacing the entry whose id `y` carries changes that one position only. */
  lemma {:induction false} ReplaceByKeyAt<T>(s: seq<T>, key: T -> string, k: nat, y: T)
    requires DistinctKeys(s, key) && k < |s| && key(s[k]) == key(y)
    ensures ReplaceByKey(s, key, y) == s[..k] + [y] + s[k + 1..]
  {
    var r := ReplaceByKey(s, key, y);
    assert |r| == |s[..k] + [y] + s[k + 1..]|;
    forall i | 0 <= i < |r| ensures r[i] == (s[..k] + [y] + s[k + 1..])[i] {
      if i != k {
        assert key(s[i]) != key(s[k]);
      }
    }
  }

  /** With distinct ids, removing the id found at `k` drops exactly that position, keeping the rest in order. */
  lemma {:induction false} RemoveByKeyAt<T(!new)>(s: seq<T>, key: T -> string, k: nat)
    requires DistinctKeys(s, key) && k < |s|
    ensures RemoveByKey(s, key, key(s[k])) == s[..k] + s[k + 1..]
  {
    var id := key(s[k]);
    var pre, post := s[..k], s[k + 1..];
    assert s == pre + ([s[k]] + post);
    assert forall j :: 0 <= j < |pre| ==> key(pre[j]) != id by {
      forall j | 0 <= j < |pre| ensures key(pre[j]) != id {
        assert pre[j] == s[j];
      }
    }
    assert forall j :: 0 <= j < |post| ==> key(post[j]) != id by {
      forall j | 0 <= j < |post| ensures key(post[j]) != id {
        assert post[j] == s[k + 1 + j];
      }
    }
    var rest := [s[k]] + post;
    RemoveConcat(pre, rest, key, id);
    RemoveNoneOfKey(pre, key, id);
    assert rest[0] == s[k] && rest[1..] == post;
    assert RemoveByKey(rest, key, id) == RemoveByKey(post, key, id);
    RemoveNoneOfKey(post, key, id);
  }

  /** `filter` distributes over concatenation. */
  lemma {:induction false} RemoveConcat<T(!new)>(a: seq<T>, b: seq<T>, key: T -> string, id: string)
    ensures RemoveByKey(a + b, key, id) == RemoveByKey(a, key, id) + RemoveByKey(b, key, id)
  {
    if a == [] {
      assert a + b == b;
    } else {
      assert (a + b)[1..] == a[1..] + b;
      RemoveConcat(a[1..], b, key, id);
    }
  }

  /** Removing an id no element carries changes nothing. */
  lemma {:induction false} RemoveNoneOfKey<T(!new)>(s: seq<T>, key: T -> string, id: string)
    requires forall j :: 0 <= j < |s| ==> key(s[j]) != id
    ensures RemoveByKey(s, key, id) == s
  {
    if s != [] {
      RemoveNoneOfKey(s[1..], key, id);
    }
  }

  /** Ids stay distinct when an element with an unused id goes in front. */
  lemma {:induction false} DistinctCons<T>(x: T, s: seq<T>, key: T -> string)
    requires DistinctKeys(s, key)
    requires forall j :: 0 <= j < |s| ==> key(s[j]) != key(x)
    ensures DistinctKeys([x] + s, key)
  {
    var r := [x] + s;
    forall i, j | 0 <= i < |r| && 0 <= j < |r| && i != j ensures key(r[i]) != key(r[j]) {
      if i > 0 && j > 0 {
        assert r[i] == s[i - 1] && r[j] == s[j - 1];
      }
    }
  }

  /** A suffix of a sequence with distinct ids has distinct ids. */
  lemma {:induction false} DistinctTail<T>(s: seq<T>, key: T -> string)
    requires DistinctKeys(s, key) && s != []
    ensures DistinctKeys(s[1..], key)
    ensures forall j :: 0 <= j < |s[1..]| ==> key(s[1..][j]) != key(s[0])
  {
    forall i, j | 0 <= i < |s[1..]| && 0 <= j < |s[1..]| && i != j
      ensures key(s[1..][i]) != key(s[1..][j])
    {
      assert s[1..][i] == s[i + 1] && s[1..][j] == s[j + 1];
    }
    forall j | 0 <= j < |s[1..]| ensures key(s[1..][j]) != key(s[0]) {
      assert s[1..][j] == s[j + 1];
    }
  }

  /** Replacing by id leaves the id at every position as it was, so distinct ids stay distinct. */
  lemma {:induction false} ReplaceKeepsDistinct<T>(s: seq<T>, key: T -> string, y: T)
    requires DistinctKeys(s, key)
    ensures DistinctKeys(ReplaceByKey(s, key, y), key)
  {
    var r := ReplaceByKey(s, key, y);
    forall i, j | 0 <= i < |r| && 0 <= j < |r| && i != j ensures key(r[i]) != key(r[j]) {
      assert key(r[i]) == key(s[i]) && key(r[j]) == key(s[j]);
    }
  }

  /** Leaving out one position keeps ids distinct. */
  lemma {:induction false} DistinctWithout<T>(s: seq<T>, key: T -> string, k: nat)
    requires DistinctKeys(s, key) && k < |s|
    ensures DistinctKeys(s[..k] + s[k + 1..], key)
  {
    var r := s[..k] + s[k + 1..];
    forall i, j | 0 <= i < |r| && 0 <= j < |r| && i != j ensures key(r[i]) != key(r[j]) {
      var i' := if i < k then i else i + 1;
      var j' := if j < k then j else j + 1;
      assert r[i] == s[i'] && r[j] == s[j'];
    }
  }

  /** A sequence is its part before `k` followed by its part from `k` on. */
  lemma {:induction false} JoinedAt<T>(s: seq<T>, before: seq<T>, after: seq<T>, k: nat)
    requires k <= |s| && s[..k] == before && s[k..] == after
    ensures s == before + after
  {
    assert s == s[..k] + s[k..];
  }

  /** Inserting `x` at `k > 0` keeps the head in front of inserting it at `k - 1` in the tail. */
  lemma {:induction false} InsertedAfterHead<T>(s: seq<T>, x: T, k: nat)
    requires 0 < k <= |s|
    ensures s[..k] + [x] + s[k..] == [s[0]] + (s[1..][..k - 1] + [x] + s[1..][k - 1..])
  {
    assert s[..k] == [s[0]] + s[1..][..k - 1];
    assert s[k..] == s[1..][k - 1..];
  }

  /** `.filter(x => x !== null)` over optional elements: the present values, in order. */
  function Kept<T(==,!new)>(s: seq<Option<T>>): (r: seq<T>)
    ensures |r| <= |s|
    ensures forall x :: x in r <==> Some(x) in s
  {
    if s == [] then []
    else
      var rest := Kept(s[1..]);
      assert forall x :: Some(x) in s <==> Some(x) == s[0] || Some(x) in s[1..] by {
        assert s == [s[0]] + s[1..];
      }
      if s[0].Some? then [s[0].value] + rest else rest
  }

  /** Filtering distributes over concatenation, so it keeps the order of what it keeps. */
  lemma {:induction false} KeptConcat<T(!new)>(a: seq<Option<T>>, b: seq<Option<T>>)
    ensures Kept(a + b) == Kept(a) + Kept(b)
  {
    if a == [] {
      assert a + b == b;
    } else {
      assert (a + b)[0] == a[0];
      assert (a + b)[1..] == a[1..] + b;
      KeptConcat(a[1..], b);
    }
  }

  /** Filtering a list of absent values leaves nothing. */
  lemma {:induction false} KeptNone<T(!new)>(s: seq<Option<T>>)
    requires forall i :: 0 <= i < |s| ==> s[i].None?
    ensures Kept(s) == []
  {
    if s != [] {
      KeptNone(s[1..]);
    }
  }
}
