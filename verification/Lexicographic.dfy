/** Code-point order on texts, and sorting of distinct texts. */
module Lexicographic {

  predicate Less(a: string, b: string) {
    b != "" && (a == "" || a[0] < b[0] || (a[0] == b[0] && Less(a[1..], b[1..])))
  }

  /** The first difference decides: a smaller character, or the end of the text. */
  ghost predicate DiffersAt(a: string, b: string, n: nat) {
    && n <= |a| && n < |b| && a[..n] == b[..n]
    && (n == |a| || a[n] < b[n])
  }

  lemma {:induction false} LessExactly(a: string, b: string)
    ensures Less(a, b) <==> exists n: nat :: DiffersAt(a, b, n)
  {
    if a != "" && b != "" && a[0] == b[0] {
      LessExactly(a[1..], b[1..]);
      if n: nat :| DiffersAt(a[1..], b[1..], n) {
        assert a[..n + 1] == [a[0]] + a[1..][..n] && b[..n + 1] == [b[0]] + b[1..][..n];
        assert DiffersAt(a, b, n + 1);
      }
      if n: nat :| DiffersAt(a, b, n) {
        assert a[1..][..n - 1] == a[..n][1..] && b[1..][..n - 1] == b[..n][1..];
        assert DiffersAt(a[1..], b[1..], n - 1);
      }
    } else {
      assert Less(a, b) ==> DiffersAt(a, b, 0);
      if n: nat :| DiffersAt(a, b, n) && n > 0 {
        CommonStart(a, b, n);
        assert false;
      }
    }
  }

  lemma CommonStart(a: string, b: string, n: nat)
    requires DiffersAt(a, b, n) && n > 0
    ensures a[0] == b[0]
  {
    assert a[..n][0] == b[..n][0];
  }

  lemma {:induction false} Trichotomy(a: string, b: string)
    ensures Less(a, b) || a == b || Less(b, a)
    ensures !(Less(a, b) && Less(b, a)) && !(a == b && Less(a, b))
  {
    if a != "" && b != "" {
      Trichotomy(a[1..], b[1..]);
      if a[0] == b[0] && a[1..] == b[1..] {
        assert a == [a[0]] + a[1..] && b == [b[0]] + b[1..];
      }
    }
  }

  lemma {:induction false} Transitivity(a: string, b: string, c: string)
    requires Less(a, b) && Less(b, c)
    ensures Less(a, c)
  {
    if a != "" && a[0] == b[0] && b[0] == c[0] {
      Transitivity(a[1..], b[1..], c[1..]);
    }
  }

  ghost predicate Sorted(list: seq<string>) {
    forall i, j :: 0 <= i < j < |list| ==> Less(list[i], list[j])
  }

  /** Puts a new text where it belongs. */
  function Insert(list: seq<string>, x: string): (r: seq<string>)
    ensures forall y :: y in r <==> y in list || y == x
  {
    if list == [] || Less(x, list[0]) then [x] + list else [list[0]] + Insert(list[1..], x)
  }

  lemma {:induction false} InsertKeepsSorted(list: seq<string>, x: string)
    requires Sorted(list) && x !in list
    ensures Sorted(Insert(list, x))
  {
    if list == [] {
    } else if Less(x, list[0]) {
      forall j | 0 < j < |list| ensures Less(x, list[j]) {
        Transitivity(x, list[0], list[j]);
      }
    } else {
      Trichotomy(x, list[0]);
      InsertKeepsSorted(list[1..], x);
      var tail := Insert(list[1..], x);
      forall j | 0 <= j < |tail| ensures Less(list[0], tail[j]) {
        assert tail[j] in tail;
      }
    }
  }

  /** A sorted list is determined by what it contains. */
  lemma {:induction false} SortedListsAgree(a: seq<string>, b: seq<string>)
    requires Sorted(a) && Sorted(b) && forall x :: x in a <==> x in b
    ensures a == b
  {
    assert forall i :: 0 <= i < |a| ==> a[i] in b;
    assert forall i :: 0 <= i < |b| ==> b[i] in a;
    if a != [] {
      var i :| 0 <= i < |b| && b[i] == a[0];
      var j :| 0 <= j < |a| && a[j] == b[0];
      Trichotomy(a[0], b[0]);
      assert a[0] == b[0];
      forall x ensures x in a[1..] <==> x in b[1..] {
        Trichotomy(a[0], x);
        assert x in a <==> x == a[0] || x in a[1..];
        assert x in b <==> x == b[0] || x in b[1..];
        if x in a[1..] {
          assert Less(a[0], x);
        }
        if x in b[1..] {
          assert Less(b[0], x);
        }
      }
      SortedListsAgree(a[1..], b[1..]);
    }
  }

  ghost predicate NoRepeats(list: seq<string>) {
    forall i, j :: 0 <= i < j < |list| ==> list[i] != list[j]
  }

  function SortTexts(list: seq<string>): (r: seq<string>)
    ensures forall x :: x in r <==> x in list
  {
    if list == [] then [] else Insert(SortTexts(list[1..]), list[0])
  }

  lemma {:induction false} SortTextsSorts(list: seq<string>)
    requires NoRepeats(list)
    ensures Sorted(SortTexts(list))
  {
    if list != [] {
      SortTextsSorts(list[1..]);
      InsertKeepsSorted(SortTexts(list[1..]), list[0]);
    }
  }

  lemma {:induction false} CountOfDistinct(list: seq<string>, x: string)
    requires NoRepeats(list)
    ensures multiset(list)[x] == if x in list then 1 else 0
  {
    if list != [] {
      CountOfDistinct(list[1..], x);
      assert list == [list[0]] + list[1..];
    }
  }

  /** Sorting texts without repeats forgets their order, and nothing else. */
  lemma SortTextsForgetsOrderOnly(a: seq<string>, b: seq<string>)
    requires NoRepeats(a) && NoRepeats(b)
    ensures SortTexts(a) == SortTexts(b) <==> multiset(a) == multiset(b)
  {
    SortTextsSorts(a);
    SortTextsSorts(b);
    forall x ensures multiset(a)[x] == (if x in a then 1 else 0) && multiset(b)[x] == if x in b then 1 else 0 {
      CountOfDistinct(a, x);
      CountOfDistinct(b, x);
    }
    if multiset(a) == multiset(b) {
      forall x ensures x in SortTexts(a) <==> x in SortTexts(b) {
        assert x in a <==> x in multiset(a);
      }
      SortedListsAgree(SortTexts(a), SortTexts(b));
    }
    if SortTexts(a) == SortTexts(b) {
      forall x ensures multiset(a)[x] == multiset(b)[x] {
        assert x in SortTexts(a) <==> x in a;
      }
    }
  }

  method Sort(ids: set<string>) returns (list: seq<string>)
    ensures Sorted(list) && forall x :: x in list <==> x in ids
  {
    list := [];
    var rest := ids;
    while rest != {}
      invariant Sorted(list) && rest <= ids
      invariant forall x :: x in list <==> x in ids && x !in rest
      decreases |rest|
    {
      var x :| x in rest;
      InsertKeepsSorted(list, x);
      list := Insert(list, x);
      rest := rest - {x};
    }
  }

  // Sorting what texts name.

  datatype Keyed<T> = Keyed(key: string, value: T)

  function Keys<T>(items: seq<Keyed<T>>): (r: seq<string>)
    ensures |r| == |items| && forall i :: 0 <= i < |r| ==> r[i] == items[i].key
  {
    seq(|items|, i requires 0 <= i < |items| => items[i].key)
  }

  ghost predicate Distinct<T>(items: seq<Keyed<T>>) {
    forall i, j :: 0 <= i < j < |items| ==> items[i].key != items[j].key
  }

  function InsertByKey<T>(items: seq<Keyed<T>>, x: Keyed<T>): seq<Keyed<T>> {
    if items == [] || Less(x.key, items[0].key) then [x] + items else [items[0]] + InsertByKey(items[1..], x)
  }

  function SortByKey<T>(items: seq<Keyed<T>>): seq<Keyed<T>> {
    if items == [] then [] else InsertByKey(SortByKey(items[1..]), items[0])
  }

  lemma {:induction false} InsertByKeyInserts<T(!new)>(items: seq<Keyed<T>>, x: Keyed<T>)
    ensures Keys(InsertByKey(items, x)) == Insert(Keys(items), x.key)
    ensures forall y :: y in InsertByKey(items, x) <==> y in items || y == x
    ensures |InsertByKey(items, x)| == |items| + 1
  {
    if items == [] {
    } else if Less(x.key, items[0].key) {
      assert Keys([x] + items) == [x.key] + Keys(items);
    } else {
      InsertByKeyInserts(items[1..], x);
      assert Keys(items)[1..] == Keys(items[1..]);
      assert Keys(InsertByKey(items, x)) == [items[0].key] + Keys(InsertByKey(items[1..], x));
    }
  }

  /** Sorting keeps every item, and puts items with distinct keys in key order. */
  lemma {:induction false} SortByKeySorts<T(!new)>(items: seq<Keyed<T>>)
    ensures forall x :: x in SortByKey(items) <==> x in items
    ensures |SortByKey(items)| == |items|
    ensures Distinct(items) ==> Sorted(Keys(SortByKey(items)))
  {
    if items != [] {
      var rest := SortByKey(items[1..]);
      SortByKeySorts(items[1..]);
      InsertByKeyInserts(rest, items[0]);
      if Distinct(items) {
        forall i | 0 <= i < |rest| ensures Keys(rest)[i] != items[0].key {
          assert rest[i] in items[1..];
        }
        InsertKeepsSorted(Keys(rest), items[0].key);
      }
    }
  }

  /** Lists sorted by key are equal exactly when they hold the same items. */
  lemma SortedItemsAgree<T(!new)>(a: seq<Keyed<T>>, b: seq<Keyed<T>>)
    requires Sorted(Keys(a)) && Sorted(Keys(b)) && forall x :: x in a <==> x in b
    ensures a == b
  {
    forall k ensures k in Keys(a) <==> k in Keys(b) {
      if k in Keys(a) {
        var i :| 0 <= i < |a| && Keys(a)[i] == k;
        assert a[i] in b;
        var j :| 0 <= j < |b| && b[j] == a[i];
        assert Keys(b)[j] == k;
      }
      if k in Keys(b) {
        var i :| 0 <= i < |b| && Keys(b)[i] == k;
        assert b[i] in a;
        var j :| 0 <= j < |a| && a[j] == b[i];
        assert Keys(a)[j] == k;
      }
    }
    SortedListsAgree(Keys(a), Keys(b));
    forall i | 0 <= i < |a| ensures a[i] == b[i] {
      assert a[i] in b;
      var j :| 0 <= j < |b| && b[j] == a[i];
      assert Keys(b)[j] == Keys(b)[i];
      Trichotomy(Keys(b)[i], Keys(b)[j]);
    }
  }

  /** The order of items with distinct keys is lost by sorting, and nothing else. */
  lemma SortingForgetsOrderOnly<T(!new)>(a: seq<Keyed<T>>, b: seq<Keyed<T>>)
    requires Distinct(a) && Distinct(b)
    ensures SortByKey(a) == SortByKey(b) <==> (forall x :: x in a <==> x in b)
  {
    SortByKeySorts(a);
    SortByKeySorts(b);
    if forall x :: x in a <==> x in b {
      SortedItemsAgree(SortByKey(a), SortByKey(b));
    }
  }
}
