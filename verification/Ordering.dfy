/** Go's byte order on strings, and sorting by a string key. */
module Ordering {

  predicate Less(a: string, b: string) {
    b != "" && (a == "" || a[0] < b[0] || (a[0] == b[0] && Less(a[1..], b[1..])))
  }

  lemma {:induction false} LessIsTotal(a: string, b: string)
    ensures a == b || Less(a, b) || Less(b, a)
    ensures !(Less(a, b) && Less(b, a)) && !Less(a, a)
  {
    if a != "" {
      LessIsTotal(a[1..], a[1..]);
    }
    if a != "" && b != "" {
      LessIsTotal(a[1..], b[1..]);
      if a[0] == b[0] && a[1..] == b[1..] {
        assert a == [a[0]] + a[1..] && b == [b[0]] + b[1..];
      }
    }
  }

  lemma {:induction false} LessIsTransitive(a: string, b: string, c: string)
    requires Less(a, b) && Less(b, c)
    ensures Less(a, c)
  {
    if a != "" && a[0] == b[0] == c[0] {
      LessIsTransitive(a[1..], b[1..], c[1..]);
    }
  }

  predicate AtMost(a: string, b: string) {
    a == b || Less(a, b)
  }

  ghost predicate SortedBy<T(!new)>(items: seq<T>, key: T -> string) {
    forall i, j | 0 <= i < j < |items| :: AtMost(key(items[i]), key(items[j]))
  }

  ghost predicate DistinctKeys<T(!new)>(items: seq<T>, key: T -> string) {
    forall i, j | 0 <= i < j < |items| :: key(items[i]) != key(items[j])
  }

  /** Insertion before the first item with a greater key. */
  function Insert<T(!new)>(item: T, sorted: seq<T>, key: T -> string): (r: seq<T>)
    ensures multiset(r) == multiset(sorted) + multiset{item}
    ensures |r| == |sorted| + 1
  {
    if sorted == [] then [item]
    else if Less(key(item), key(sorted[0])) then
      assert [item] + sorted == [item] + sorted;
      [item] + sorted
    else
      assert sorted == [sorted[0]] + sorted[1..];
      [sorted[0]] + Insert(item, sorted[1..], key)
  }

  lemma {:induction false} InsertSorts<T(!new)>(item: T, sorted: seq<T>, key: T -> string)
    requires SortedBy(sorted, key)
    ensures SortedBy(Insert(item, sorted, key), key)
  {
    if sorted != [] {
      var head := sorted[0];
      if Less(key(item), key(head)) {
        forall j | 0 <= j < |sorted| ensures AtMost(key(item), key(sorted[j])) {
          if j > 0 && Less(key(head), key(sorted[j])) {
            LessIsTransitive(key(item), key(head), key(sorted[j]));
          }
        }
      } else {
        LessIsTotal(key(item), key(head));
        InsertSorts(item, sorted[1..], key);
        var rest := Insert(item, sorted[1..], key);
        forall j | 0 <= j < |rest| ensures AtMost(key(head), key(rest[j])) {
          assert rest[j] in multiset(rest);
          assert rest[j] == item || rest[j] in sorted[1..];
        }
      }
    }
  }

  /** sort.Slice by key: a sorted permutation. Items with equal keys may come out in any order in Go. */
  method SortByKey<T(!new)>(items: seq<T>, key: T -> string) returns (sorted: seq<T>)
    ensures multiset(sorted) == multiset(items) && SortedBy(sorted, key)
  {
    sorted := [];
    for i := 0 to |items|
      invariant multiset(sorted) == multiset(items[..i]) && SortedBy(sorted, key)
    {
      InsertSorts(items[i], sorted, key);
      sorted := Insert(items[i], sorted, key);
      assert items[..i + 1] == items[..i] + [items[i]];
    }
    assert items[..|items|] == items;
  }

  /** With distinct keys there is only one sorted permutation, whatever the sorting algorithm. */
  lemma {:induction false} SortIsUnique<T(!new)>(a: seq<T>, b: seq<T>, key: T -> string)
    requires SortedBy(a, key) && SortedBy(b, key) && multiset(a) == multiset(b) && DistinctKeys(a, key)
    ensures a == b
  {
    if a == [] {
      assert |multiset(b)| == 0;
    } else {
      assert |multiset(a)| == |a| && |multiset(b)| == |b|;
      SameHead(a, b, key);
      assert a == [a[0]] + a[1..] && b == [b[0]] + b[1..];
      assert multiset(a[1..]) == multiset(a) - multiset{a[0]} && multiset(b[1..]) == multiset(b) - multiset{b[0]};
      SortIsUnique(a[1..], b[1..], key);
    }
  }

  lemma SameHead<T(!new)>(a: seq<T>, b: seq<T>, key: T -> string)
    requires a != [] && b != [] && SortedBy(a, key) && SortedBy(b, key) && multiset(a) == multiset(b) && DistinctKeys(a, key)
    ensures a[0] == b[0]
  {
    assert a[0] in multiset(b) && b[0] in multiset(a);
    var i :| 0 <= i < |a| && a[i] == b[0];
    var j :| 0 <= j < |b| && b[j] == a[0];
    assert AtMost(key(a[0]), key(a[i])) && AtMost(key(b[0]), key(b[j]));
    LessIsTotal(key(a[0]), key(b[0]));
  }
}
