/** Order-preserving list operations behind the suggestion lists
    (`saved_groups`, `saved_categories`) and the cache filters. */
module Lists {

  /** `Array.prototype.filter`: keeps, in order, every element `keep`
      accepts, each as often as it occurred. */
  function Filter<T(!new)>(s: seq<T>, keep: T -> bool): (r: seq<T>)
    ensures |r| <= |s|
    ensures forall x :: x in r <==> x in s && keep(x)
    ensures forall x :: multiset(r)[x] == if keep(x) then multiset(s)[x] else 0
  {
    if s == [] then []
    else
      assert s == [s[0]] + s[1..];
      (if keep(s[0]) then [s[0]] else []) + Filter(s[1..], keep)
  }

  lemma AppendAssoc<T>(a: seq<T>, b: seq<T>, c: seq<T>)
    ensures a + (b + c) == (a + b) + c
  {
  }

  /** Filtering keeps the relative order: it distributes over concatenation. */
  lemma {:induction false} FilterConcat<T(!new)>(a: seq<T>, b: seq<T>, keep: T -> bool)
    ensures Filter(a + b, keep) == Filter(a, keep) + Filter(b, keep)
  {
    if a == [] {
      assert a + b == b;
    } else {
      var head := if keep(a[0]) then [a[0]] else [];
      assert (a + b)[0] == a[0];
      assert (a + b)[1..] == a[1..] + b;
      FilterConcat(a[1..], b, keep);
      var x, y := Filter(a[1..], keep), Filter(b, keep);
      calc {
        Filter(a + b, keep);
        head + Filter(a[1..] + b, keep);
        head + (x + y);
        { AppendAssoc(head, x, y); }
        (head + x) + y;
        Filter(a, keep) + Filter(b, keep);
      }
    }
  }

  lemma FilterOne<T(!new)>(x: T, keep: T -> bool)
    ensures Filter([x], keep) == if keep(x) then [x] else []
  {
    assert [x][1..] == [];
  }

  lemma FilterCons<T(!new)>(s: seq<T>, keep: T -> bool)
    requires s != []
    ensures Filter(s, keep) == Filter([s[0]], keep) + Filter(s[1..], keep)
  {
    assert s == [s[0]] + s[1..];
    FilterConcat([s[0]], s[1..], keep);
  }

  /** Filtering a second time with the same test changes nothing. */
  lemma {:induction false} FilterIdempotent<T(!new)>(s: seq<T>, keep: T -> bool)
    ensures Filter(Filter(s, keep), keep) == Filter(s, keep)
  {
    if s != [] {
      var head := if keep(s[0]) then [s[0]] else [];
      var rest := Filter(s[1..], keep);
      FilterConcat(head, rest, keep);
      FilterIdempotent(s[1..], keep);
      if keep(s[0]) { FilterOne(s[0], keep); }
      calc {
        Filter(Filter(s, keep), keep);
        Filter(head + rest, keep);
        Filter(head, keep) + Filter(rest, keep);
        head + rest;
        Filter(s, keep);
      }
    }
  }

  /** No value occurs twice (what a JavaScript `Set` guarantees). */
  predicate NoDup<T(==)>(s: seq<T>) {
    forall i, j :: 0 <= i < j < |s| ==> s[i] != s[j]
  }

  /** `if (!list.includes(x)) list.push(x)`, and equally `set.add(x)` on an
      insertion-ordered set. */
  function AddIfAbsent<T(==,!new)>(s: seq<T>, x: T): (r: seq<T>)
    ensures x in r
    ensures forall y :: y in r <==> y == x || y in s
    ensures x in s ==> r == s
    ensures x !in s ==> |r| == |s| + 1 && r[..|s|] == s && r[|s|] == x
    ensures NoDup(s) ==> NoDup(r)
  {
    if x in s then s else s + [x]
  }

  /** Adds every element of `xs` in turn to the insertion-ordered set `acc`. */
  function AddAll<T(==,!new)>(acc: seq<T>, xs: seq<T>): (r: seq<T>)
    ensures forall y :: y in r <==> y in acc || y in xs
    ensures |acc| <= |r| && r[..|acc|] == acc
    ensures NoDup(acc) ==> NoDup(r)
  {
    if xs == [] then acc
    else
      var prev := AddAll(acc, xs[..|xs| - 1]);
      assert xs == xs[..|xs| - 1] + [xs[|xs| - 1]];
      AddIfAbsent(prev, xs[|xs| - 1])
  }

  /** Adding one more element is one more `AddIfAbsent`. */
  lemma AddAllSnoc<T(!new)>(acc: seq<T>, xs: seq<T>, x: T)
    ensures AddAll(acc, xs + [x]) == AddIfAbsent(AddAll(acc, xs), x)
  {
    assert (xs + [x])[..|xs|] == xs;
  }

  /** `[...new Set(s)]`: each value once, in order of first occurrence. */
  function Dedup<T(==,!new)>(s: seq<T>): (r: seq<T>)
    ensures NoDup(r)
    ensures forall y :: y in r <==> y in s
  {
    AddAll([], s)
  }

  /** A list that already has no duplicates passes through a `Set` intact. */
  lemma {:induction false} DedupNoDup<T(!new)>(s: seq<T>)
    requires NoDup(s)
    ensures Dedup(s) == s
  {
    if s != [] {
      var init := s[..|s| - 1];
      assert NoDup(init);
      DedupNoDup(init);
      assert s == init + [s[|s| - 1]];
      assert s[|s| - 1] !in init;
    }
  }

  lemma TailNoDup<T>(s: seq<T>)
    requires NoDup(s) && s != []
    ensures NoDup(s[1..]) && s[0] !in s[1..]
  {
    var tail := s[1..];
    forall i, j | 0 <= i < j < |tail| ensures tail[i] != tail[j] {
      assert tail[i] == s[i + 1] && tail[j] == s[j + 1];
    }
    forall k | 0 <= k < |tail| ensures tail[k] != s[0] { assert tail[k] == s[k + 1]; }
  }

  lemma ConsNoDup<T>(x: T, rest: seq<T>)
    requires NoDup(rest) && x !in rest
    ensures NoDup([x] + rest)
  {
    var r := [x] + rest;
    forall i, j | 0 <= i < j < |r| ensures r[i] != r[j] {
      assert r[j] == rest[j - 1] && r[j] in rest;
      if i > 0 { assert r[i] == rest[i - 1]; }
    }
  }

  /** Filtering a list without duplicates leaves a list without duplicates. */
  lemma {:induction false} FilterNoDup<T(!new)>(s: seq<T>, keep: T -> bool)
    requires NoDup(s)
    ensures NoDup(Filter(s, keep))
  {
    if s != [] {
      TailNoDup(s);
      FilterNoDup(s[1..], keep);
      if keep(s[0]) {
        ConsNoDup(s[0], Filter(s[1..], keep));
      } else {
        assert [] + Filter(s[1..], keep) == Filter(s[1..], keep);
      }
    }
  }

  /** The test `deleteFromStorage` filters with. */
  function Differs<T(==)>(v: T): T -> bool {
    (i: T) => i != v
  }

  /** `items.filter(i => i !== value)`. */
  function RemoveValue<T(==,!new)>(items: seq<T>, value: T): (r: seq<T>)
    ensures value !in r
    ensures forall x :: x != value ==> multiset(r)[x] == multiset(items)[x]
    ensures NoDup(items) ==> NoDup(r)
  {
    var r := Filter(items, Differs(value));
    assert NoDup(items) ==> NoDup(r) by {
      if NoDup(items) { FilterNoDup(items, Differs(value)); }
    }
    r
  }

  /** Deletion keeps the surviving values in their original order. */
  lemma RemoveValueKeepsOrder<T(!new)>(a: seq<T>, b: seq<T>, value: T)
    ensures RemoveValue(a + b, value) == RemoveValue(a, value) + RemoveValue(b, value)
  {
    FilterConcat(a, b, Differs(value));
  }


}
