/** Finding a name that occurs twice, by sorting. */
module Sorting {
  import opened Wrappers

  /** Lexicographic order. */
  predicate AtMost(a: string, b: string) {
    a == [] || (b != [] && (a[0] < b[0] || (a[0] == b[0] && AtMost(a[1..], b[1..]))))
  }

  lemma {:induction false} AtMostOrders(a: string, b: string, c: string)
    ensures AtMost(a, b) || AtMost(b, a)
    ensures AtMost(a, b) && AtMost(b, a) ==> a == b
    ensures AtMost(a, b) && AtMost(b, c) ==> AtMost(a, c)
  {
    if a == [] || b == [] {
    } else {
      AtMostOrders(a[1..], b[1..], if c == [] then [] else c[1..]);
      assert a == [a[0]] + a[1..] && b == [b[0]] + b[1..];
    }
  }

  ghost predicate Sorted(names: seq<string>) {
    forall i: nat, j: nat :: i < j < |names| ==> AtMost(names[i], names[j])
  }

  function Insert(x: string, names: seq<string>): (r: seq<string>)
    ensures multiset(r) == multiset(names) + multiset{x}
  {
    if names == [] then [x]
    else
      assert names == [names[0]] + names[1..];
      if AtMost(x, names[0]) then [x] + names else [names[0]] + Insert(x, names[1..])
  }

  lemma {:induction false} InsertSorts(x: string, names: seq<string>)
    requires Sorted(names)
    ensures Sorted(Insert(x, names))
  {
    if names != [] {
      AtMostOrders(x, names[0], []);
      if AtMost(x, names[0]) {
        forall i: nat | i < |names| ensures AtMost(x, names[i]) {
          AtMostOrders(x, names[0], names[i]);
        }
      } else {
        var rest := Insert(x, names[1..]);
        InsertSorts(x, names[1..]);
        forall i: nat | i < |rest| ensures AtMost(names[0], rest[i]) {
          assert rest[i] in multiset(rest);
          assert rest[i] == x || rest[i] in names[1..];
        }
      }
    }
  }

  function Sort(names: seq<string>): (r: seq<string>)
    ensures Sorted(r) && multiset(r) == multiset(names)
  {
    if names == [] then []
    else
      assert names == [names[0]] + names[1..];
      InsertSorts(names[0], Sort(names[1..]));
      Insert(names[0], Sort(names[1..]))
  }

  predicate Distinct(names: seq<string>) {
    forall i: nat, j: nat :: i < j < |names| ==> names[i] != names[j]
  }

  lemma {:induction false} DistinctCounts(names: seq<string>)
    ensures Distinct(names) <==> forall x: string :: multiset(names)[x] <= 1
  {
    if names != [] {
      var x, rest := names[0], names[1..];
      DistinctCounts(rest);
      assert names == [x] + rest;
      assert multiset(names)[x] <= 1 <==> x !in rest by {
        assert x in rest <==> x in multiset(rest);
      }
      if Distinct(names) {
        forall i: nat, j: nat | i < j < |rest| ensures rest[i] != rest[j] {
          assert names[i + 1] != names[j + 1];
        }
        forall j: nat | j < |rest| ensures rest[j] != x {
          assert names[0] != names[j + 1];
        }
      } else {
        var i: nat, j: nat :| i < j < |names| && names[i] == names[j];
        assert names[j] == rest[j - 1];
        if i > 0 {
          assert rest[i - 1] == rest[j - 1] && !Distinct(rest);
          var y: string :| multiset(rest)[y] > 1;
          assert multiset(names)[y] > 1;
        }
      }
      if forall y: string :: multiset(names)[y] <= 1 {
        forall y: string ensures multiset(rest)[y] <= 1 {
          assert multiset(names)[y] >= multiset(rest)[y];
        }
      }
    }
  }

  /** The first of two equal neighbours; the length if there are none. */
  method AdjacentFind(names: seq<string>) returns (i: nat)
    ensures i <= |names|
    ensures i < |names| ==> i + 1 < |names| && names[i] == names[i + 1]
    ensures i == |names| ==> forall k: nat {:trigger names[k]} :: k + 1 < |names| ==> names[k] != names[k + 1]
  {
    i := 0;
    while i + 1 < |names|
      invariant i <= |names|
      invariant forall k: nat {:trigger names[k]} :: k < i && k + 1 < |names| ==> names[k] != names[k + 1]
    {
      if names[i] == names[i + 1] {
        return;
      }
      i := i + 1;
    }
    i := |names|;
  }

  lemma Neighbours(names: seq<string>, d: nat)
    requires Sorted(names) && d <= |names|
    requires d < |names| ==> d + 1 < |names| && names[d] == names[d + 1]
    requires d == |names| ==> forall k: nat {:trigger names[k]} :: k + 1 < |names| ==> names[k] != names[k + 1]
    ensures d == |names| ==> forall x: string :: multiset(names)[x] <= 1
    ensures d < |names| ==> multiset(names)[names[d]] > 1
  {
    if d < |names| {
      assert names == names[..d] + [names[d], names[d]] + names[d + 2..];
    } else {
      forall i: nat, j: nat | i < j < |names| ensures names[i] != names[j] {
        AtMostOrders(names[i], names[i + 1], names[j]);
        assert i + 1 == j || AtMost(names[i + 1], names[j]);
      }
      DistinctCounts(names);
    }
  }

  /** Sorting brings equal names together. */
  method FindDuplicate(names: seq<string>) returns (dup: Option<string>)
    ensures dup.None? <==> Distinct(names)
    ensures dup.Some? ==> multiset(names)[dup.value] > 1
  {
    hide Sorted, Distinct;
    var sorted := Sort(names);
    DistinctCounts(names);
    var i := AdjacentFind(sorted);
    Neighbours(sorted, i);
    return if i != |sorted| then Some(sorted[i]) else None;
  }
}
