/** The order in which aliases are listed, and the duplicate-free sorted list of a set of strings. */
module Alphabetical {
  import opened Prelude

  predicate Less(a: string, b: string) {
    if b == [] then false
    else if a == [] then true
    else if a[0] != b[0] then a[0] < b[0]
    else Less(a[1..], b[1..])
  }

  lemma {:induction false} LessIsTotal(a: string, b: string)
    ensures Less(a, b) || Less(b, a) || a == b
    ensures !(Less(a, b) && Less(b, a))
  {
    if a != [] && b != [] && a[0] == b[0] {
      LessIsTotal(a[1..], b[1..]);
      assert a == [a[0]] + a[1..] && b == [b[0]] + b[1..];
    }
  }

  lemma {:induction false} LessIsIrreflexive(a: string)
    ensures !Less(a, a)
  {
    if a != [] {
      LessIsIrreflexive(a[1..]);
    }
  }

  lemma {:induction false} LessIsTransitive(a: string, b: string, c: string)
    requires Less(a, b) && Less(b, c)
    ensures Less(a, c)
  {
    if a != [] && a[0] == b[0] && b[0] == c[0] {
      LessIsTransitive(a[1..], b[1..], c[1..]);
    }
  }

  ghost predicate Sorted(s: seq<string>) {
    forall i, j :: 0 <= i < j < |s| ==> Less(s[i], s[j])
  }

  predicate IsLeast(m: string, s: set<string>) {
    m in s && forall x :: x in s ==> x == m || Less(m, x)
  }

  lemma {:induction false} LeastExists(s: set<string>)
    requires s != {}
    ensures exists m :: IsLeast(m, s)
  {
    var y := Pick(s);
    if s - {y} == {} {
      assert forall x :: x in s && x != y ==> x in s - {y};
      assert IsLeast(y, s);
    } else {
      LeastExists(s - {y});
      var m :| IsLeast(m, s - {y});
      LessIsTotal(m, y);
      if Less(y, m) {
        forall x | x in s
          ensures x == y || Less(y, x)
        {
          if x != y && x != m {
            LessIsTransitive(y, m, x);
          }
        }
        assert IsLeast(y, s);
      } else {
        assert IsLeast(m, s);
      }
    }
  }

  lemma LeastIsUnique(s: set<string>, m: string, n: string)
    requires IsLeast(m, s) && IsLeast(n, s)
    ensures m == n
  {
    LessIsTotal(m, n);
  }

  function Least(s: set<string>): (m: string)
    requires s != {}
    ensures m in s && IsLeast(m, s)
  {
    LeastExists(s);
    assert forall m, n :: IsLeast(m, s) && IsLeast(n, s) ==> m == n by {
      forall m, n | IsLeast(m, s) && IsLeast(n, s)
        ensures m == n
      {
        LeastIsUnique(s, m, n);
      }
    }
    var m :| m in s && IsLeast(m, s);
    m
  }

  /** The elements of a set in increasing order. */
  function SortedSeq(s: set<string>): (r: seq<string>)
    ensures Elements(r) == s
    ensures |r| == |s|
  {
    if s == {} then []
    else
      var m := Least(s);
      var rest := SortedSeq(s - {m});
      ElementsOfSum([m], rest);
      [m] + rest
  }

  lemma {:induction false} SortedSeqIsSorted(s: set<string>)
    ensures Sorted(SortedSeq(s))
  {
    if s != {} {
      var m := Least(s);
      var rest := SortedSeq(s - {m});
      SortedSeqIsSorted(s - {m});
      forall j | 0 <= j < |rest|
        ensures Less(m, rest[j])
      {
        assert rest[j] in Elements(rest);
      }
    }
  }

  /** A sorted sequence is determined by its elements. */
  lemma {:induction false} SortedIsSortedSeq(r: seq<string>)
    requires Sorted(r)
    ensures r == SortedSeq(Elements(r))
  {
    if r != [] {
      forall x | x in Elements(r)
        ensures x == r[0] || Less(r[0], x)
      {
      }
      assert IsLeast(r[0], Elements(r));
      LeastIsUnique(Elements(r), r[0], Least(Elements(r)));
      LessIsIrreflexive(r[0]);
      assert r[0] !in r[1..] by {
        assert forall j :: 0 <= j < |r[1..]| ==> r[1..][j] == r[j + 1];
      }
      assert Elements(r) - {r[0]} == Elements(r[1..]) by {
        assert r == [r[0]] + r[1..];
      }
      SortedIsSortedSeq(r[1..]);
    }
  }

  /** Sorting as the library does it: equal strings stay, next to each other. */
  function Sort(s: seq<string>): (r: seq<string>)
    ensures Elements(r) == Elements(s)
  {
    if s == [] then []
    else
      assert s == [s[0]] + s[1..];
      Insert(s[0], Sort(s[1..]))
  }

  function Insert(x: string, s: seq<string>): (r: seq<string>)
    ensures Elements(r) == Elements(s) + {x}
  {
    if s == [] || !Less(s[0], x) then [x] + s
    else
      assert s == [s[0]] + s[1..];
      ElementsOfSum([s[0]], s[1..]);
      ElementsOfSum([s[0]], Insert(x, s[1..]));
      [s[0]] + Insert(x, s[1..])
  }

  ghost predicate NonDecreasing(s: seq<string>) {
    forall i, j :: 0 <= i < j < |s| ==> s[i] == s[j] || Less(s[i], s[j])
  }

  lemma {:induction false} InsertKeepsOrder(x: string, s: seq<string>)
    requires NonDecreasing(s)
    ensures NonDecreasing(Insert(x, s))
  {
    var r := Insert(x, s);
    if s == [] || !Less(s[0], x) {
      forall j | 0 <= j < |s|
        ensures x == s[j] || Less(x, s[j])
      {
        LessIsTotal(x, s[0]);
        if Less(x, s[0]) && Less(s[0], s[j]) {
          LessIsTransitive(x, s[0], s[j]);
        }
      }
    } else {
      InsertKeepsOrder(x, s[1..]);
      var rest := Insert(x, s[1..]);
      forall j | 0 <= j < |rest|
        ensures s[0] == rest[j] || Less(s[0], rest[j])
      {
        assert rest[j] in Elements(rest);
      }
    }
  }

  lemma {:induction false} SortOrders(s: seq<string>)
    ensures NonDecreasing(Sort(s))
  {
    if s != [] {
      SortOrders(s[1..]);
      InsertKeepsOrder(s[0], Sort(s[1..]));
    }
  }

  /** Dropping repetitions from an ordered list leaves the sorted list of its elements. */
  method Dedup(s: seq<string>) returns (r: seq<string>)
    requires NonDecreasing(s)
    ensures r == SortedSeq(Elements(s))
  {
    r := [];
    for i := 0 to |s|
      invariant Sorted(r)
      invariant Elements(r) == Elements(s[..i])
      invariant if i == 0 then r == [] else r != [] && r[|r| - 1] == s[i - 1]
    {
      assert s[..i + 1] == s[..i] + [s[i]];
      ElementsOfSum(s[..i], [s[i]]);
      if r == [] || r[|r| - 1] != s[i] {
        StaysSorted(r, s, i);
        ElementsOfSum(r, [s[i]]);
        r := r + [s[i]];
      }
    }
    assert s[..|s|] == s;
    SortedIsSortedSeq(r);
  }

  lemma StaysSorted(r: seq<string>, s: seq<string>, i: nat)
    requires i < |s| && NonDecreasing(s) && Sorted(r)
    requires i > 0 ==> r != [] && r[|r| - 1] == s[i - 1]
    requires i == 0 ==> r == []
    requires r != [] ==> r[|r| - 1] != s[i]
    ensures Sorted(r + [s[i]])
  {
    if r != [] {
      assert s[i - 1] == s[i] || Less(s[i - 1], s[i]);
      forall j | 0 <= j < |r|
        ensures Less(r[j], s[i])
      {
        if j < |r| - 1 {
          LessIsTransitive(r[j], r[|r| - 1], s[i]);
        }
      }
    }
  }
}
