/**
 * The library calls the aggregator ranks with: `max(..., key=...)`,
 * `sorted(..., key=..., reverse=True)`, the `if cost > 0` filter of the
 * append loops, the top-N slice and the guarded percentage.
 */
module Ranking {

  /** A `(name, cost)` pair of `dict.items()`: an account id or a service name with its total. */
  datatype Entry = Entry(name: string, cost: real)

  /**
   * `max(s, key=key)` as CPython computes it: the first element whose key
   * is not exceeded by any other.
   */
  function ArgMax<T>(s: seq<T>, key: T -> real): (k: nat)
    requires |s| > 0
    ensures k < |s|
    ensures forall j :: 0 <= j < |s| ==> key(s[j]) <= key(s[k])
    ensures forall j :: 0 <= j < k ==> key(s[j]) < key(s[k])
  {
    if |s| == 1 then 0
    else
      var k := ArgMax(s[..|s| - 1], key);
      if key(s[|s| - 1]) > key(s[k]) then |s| - 1 else k
  }

  predicate NonIncreasing(s: seq<Entry>) {
    forall i, j :: 0 <= i < j < |s| ==> s[i].cost >= s[j].cost
  }

  predicate DistinctNames(s: seq<Entry>) {
    forall i, j :: 0 <= i < j < |s| ==> s[i].name != s[j].name
  }

  function Insert(e: Entry, s: seq<Entry>): (r: seq<Entry>)
    ensures multiset(r) == multiset(s) + multiset{e}
  {
    if s == [] || e.cost >= s[0].cost then [e] + s
    else
      assert s == [s[0]] + s[1..];
      [s[0]] + Insert(e, s[1..])
  }

  lemma InsertMembers(e: Entry, s: seq<Entry>, x: Entry)
    ensures x in Insert(e, s) <==> x == e || x in s
  {
    assert x in Insert(e, s) <==> x in multiset(Insert(e, s));
  }

  /** Putting an entry before a ranking whose costs are all at most its own keeps it a ranking. */
  lemma ConsSorted(h: Entry, rest: seq<Entry>)
    requires NonIncreasing(rest)
    requires forall x :: x in rest ==> x.cost <= h.cost
    ensures NonIncreasing([h] + rest)
  {
    var r := [h] + rest;
    forall i, j | 0 <= i < j < |r| ensures r[i].cost >= r[j].cost {
      if i == 0 {
        assert r[j] in rest;
      } else {
        assert r[i] == rest[i - 1] && r[j] == rest[j - 1];
      }
    }
  }

  lemma {:induction false} InsertSorted(e: Entry, s: seq<Entry>)
    requires NonIncreasing(s)
    ensures NonIncreasing(Insert(e, s))
  {
    if s != [] && e.cost < s[0].cost {
      var rest := Insert(e, s[1..]);
      assert NonIncreasing(s[1..]) by {
        assert forall i :: 0 <= i < |s| - 1 ==> s[1..][i] == s[i + 1];
      }
      InsertSorted(e, s[1..]);
      forall x | x in rest ensures x.cost <= s[0].cost {
        InsertMembers(e, s[1..], x);
      }
      ConsSorted(s[0], rest);
    }
  }

  /** `sorted(s, key=cost, reverse=True)`, up to the order of equal costs. */
  function SortDescending(s: seq<Entry>): (r: seq<Entry>)
    ensures NonIncreasing(r)
    ensures multiset(r) == multiset(s)
  {
    if s == [] then []
    else
      assert s == [s[0]] + s[1..];
      InsertSorted(s[0], SortDescending(s[1..]));
      Insert(s[0], SortDescending(s[1..]))
  }

  lemma SortMembers(s: seq<Entry>, x: Entry)
    ensures x in SortDescending(s) <==> x in s
  {
    assert x in SortDescending(s) <==> x in multiset(SortDescending(s));
  }

  lemma {:induction false} InsertKeepsNamesDistinct(e: Entry, s: seq<Entry>)
    requires DistinctNames(s)
    requires forall x :: x in s ==> x.name != e.name
    ensures DistinctNames(Insert(e, s))
  {
    if s != [] && e.cost < s[0].cost {
      var rest := Insert(e, s[1..]);
      InsertKeepsNamesDistinct(e, s[1..]);
      forall x | x in rest ensures x.name != s[0].name {
        InsertMembers(e, s[1..], x);
      }
      var r := [s[0]] + rest;
      forall i, j | 0 <= i < j < |r| ensures r[i].name != r[j].name {
        if i == 0 {
          assert r[j] in rest;
        } else {
          assert r[i] == rest[i - 1] && r[j] == rest[j - 1];
        }
      }
    }
  }

  /** Sorting a listing of distinct names keeps the names distinct. */
  lemma {:induction false} SortKeepsNamesDistinct(s: seq<Entry>)
    requires DistinctNames(s)
    ensures DistinctNames(SortDescending(s))
  {
    if s != [] {
      SortKeepsNamesDistinct(s[1..]);
      var sorted := SortDescending(s[1..]);
      forall x | x in sorted ensures x.name != s[0].name {
        SortMembers(s[1..], x);
      }
      InsertKeepsNamesDistinct(s[0], sorted);
    }
  }

  function Names(s: seq<Entry>): set<string> {
    set x | x in s :: x.name
  }

  /** A listing with distinct names has exactly as many names as entries. */
  lemma {:induction false} NamesCount(s: seq<Entry>)
    requires DistinctNames(s)
    ensures |Names(s)| == |s|
  {
    if s != [] {
      var n := |s|;
      var init := s[..n - 1];
      NamesCount(init);
      assert s == init + [s[n - 1]];
      assert Names(s) == Names(init) + {s[n - 1].name};
      assert s[n - 1].name !in Names(init);
    }
  }

  /** The entries that the append loops keep: those with cost greater than zero, in order. */
  function Positive(s: seq<Entry>): seq<Entry> {
    if s == [] then []
    else
      var p := Positive(s[..|s| - 1]);
      if s[|s| - 1].cost > 0.0 then p + [s[|s| - 1]] else p
  }

  lemma PositiveStep(s: seq<Entry>, i: nat)
    requires i < |s|
    ensures Positive(s[..i + 1]) == if s[i].cost > 0.0 then Positive(s[..i]) + [s[i]] else Positive(s[..i])
  {
    assert s[..i + 1][..i] == s[..i];
  }

  /** The filter keeps exactly the entries with positive cost. */
  lemma {:induction false} PositiveMembers(s: seq<Entry>)
    ensures forall x :: x in Positive(s) <==> x in s && x.cost > 0.0
  {
    if s != [] {
      var n := |s|;
      PositiveMembers(s[..n - 1]);
      assert s == s[..n - 1] + [s[n - 1]];
    }
  }

  /** The filter keeps at most what it is given. */
  lemma {:induction false} PositiveLength(s: seq<Entry>)
    ensures |Positive(s)| <= |s|
  {
    if s != [] {
      PositiveLength(s[..|s| - 1]);
    }
  }

  /** The filter keeps the ranking's order. */
  lemma {:induction false} PositiveSorted(s: seq<Entry>)
    requires NonIncreasing(s)
    ensures NonIncreasing(Positive(s))
  {
    if s != [] {
      var n := |s|;
      var init := s[..n - 1];
      PositiveSorted(init);
      PositiveMembers(init);
      assert forall x :: x in init ==> x.cost >= s[n - 1].cost;
    }
  }

  /** The filter does not duplicate names. */
  lemma {:induction false} PositiveDistinct(s: seq<Entry>)
    requires DistinctNames(s)
    ensures DistinctNames(Positive(s))
  {
    if s != [] {
      var n := |s|;
      var init := s[..n - 1];
      PositiveDistinct(init);
      PositiveMembers(init);
      assert forall x :: x in init ==> x.name != s[n - 1].name;
    }
  }

  /** A filter that drops something has met an entry of cost at most zero. */
  lemma {:induction false} PositiveDropsNonPositive(s: seq<Entry>)
    requires |Positive(s)| < |s|
    ensures exists i :: 0 <= i < |s| && s[i].cost <= 0.0
  {
    var n := |s|;
    if s[n - 1].cost > 0.0 {
      PositiveDropsNonPositive(s[..n - 1]);
      var i :| 0 <= i < n - 1 && s[..n - 1][i].cost <= 0.0;
      assert s[i] == s[..n - 1][i];
    }
  }

  function Min(a: int, b: int): int {
    if a <= b then a else b
  }

  /** The positive entries among the first `n` of a ranking: `[x for x in s[:n] if x.cost > 0]`. */
  function TopPositive(s: seq<Entry>, n: nat): seq<Entry> {
    Positive(s[..Min(n, |s|)])
  }

  /** No entry left out of the top `n` of a ranking costs more than an entry that is in it. */
  lemma {:induction false} TopDominates(s: seq<Entry>, n: nat, x: Entry)
    requires NonIncreasing(s)
    requires x in s && x !in TopPositive(s, n)
    ensures forall t :: t in TopPositive(s, n) ==> x.cost <= t.cost
  {
    var m := Min(n, |s|);
    var top := s[..m];
    PositiveMembers(top);
    var p :| 0 <= p < |s| && s[p] == x;
    forall t | t in TopPositive(s, n) ensures x.cost <= t.cost {
      var q :| 0 <= q < m && top[q] == t;
      if p < m {
        assert x in top;
        assert x.cost <= 0.0;
      } else {
        assert s[q] == t;
      }
    }
  }

  /** When the top `n` holds fewer than `n` entries, it holds every entry of positive cost. */
  lemma {:induction false} TopComplete(s: seq<Entry>, n: nat, x: Entry)
    requires NonIncreasing(s)
    requires x in s && x.cost > 0.0
    requires |TopPositive(s, n)| < n
    ensures x in TopPositive(s, n)
  {
    var m := Min(n, |s|);
    var top := s[..m];
    PositiveMembers(top);
    var p :| 0 <= p < |s| && s[p] == x;
    if m < |s| {
      PositiveDropsNonPositive(top);
      var q :| 0 <= q < m && top[q].cost <= 0.0;
      PositiveBeforeNonPositive(s, p, q);
      assert top[p] == x;
    } else {
      assert top == s;
    }
  }

  /** In a ranking, an entry of positive cost comes before every entry of cost at most zero. */
  lemma PositiveBeforeNonPositive(s: seq<Entry>, p: nat, q: nat)
    requires NonIncreasing(s)
    requires p < |s| && q < |s| && s[p].cost > 0.0 && s[q].cost <= 0.0
    ensures p < q
  {
  }

  /**
   * The share of `part` in `total`, in percent, as the aggregator guards it:
   * zero whenever the total is not positive, so nothing is divided by zero.
   */
  function Percentage(part: real, total: real): real {
    if total > 0.0 then part / total * 100.0 else 0.0
  }

  /** A percentage times its total gives back the part, scaled by 100, and a part of the total lies in 0..100. */
  lemma PercentageOfTotal(part: real, total: real)
    ensures total > 0.0 ==> Percentage(part, total) * total == part * 100.0
    ensures total <= 0.0 ==> Percentage(part, total) == 0.0
    ensures 0.0 <= part <= total ==> 0.0 <= Percentage(part, total) <= 100.0
  {
    if total > 0.0 {
      var q := part / total;
      assert q * total == part;
      if 0.0 <= part <= total {
        assert 0.0 <= q <= 1.0;
      }
    }
  }
}
