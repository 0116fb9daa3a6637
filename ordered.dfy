/** Python dicts keep their keys in insertion order. The alert modules and the
    reporting functions build two kinds of them in loops:
      - groups:  `if k not in d: d[k] = []` then `d[k].append(x)`
      - counts:  `d[k] = d.get(k, 0) + 1`
    Both are modelled as sequences of (key, value) pairs with distinct keys. */
module Ordered {

  type Groups<T> = seq<(string, seq<T>)>
  type Counts = seq<(string, nat)>

  function Keys<V>(d: seq<(string, V)>): (ks: seq<string>)
    ensures |ks| == |d|
    ensures forall j :: 0 <= j < |d| ==> ks[j] == d[j].0
  {
    seq(|d|, j requires 0 <= j < |d| => d[j].0)
  }

  predicate Distinct(ks: seq<string>) {
    forall i, j :: 0 <= i < j < |ks| ==> ks[i] != ks[j]
  }

  /** Position of k in ks, or -1: Python's `k in d` followed by `d[k]`. */
  function IndexOf(ks: seq<string>, k: string): (j: int)
    ensures -1 <= j < |ks|
    ensures j >= 0 ==> ks[j] == k
    ensures j < 0 <==> k !in ks
  {
    if ks == [] then -1
    else if ks[|ks| - 1] == k then |ks| - 1
    else IndexOf(ks[..|ks| - 1], k)
  }

  /** `d.setdefault(k, []).append(x)` */
  function AppendTo<T>(g: Groups<T>, k: string, x: T): Groups<T> {
    var j := IndexOf(Keys(g), k);
    if j < 0 then g + [(k, [x])] else g[j := (k, g[j].1 + [x])]
  }

  /** `d[k] = d.get(k, 0) + 1` */
  function Bump(c: Counts, k: string): Counts {
    var j := IndexOf(Keys(c), k);
    if j < 0 then c + [(k, 1)] else c[j := (k, c[j].1 + 1)]
  }

  /** The grouping loop, run over all of `items`. */
  function GroupBy<T>(items: seq<T>, key: T -> string): Groups<T> {
    if items == [] then []
    else AppendTo(GroupBy(items[..|items| - 1], key), key(items[|items| - 1]), items[|items| - 1])
  }

  /** The counting loop, run over all of `items`. */
  function CountBy<T>(items: seq<T>, key: T -> string): Counts {
    if items == [] then []
    else Bump(CountBy(items[..|items| - 1], key), key(items[|items| - 1]))
  }

  /** The items with key k, in their original order. */
  function Select<T>(items: seq<T>, key: T -> string, k: string): seq<T> {
    if items == [] then []
    else Select(items[..|items| - 1], key, k) + (if key(items[|items| - 1]) == k then [items[|items| - 1]] else [])
  }

  /** The distinct elements of ks in order of first appearance. */
  function FirstAppearances(ks: seq<string>): seq<string> {
    if ks == [] then []
    else
      var p := FirstAppearances(ks[..|ks| - 1]);
      if ks[|ks| - 1] in p then p else p + [ks[|ks| - 1]]
  }

  function Project<T>(items: seq<T>, key: T -> string): (ks: seq<string>)
    ensures |ks| == |items|
    ensures forall i :: 0 <= i < |items| ==> ks[i] == key(items[i])
  {
    seq(|items|, i requires 0 <= i < |items| => key(items[i]))
  }

  /** `[x for x in items if keep(x)]` */
  function Where<T(!new)>(items: seq<T>, keep: T -> bool): (r: seq<T>)
    ensures forall x :: x in r <==> x in items && keep(x)
    ensures |r| <= |items|
  {
    if items == [] then []
    else (if keep(items[0]) then [items[0]] else []) + Where(items[1..], keep)
  }

  /** A kept item occurs as often as in the input, any other not at all. */
  lemma {:induction false} WhereCount<T(!new)>(items: seq<T>, keep: T -> bool)
    ensures forall x :: multiset(Where(items, keep))[x] == if keep(x) then multiset(items)[x] else 0
    decreases |items|
  {
    if items != [] {
      WhereCount(items[1..], keep);
      assert items == [items[0]] + items[1..];
    }
  }

  /** A comprehension keeps the order of the items: filtering a concatenation
      is concatenating the filtered parts. */
  lemma {:induction false} WhereAppend<T(!new)>(a: seq<T>, b: seq<T>, keep: T -> bool)
    ensures Where(a + b, keep) == Where(a, keep) + Where(b, keep)
    decreases |a|
  {
    if a == [] {
      assert a + b == b;
    } else {
      WhereAppend(a[1..], b, keep);
      assert (a + b)[0] == a[0] && (a + b)[1..] == a[1..] + b;
    }
  }

  /** The sum of the counts. */
  function Total(c: Counts): nat {
    if c == [] then 0 else Total(c[..|c| - 1]) + c[|c| - 1].1
  }

  /** The group sizes, as a count dict. */
  function Sizes<T>(g: Groups<T>): (c: Counts)
    ensures |c| == |g|
    ensures forall j :: 0 <= j < |g| ==> c[j] == (g[j].0, |g[j].1|)
  {
    seq(|g|, j requires 0 <= j < |g| => (g[j].0, |g[j].1|))
  }

  // ---------------------------------------------------------------- lemmas

  lemma {:induction false} FirstAppearancesMembers(ks: seq<string>)
    ensures forall k :: k in FirstAppearances(ks) <==> k in ks
    ensures Distinct(FirstAppearances(ks))
  {
    if ks != [] {
      FirstAppearancesMembers(ks[..|ks| - 1]);
      assert ks == ks[..|ks| - 1] + [ks[|ks| - 1]];
    }
  }

  lemma SelectNone<T>(items: seq<T>, key: T -> string, k: string)
    requires k !in Project(items, key)
    ensures Select(items, key, k) == []
  {
    if items != [] {
      assert Project(items[..|items| - 1], key) == Project(items, key)[..|items| - 1];
      SelectNone(items[..|items| - 1], key, k);
    }
  }

  lemma {:induction false} TotalUpdate(c: Counts, j: int, k: string)
    requires 0 <= j < |c|
    ensures Total(c[j := (k, c[j].1 + 1)]) == Total(c) + 1
  {
    var c' := c[j := (k, c[j].1 + 1)];
    if j < |c| - 1 {
      assert c'[..|c| - 1] == c[..|c| - 1][j := (k, c[j].1 + 1)];
      TotalUpdate(c[..|c| - 1], j, k);
    } else {
      assert c'[..|c| - 1] == c[..|c| - 1];
    }
  }

  /** Each bump adds exactly one to the total. */
  lemma TotalBump(c: Counts, k: string)
    ensures Total(Bump(c, k)) == Total(c) + 1
  {
    var j := IndexOf(Keys(c), k);
    if j < 0 {
      assert (c + [(k, 1)])[..|c|] == c;
    } else {
      TotalUpdate(c, j, k);
    }
  }

  /** The counts sum to the number of items counted. */
  lemma {:induction false} CountByTotal<T>(items: seq<T>, key: T -> string)
    ensures Total(CountBy(items, key)) == |items|
  {
    if items != [] {
      CountByTotal(items[..|items| - 1], key);
      TotalBump(CountBy(items[..|items| - 1], key), key(items[|items| - 1]));
    }
  }

  /** One more item through the counting loop. */
  lemma CountByStep<T>(items: seq<T>, i: int, key: T -> string)
    requires 0 <= i < |items|
    ensures CountBy(items[..i + 1], key) == Bump(CountBy(items[..i], key), key(items[i]))
  {
    assert items[..i + 1][..i] == items[..i];
  }

  /** One more item through the grouping loop. */
  lemma GroupByStep<T>(items: seq<T>, i: int, key: T -> string)
    requires 0 <= i < |items|
    ensures GroupBy(items[..i + 1], key) == AppendTo(GroupBy(items[..i], key), key(items[i]), items[i])
  {
    assert items[..i + 1][..i] == items[..i];
  }

  /** Counting is grouping followed by taking sizes. */
  lemma {:induction false} CountByIsSizes<T>(items: seq<T>, key: T -> string)
    ensures CountBy(items, key) == Sizes(GroupBy(items, key))
  {
    if items != [] {
      var init := items[..|items| - 1];
      CountByIsSizes(init, key);
      SizesAppendTo(GroupBy(init, key), key(items[|items| - 1]), items[|items| - 1]);
    }
  }

  /** Adding an item to its group bumps that group's count. */
  lemma SizesAppendTo<T>(g: Groups<T>, k: string, x: T)
    ensures Sizes(AppendTo(g, k, x)) == Bump(Sizes(g), k)
  {
    assert Keys(Sizes(g)) == Keys(g);
  }

  /** The grouping loop keeps first-appearance order of the keys, and each
      group holds exactly the items with its key, in input order. */
  lemma {:induction false} GroupByFaithful<T>(items: seq<T>, key: T -> string)
    ensures Keys(GroupBy(items, key)) == FirstAppearances(Project(items, key))
    ensures forall j :: 0 <= j < |GroupBy(items, key)| ==>
              GroupBy(items, key)[j].1 == Select(items, key, GroupBy(items, key)[j].0)
  {
    if items != [] {
      var init := items[..|items| - 1];
      var x := items[|items| - 1];
      var k := key(x);
      GroupByFaithful(init, key);
      var g' := GroupBy(init, key);
      var g := GroupBy(items, key);
      assert Project(items, key)[..|items| - 1] == Project(init, key);
      FirstAppearancesMembers(Project(init, key));
      var j := IndexOf(Keys(g'), k);
      if j < 0 {
        SelectNone(init, key, k);
        assert Keys(g) == Keys(g') + [k];
      } else {
        assert Keys(g) == Keys(g');
      }
    }
  }

  /** Keys of the grouping are distinct and are exactly the keys of the items. */
  lemma GroupByKeys<T>(items: seq<T>, key: T -> string)
    ensures Distinct(Keys(GroupBy(items, key)))
    ensures forall k :: k in Keys(GroupBy(items, key)) <==> k in Project(items, key)
  {
    GroupByFaithful(items, key);
    FirstAppearancesMembers(Project(items, key));
  }

  /** The group sizes add up to the number of items. */
  lemma GroupBySizes<T>(items: seq<T>, key: T -> string)
    ensures Total(Sizes(GroupBy(items, key))) == |items|
  {
    CountByIsSizes(items, key);
    CountByTotal(items, key);
  }

  /** The counting loop keeps first-appearance order of the keys, counts each
      key's items exactly, and its counts add up to the number of items. */
  lemma CountByFaithful<T>(items: seq<T>, key: T -> string)
    ensures Keys(CountBy(items, key)) == FirstAppearances(Project(items, key))
    ensures forall j :: 0 <= j < |CountBy(items, key)| ==>
              CountBy(items, key)[j].1 == |Select(items, key, CountBy(items, key)[j].0)|
    ensures Total(CountBy(items, key)) == |items|
  {
    CountByIsSizes(items, key);
    GroupByFaithful(items, key);
    CountByTotal(items, key);
  }

  /** Concatenation is associative (stated once so that loops need not re-derive it). */
  lemma AppendAssoc<T>(a: seq<T>, b: seq<T>, c: seq<T>)
    ensures (a + b) + c == a + (b + c)
  {
  }

  // ---------------------------------------------------------------- the loops

  /** The grouping loop as the alert modules write it. */
  method GroupInOrder<T>(items: seq<T>, key: T -> string) returns (g: Groups<T>)
    ensures g == GroupBy(items, key)
    ensures Keys(g) == FirstAppearances(Project(items, key))
    ensures forall j :: 0 <= j < |g| ==> g[j].1 == Select(items, key, g[j].0)
    ensures Total(Sizes(g)) == |items|
  {
    g := [];
    var i := 0;
    while i < |items|
      invariant 0 <= i <= |items|
      invariant g == GroupBy(items[..i], key)
    {
      GroupByStep(items, i, key);
      ghost var before := g;
      var k := key(items[i]);
      var j := IndexOf(Keys(g), k);
      if j < 0 {
        g := g + [(k, [items[i]])];
      } else {
        g := g[j := (k, g[j].1 + [items[i]])];
      }
      assert g == AppendTo(before, k, items[i]);
      i := i + 1;
    }
    assert items[..i] == items;
    GroupByFaithful(items, key);
    GroupBySizes(items, key);
  }

  /** The counting loop `d[k] = d.get(k, 0) + 1` as the reporting functions write it. */
  method Tally<T>(items: seq<T>, key: T -> string) returns (c: Counts)
    ensures c == CountBy(items, key)
    ensures Keys(c) == FirstAppearances(Project(items, key))
    ensures forall j :: 0 <= j < |c| ==> c[j].1 == |Select(items, key, c[j].0)|
    ensures Total(c) == |items|
  {
    c := [];
    var i := 0;
    while i < |items|
      invariant 0 <= i <= |items|
      invariant c == CountBy(items[..i], key)
    {
      CountByStep(items, i, key);
      ghost var before := c;
      var k := key(items[i]);
      var j := IndexOf(Keys(c), k);
      if j < 0 {
        c := c + [(k, 1)];
      } else {
        c := c[j := (k, c[j].1 + 1)];
      }
      assert c == Bump(before, k);
      i := i + 1;
    }
    assert items[..i] == items;
    CountByFaithful(items, key);
  }
}
