/**
 * Python dictionaries as the core uses them: insertion-ordered, assigning to a
 * present key replaces its value in place, assigning to a new key appends it.
 * A dictionary is the sequence of its items, `d.items()`.
 */
module OrderedDicts {
  import opened Wrappers

  type ODict<K, V> = seq<(K, V)>

  predicate Distinct<T(==)>(s: seq<T>)
  {
    forall i, j :: 0 <= i < j < |s| ==> s[i] != s[j]
  }

  /** `list(d.keys())`. */
  function Keys<K, V>(d: ODict<K, V>): (ks: seq<K>)
    ensures |ks| == |d|
    ensures forall i :: 0 <= i < |d| ==> ks[i] == d[i].0
  {
    seq(|d|, i requires 0 <= i < |d| => d[i].0)
  }

  /** `d.get(k)`: the value of the first item with key `k`. */
  function Lookup<K(==), V>(d: ODict<K, V>, k: K): Option<V>
  {
    if |d| == 0 then None
    else if d[0].0 == k then Some(d[0].1)
    else Lookup(d[1..], k)
  }

  lemma {:induction false} LookupPresent<K, V>(d: ODict<K, V>, k: K)
    ensures Lookup(d, k).Some? <==> k in Keys(d)
  {
    if |d| > 0 && d[0].0 != k {
      LookupPresent(d[1..], k);
      assert Keys(d) == [d[0].0] + Keys(d[1..]);
    }
  }

  /** `d[k] = v`. */
  function Assign<K(==), V>(d: ODict<K, V>, k: K, v: V): ODict<K, V>
  {
    if |d| == 0 then [(k, v)]
    else if d[0].0 == k then [(k, v)] + d[1..]
    else [d[0]] + Assign(d[1..], k, v)
  }

  /** Assigning replaces the value of a present key in place and appends a new key; other keys keep their values. */
  lemma AssignSpec<K, V>(d: ODict<K, V>, k: K, v: V)
    ensures Keys(Assign(d, k, v)) == if k in Keys(d) then Keys(d) else Keys(d) + [k]
    ensures Lookup(Assign(d, k, v), k) == Some(v)
    ensures forall k' :: k' != k ==> Lookup(Assign(d, k, v), k') == Lookup(d, k')
  {
    AssignKeys(d, k, v);
    AssignLookup(d, k, v);
  }

  lemma {:induction false} AssignKeys<K, V>(d: ODict<K, V>, k: K, v: V)
    ensures Keys(Assign(d, k, v)) == if k in Keys(d) then Keys(d) else Keys(d) + [k]
  {
    if |d| > 0 {
      assert Keys(d) == [d[0].0] + Keys(d[1..]);
      if d[0].0 == k {
        assert Keys(Assign(d, k, v)) == [k] + Keys(d[1..]);
      } else {
        AssignKeys(d[1..], k, v);
        assert Keys(Assign(d, k, v)) == [d[0].0] + Keys(Assign(d[1..], k, v));
      }
    }
  }

  lemma {:induction false} AssignLookup<K, V>(d: ODict<K, V>, k: K, v: V)
    ensures Lookup(Assign(d, k, v), k) == Some(v)
    ensures forall k' :: k' != k ==> Lookup(Assign(d, k, v), k') == Lookup(d, k')
  {
    if |d| > 0 && d[0].0 != k {
      AssignLookup(d[1..], k, v);
      assert Assign(d, k, v)[1..] == Assign(d[1..], k, v);
    }
  }

  /** In a dictionary, the key of an item looks up that item's value. */
  lemma {:induction false} LookupAt<K, V>(d: ODict<K, V>, n: nat)
    requires Distinct(Keys(d)) && n < |d|
    ensures Lookup(d, d[n].0) == Some(d[n].1)
  {
    if n > 0 {
      assert Keys(d)[0] != Keys(d)[n];
      assert Keys(d[1..]) == Keys(d)[1..];
      LookupAt(d[1..], n - 1);
    }
  }

  /** `d.get(k, default)`. */
  function GetOr<K(==), V>(d: ODict<K, V>, k: K, default: V): V
  {
    match Lookup(d, k)
    case Some(v) => v
    case None => default
  }

  /** The distinct elements of `s`, in order of first appearance. */
  function Dedup<T(==,!new)>(s: seq<T>): (r: seq<T>)
    ensures Distinct(r)
    ensures forall x :: x in r <==> x in s
  {
    if |s| == 0 then []
    else
      var p := Dedup(s[..|s| - 1]);
      assert forall x :: x in s <==> x in s[..|s| - 1] || x == s[|s| - 1] by {
        assert s == s[..|s| - 1] + [s[|s| - 1]];
      }
      if s[|s| - 1] in p then p else p + [s[|s| - 1]]
  }

  lemma DedupSnoc<T(!new)>(s: seq<T>, x: T)
    ensures Dedup(s + [x]) == if x in s then Dedup(s) else Dedup(s) + [x]
  {
    assert (s + [x])[..|s|] == s;
  }

  /** Position of the first occurrence of `x` in `s`. */
  function FirstIndex<T(==)>(s: seq<T>, x: T): (i: nat)
    requires x in s
    ensures i < |s| && s[i] == x
    ensures forall j :: 0 <= j < i ==> s[j] != x
  {
    if s[0] == x then 0 else 1 + FirstIndex(s[1..], x)
  }

  lemma {:induction false} FirstIndexSnoc<T>(s: seq<T>, x: T, y: T)
    requires y in s
    ensures FirstIndex(s + [x], y) == FirstIndex(s, y)
  {
    if s[0] != y {
      assert (s + [x])[1..] == s[1..] + [x];
      FirstIndexSnoc(s[1..], x, y);
    }
  }

  /** `Dedup` lists the elements in the order of their first appearance. */
  lemma {:induction false} DedupOrder<T(!new)>(s: seq<T>, i: nat, j: nat)
    requires i < j < |Dedup(s)|
    ensures FirstIndex(s, Dedup(s)[i]) < FirstIndex(s, Dedup(s)[j])
    decreases |s|
  {
    var s' := s[..|s| - 1];
    var x := s[|s| - 1];
    assert s == s' + [x];
    DedupSnoc(s', x);
    var p := Dedup(s');
    if x in s' {
      DedupOrder(s', i, j);
      FirstIndexSnoc(s', x, p[i]);
      FirstIndexSnoc(s', x, p[j]);
    } else {
      FirstIndexSnoc(s', x, Dedup(s)[i]);
      if j < |p| {
        DedupOrder(s', i, j);
        FirstIndexSnoc(s', x, p[j]);
      } else {
        assert Dedup(s)[j] == x;
        assert FirstIndex(s, x) == |s'|;
      }
    }
  }

  /** `collections.Counter(s)`, as a dictionary: one entry per distinct element, in order of first appearance. */
  function Count<T(==,!new)>(s: seq<T>): ODict<T, nat>
  {
    if |s| == 0 then []
    else
      var p := Count(s[..|s| - 1]);
      Assign(p, s[|s| - 1], GetOr(p, s[|s| - 1], 0) + 1)
  }

  lemma CountSnoc<T(!new)>(init: seq<T>, y: T)
    ensures Count(init + [y]) == Assign(Count(init), y, GetOr(Count(init), y, 0) + 1)
  {
    assert (init + [y])[..|init|] == init;
  }

  lemma MultisetSnoc<T>(init: seq<T>, y: T, x: T)
    ensures multiset(init + [y])[x] == multiset(init)[x] + (if x == y then 1 else 0)
  {
    assert multiset(init + [y]) == multiset(init) + multiset{y};
  }

  /** The counter has one key per distinct element, in order of first appearance. */
  lemma {:induction false} CountKeys<T(!new)>(s: seq<T>)
    ensures Keys(Count(s)) == Dedup(s)
  {
    if |s| > 0 {
      var init := s[..|s| - 1];
      var y := s[|s| - 1];
      assert s == init + [y];
      var p := Count(init);
      var v := GetOr(p, y, 0) + 1;
      CountSnoc(init, y);
      assert Count(s) == Assign(p, y, v);
      CountKeys(init);
      DedupSnoc(init, y);
      AssignSpec(p, y, v);
      assert (y in Keys(p)) == (y in init);
    }
  }

  /** The counter holds, for every element, the number of its occurrences. */
  lemma {:induction false} CountLookup<T(!new)>(s: seq<T>, x: T)
    ensures Lookup(Count(s), x) == if x in s then Some(multiset(s)[x]) else None
  {
    if |s| > 0 {
      var init := s[..|s| - 1];
      var y := s[|s| - 1];
      assert s == init + [y];
      CountSnoc(init, y);
      CountLookup(init, x);
      MultisetSnoc(init, y, x);
      AssignSpec(Count(init), y, GetOr(Count(init), y, 0) + 1);
    }
  }

  /** Sum of the values of a dictionary. */
  function SumValues<K>(d: ODict<K, nat>): nat
  {
    if |d| == 0 then 0 else d[0].1 + SumValues(d[1..])
  }

  lemma {:induction false} SumValuesAssign<K(!new)>(d: ODict<K, nat>, k: K, v: nat)
    requires Distinct(Keys(d))
    ensures SumValues(Assign(d, k, v)) == SumValues(d) - GetOr(d, k, 0) + v
  {
    if |d| > 0 && d[0].0 != k {
      assert Keys(d[1..]) == Keys(d)[1..];
      SumValuesAssign(d[1..], k, v);
    } else if |d| > 0 {
      assert Keys(d[1..]) == Keys(d)[1..];
      assert k !in Keys(d[1..]);
      LookupPresent(d[1..], k);
    }
  }

  /** The counts of a counter add up to the number of elements counted. */
  lemma {:induction false} CountSumsToLength<T(!new)>(s: seq<T>)
    ensures SumValues(Count(s)) == |s|
  {
    if |s| > 0 {
      var init := s[..|s| - 1];
      var x := s[|s| - 1];
      assert s == init + [x];
      CountSnoc(init, x);
      CountSumsToLength(init);
      CountKeys(init);
      SumValuesAssign(Count(init), x, GetOr(Count(init), x, 0) + 1);
    }
  }

  /** A sequence has as many distinct elements as it has elements exactly when no element repeats. */
  lemma {:induction false} DistinctIffSetSize<T>(s: seq<T>)
    ensures |set x | x in s| <= |s|
    ensures |set x | x in s| == |s| <==> Distinct(s)
  {
    if |s| > 0 {
      var rest := s[1..];
      DistinctIffSetSize(rest);
      assert (set x | x in s) == {s[0]} + (set x | x in rest) by {
        assert s == [s[0]] + rest;
      }
      if s[0] in rest {
        assert (set x | x in s) == (set x | x in rest);
        var j :| 0 <= j < |rest| && rest[j] == s[0];
        assert s[0] == s[j + 1];
      } else {
        assert Distinct(s) <==> Distinct(rest) by {
          if Distinct(rest) {
            forall i, j | 0 <= i < j < |s|
              ensures s[i] != s[j]
            {
              if i > 0 {
                assert s[i] == rest[i - 1] && s[j] == rest[j - 1];
              } else {
                assert s[j] == rest[j - 1];
              }
            }
          }
          if Distinct(s) {
            forall i, j | 0 <= i < j < |rest|
              ensures rest[i] != rest[j]
            {
              assert rest[i] == s[i + 1] && rest[j] == s[j + 1];
            }
          }
        }
      }
    }
  }

  // ---------------------------------------------------------------- grouping

  /**
   * `d = defaultdict(list)` followed by `d[k].append(v)` for every pair, in
   * order.
   */
  function Group<K(==,!new), V>(ps: seq<(K, V)>): ODict<K, seq<V>>
  {
    if |ps| == 0 then []
    else
      var p := Group(ps[..|ps| - 1]);
      var (k, v) := ps[|ps| - 1];
      Assign(p, k, GetOr(p, k, []) + [v])
  }

  /** The values paired with `k`, in order. */
  function ValuesFor<K(==), V>(ps: seq<(K, V)>, k: K): (vs: seq<V>)
    ensures |vs| <= |ps|
  {
    if |ps| == 0 then []
    else
      var init := ValuesFor(ps[..|ps| - 1], k);
      if ps[|ps| - 1].0 == k then init + [ps[|ps| - 1].1] else init
  }

  lemma GroupSnoc<K(!new), V>(ps: seq<(K, V)>, k: K, v: V)
    ensures Group(ps + [(k, v)]) == Assign(Group(ps), k, GetOr(Group(ps), k, []) + [v])
    ensures forall k' :: ValuesFor(ps + [(k, v)], k') == if k' == k then ValuesFor(ps, k') + [v] else ValuesFor(ps, k')
  {
    assert (ps + [(k, v)])[..|ps|] == ps;
  }

  /** The groups appear in the order in which their keys first appear. */
  lemma {:induction false} GroupKeys<K(!new), V>(ps: seq<(K, V)>)
    ensures Keys(Group(ps)) == Dedup(Keys(ps))
  {
    if |ps| > 0 {
      var init := ps[..|ps| - 1];
      var (k, v) := ps[|ps| - 1];
      assert ps == init + [(k, v)];
      assert Keys(ps) == Keys(init) + [k];
      GroupSnoc(init, k, v);
      GroupKeys(init);
      DedupSnoc(Keys(init), k);
      AssignSpec(Group(init), k, GetOr(Group(init), k, []) + [v]);
    }
  }

  /** A key's group holds exactly the values paired with it, in their original order; other keys have no group. */
  lemma {:induction false} GroupLookup<K(!new), V>(ps: seq<(K, V)>, k: K)
    ensures Lookup(Group(ps), k) == if k in Keys(ps) then Some(ValuesFor(ps, k)) else None
  {
    if |ps| > 0 {
      var init := ps[..|ps| - 1];
      var (k0, v) := ps[|ps| - 1];
      assert ps == init + [(k0, v)];
      assert Keys(ps) == Keys(init) + [k0];
      GroupSnoc(init, k0, v);
      GroupLookup(init, k);
      AssignSpec(Group(init), k0, GetOr(Group(init), k0, []) + [v]);
      if k == k0 {
        GroupLookup(init, k0);
        LookupPresent(Group(init), k0);
        GroupKeys(init);
        if k0 !in Keys(init) {
          ValuesForAbsent(init, k0);
        }
      }
    }
  }

  lemma {:induction false} ValuesForAbsent<K, V>(ps: seq<(K, V)>, k: K)
    requires k !in Keys(ps)
    ensures ValuesFor(ps, k) == []
  {
    if |ps| > 0 {
      assert Keys(ps[..|ps| - 1]) == Keys(ps)[..|ps| - 1];
      ValuesForAbsent(ps[..|ps| - 1], k);
    }
  }

  /** Assigning a key the dictionary lacks appends it. */
  lemma {:induction false} AssignFresh<K, V>(d: ODict<K, V>, k: K, v: V)
    requires k !in Keys(d)
    ensures Assign(d, k, v) == d + [(k, v)]
  {
    if |d| > 0 {
      assert Keys(d[1..]) == Keys(d)[1..];
      AssignFresh(d[1..], k, v);
      assert d == [d[0]] + d[1..];
    }
  }

  /** Reassigning the last key, present nowhere else, replaces its value in place. */
  lemma {:induction false} AssignLast<K, V>(d: ODict<K, V>, k: K, v: V, w: V)
    requires k !in Keys(d)
    ensures Assign(d + [(k, v)], k, w) == d + [(k, w)]
  {
    if |d| > 0 {
      assert (d + [(k, v)])[0] == d[0];
      assert (d + [(k, v)])[1..] == d[1..] + [(k, v)];
      assert Keys(d[1..]) == Keys(d)[1..];
      AssignLast(d[1..], k, v, w);
      assert d == [d[0]] + d[1..];
    }
  }

  /** The values of the pairs, in order. */
  function Values<K, V>(ps: seq<(K, V)>): (vs: seq<V>)
    ensures |vs| == |ps| && forall i :: 0 <= i < |ps| ==> vs[i] == ps[i].1
  {
    seq(|ps|, i requires 0 <= i < |ps| => ps[i].1)
  }

  /** A run of pairs that all share a key not seen before adds one group, holding their values. */
  lemma {:induction false} GroupFreshRun<K(!new), V>(ps: seq<(K, V)>, qs: seq<(K, V)>)
    requires |qs| > 0
    requires forall i :: 0 <= i < |qs| ==> qs[i].0 == qs[0].0
    requires qs[0].0 !in Keys(ps)
    ensures Group(ps + qs) == Group(ps) + [(qs[0].0, Values(qs))]
  {
    var k := qs[0].0;
    var v := qs[|qs| - 1].1;
    GroupKeys(ps);
    if |qs| == 1 {
      assert qs == [(k, v)];
      GroupFreshStart(ps, k, v);
      assert Values(qs) == [v];
    } else {
      var init := qs[..|qs| - 1];
      GroupFreshRun(ps, init);
      assert ps + qs == (ps + init) + [(k, v)];
      GroupExtendLast(Group(ps), ps + init, k, Values(init), v);
      assert Values(qs) == Values(init) + [v];
    }
  }

  lemma GroupFreshStart<K(!new), V>(ps: seq<(K, V)>, k: K, v: V)
    requires k !in Keys(Group(ps))
    ensures Group(ps + [(k, v)]) == Group(ps) + [(k, [v])]
  {
    GroupSnoc(ps, k, v);
    LookupPresent(Group(ps), k);
    assert GetOr(Group(ps), k, []) + [v] == [v];
    AssignFresh(Group(ps), k, [v]);
  }

  lemma GroupExtendLast<K(!new), V>(g: ODict<K, seq<V>>, ps: seq<(K, V)>, k: K, vs: seq<V>, v: V)
    requires Group(ps) == g + [(k, vs)] && k !in Keys(g)
    ensures Group(ps + [(k, v)]) == g + [(k, vs + [v])]
  {
    GroupSnoc(ps, k, v);
    AssignFresh(g, k, vs);
    AssignSpec(g, k, vs);
    AssignLast(g, k, vs, vs + [v]);
  }

  /** Total number of values held by a dictionary of lists. */
  function TotalLength<K, V>(d: ODict<K, seq<V>>): nat
  {
    if |d| == 0 then 0 else |d[0].1| + TotalLength(d[1..])
  }

  lemma {:induction false} TotalLengthAssign<K(!new), V>(d: ODict<K, seq<V>>, k: K, vs: seq<V>)
    requires Distinct(Keys(d))
    ensures TotalLength(Assign(d, k, vs)) == TotalLength(d) - |GetOr(d, k, [])| + |vs|
  {
    if |d| > 0 && d[0].0 != k {
      assert Keys(d[1..]) == Keys(d)[1..];
      TotalLengthAssign(d[1..], k, vs);
    } else if |d| > 0 {
      assert Keys(d[1..]) == Keys(d)[1..];
      assert k !in Keys(d[1..]);
      LookupPresent(d[1..], k);
    }
  }

  /** Grouping loses no value: the groups hold as many values as there were pairs. */
  lemma {:induction false} GroupTotalLength<K(!new), V>(ps: seq<(K, V)>)
    ensures TotalLength(Group(ps)) == |ps|
  {
    if |ps| > 0 {
      var init := ps[..|ps| - 1];
      var (k, v) := ps[|ps| - 1];
      assert ps == init + [(k, v)];
      GroupSnoc(init, k, v);
      GroupTotalLength(init);
      GroupKeys(init);
      TotalLengthAssign(Group(init), k, GetOr(Group(init), k, []) + [v]);
    }
  }
}
