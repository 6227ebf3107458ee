/**
 * Portfolio amount dictionaries: maps from portfolio name to an amount of
 * money, with the operations the allocation code performs on them: summing all
 * values, adding one dictionary into another key by key, and scaling every
 * value by a factor. Amounts are exact reals; floating-point rounding is not
 * modelled.
 */
module Amounts {

  /** A dictionary from portfolio name to an amount (or a weight, or a ratio). */
  type Portfolios = map<string, real>

  /** The value stored under `p`, or 0.0 when `p` is absent (a `get` with default 0.0). */
  function Get(m: Portfolios, p: string): real
  {
    if p in m then m[p] else 0.0
  }

  /** Every value of `m` is non-negative. */
  predicate NonNegative(m: Portfolios)
  {
    forall p | p in m :: m[p] >= 0.0
  }

  // ---------------------------------------------------------------------------
  // The sum of a dictionary's values
  // ---------------------------------------------------------------------------

  /** The sum of all values of `m`, taken in no particular key order. */
  ghost function Sum(m: Portfolios): real
    decreases |m|
  {
    if m == map[] then 0.0
    else
      var p :| p in m;
      assert |(m - {p}).Keys| < |m.Keys| by {
        assert (m - {p}).Keys == m.Keys - {p};
      }
      m[p] + Sum(m - {p})
  }

  /** The sum does not depend on which key is taken out first. */
  lemma {:induction false} SumRemove(m: Portfolios, p: string)
    requires p in m
    ensures Sum(m) == m[p] + Sum(m - {p})
    decreases |m|
  {
    var q :| q in m && Sum(m) == m[q] + Sum(m - {q});
    if q != p {
      assert |(m - {q}).Keys| < |m.Keys| by {
        assert (m - {q}).Keys == m.Keys - {q};
      }
      assert |(m - {p}).Keys| < |m.Keys| by {
        assert (m - {p}).Keys == m.Keys - {p};
      }
      SumRemove(m - {q}, p);
      SumRemove(m - {p}, q);
      assert m - {q} - {p} == m - {p} - {q};
    }
  }

  /** Overwriting (or adding) one entry changes the sum by the difference. */
  lemma SumUpdate(m: Portfolios, p: string, v: real)
    ensures Sum(m[p := v]) == Sum(m) - Get(m, p) + v
  {
    SumRemove(m[p := v], p);
    assert m[p := v] - {p} == m - {p};
    if p in m {
      SumRemove(m, p);
    } else {
      assert m - {p} == m;
    }
  }

  /** A dictionary with two distinct keys sums to its two values. */
  lemma SumPair(a: string, x: real, b: string, y: real)
    requires a != b
    ensures Sum(map[a := x, b := y]) == x + y
  {
    SumUpdate(map[a := x], b, y);
    SumUpdate(map[], a, x);
  }

  /** The sum of a non-negative dictionary is non-negative and bounds each of its values. */
  lemma {:induction false} SumBoundsEntries(m: Portfolios)
    requires NonNegative(m)
    ensures 0.0 <= Sum(m)
    ensures forall p | p in m :: m[p] <= Sum(m)
    decreases |m|
  {
    if m != map[] {
      forall p | p in m
        ensures m[p] <= Sum(m) && 0.0 <= Sum(m)
      {
        assert |(m - {p}).Keys| < |m.Keys| by {
          assert (m - {p}).Keys == m.Keys - {p};
        }
        SumRemove(m, p);
        SumBoundsEntries(m - {p});
      }
    }
  }

  // ---------------------------------------------------------------------------
  // Sums over an explicit list of keys (a proof device for the lemmas below)
  // ---------------------------------------------------------------------------

  /** No key occurs twice in `ks`. */
  predicate Distinct(ks: seq<string>)
  {
    forall i, j | 0 <= i < j < |ks| :: ks[i] != ks[j]
  }

  /** The values of `m` under the keys listed in `ks`, added up in list order. */
  function SumOver(m: Portfolios, ks: seq<string>): real
  {
    if ks == [] then 0.0 else Get(m, ks[0]) + SumOver(m, ks[1..])
  }

  /** Two dictionaries that agree on the listed keys have the same sum over them. */
  lemma {:induction false} SumOverAgree(m1: Portfolios, m2: Portfolios, ks: seq<string>)
    requires forall i | 0 <= i < |ks| :: Get(m1, ks[i]) == Get(m2, ks[i])
    ensures SumOver(m1, ks) == SumOver(m2, ks)
  {
    if ks != [] {
      SumOverAgree(m1, m2, ks[1..]);
    }
  }

  /** Summing over any duplicate-free list that covers every key gives the sum of the dictionary. */
  lemma {:induction false} SumOverIsSum(m: Portfolios, ks: seq<string>)
    requires Distinct(ks)
    requires forall p | p in m :: p in ks
    ensures SumOver(m, ks) == Sum(m)
    decreases |ks|
  {
    if ks == [] {
      assert m == map[];
    } else {
      var k := ks[0];
      var tail := ks[1..];
      assert Distinct(tail);
      assert k !in tail;
      if k in m {
        SumRemove(m, k);
        var rest := m - {k};
        SumOverIsSum(rest, tail);
        SumOverAgree(m, rest, tail);
      } else {
        SumOverIsSum(m, tail);
      }
    }
  }

  /** Every finite set of keys can be listed without duplicates. */
  lemma {:induction false} Enumerate(s: set<string>) returns (ks: seq<string>)
    ensures Distinct(ks)
    ensures forall p :: p in ks <==> p in s
    decreases |s|
  {
    if s == {} {
      ks := [];
    } else {
      var k :| k in s;
      var tail := Enumerate(s - {k});
      ks := [k] + tail;
    }
  }

  // ---------------------------------------------------------------------------
  // Adding one dictionary into another
  // ---------------------------------------------------------------------------

  /** `acc` with every entry of `delta` added in, keys missing on either side counting as 0.0. */
  function Merge(acc: Portfolios, delta: Portfolios): Portfolios
  {
    map p | p in acc.Keys + delta.Keys :: Get(acc, p) + Get(delta, p)
  }

  /** Adding a scaled dictionary in, key by key: the keys of both, each scaled value added to its entry. */
  lemma MergeScaleEntries(acc: Portfolios, r: Portfolios, c: real)
    ensures Merge(acc, Scale(r, c)).Keys == acc.Keys + r.Keys
    ensures forall p | p in r :: Merge(acc, Scale(r, c))[p] == Get(acc, p) + r[p] * c
    ensures forall p | p in acc && p !in r :: Merge(acc, Scale(r, c))[p] == acc[p]
  {
  }

  /** Merging a dictionary extended by a fresh key `p` extends the merge at `p`. */
  lemma MergeAdd(acc: Portfolios, rest: Portfolios, p: string, v: real)
    requires p !in rest
    ensures Merge(acc, rest[p := v]) == Merge(acc, rest)[p := Get(acc, p) + v]
  {
    var lhs := Merge(acc, rest[p := v]);
    var rhs := Merge(acc, rest)[p := Get(acc, p) + v];
    assert lhs.Keys == rhs.Keys;
    forall q | q in lhs
      ensures lhs[q] == rhs[q]
    {
    }
  }

  /** One loop step of adding `delta` into `acc`: handling key `p` extends the merged part by `p`. */
  lemma MergeStep(acc: Portfolios, delta: Portfolios, todo: set<string>, p: string)
    requires p in todo && todo <= delta.Keys
    ensures Merge(acc, delta - todo)[p := Get(Merge(acc, delta - todo), p) + delta[p]]
         == Merge(acc, delta - (todo - {p}))
  {
    var done := delta - todo;
    assert delta - (todo - {p}) == done[p := delta[p]];
    MergeAdd(acc, done, p, delta[p]);
  }

  lemma {:induction false} SumOverMerge(acc: Portfolios, delta: Portfolios, ks: seq<string>)
    ensures SumOver(Merge(acc, delta), ks) == SumOver(acc, ks) + SumOver(delta, ks)
  {
    if ks != [] {
      SumOverMerge(acc, delta, ks[1..]);
    }
  }

  /** Adding `delta` into `acc` adds exactly the sum of `delta` to the total. */
  lemma SumMerge(acc: Portfolios, delta: Portfolios)
    ensures Sum(Merge(acc, delta)) == Sum(acc) + Sum(delta)
  {
    var ks := Enumerate(acc.Keys + delta.Keys);
    SumOverMerge(acc, delta, ks);
    SumOverIsSum(acc, ks);
    SumOverIsSum(delta, ks);
    SumOverIsSum(Merge(acc, delta), ks);
  }

  // ---------------------------------------------------------------------------
  // Scaling every value
  // ---------------------------------------------------------------------------

  /** Every value of `m` multiplied by `c`. */
  function Scale(m: Portfolios, c: real): Portfolios
  {
    map p | p in m :: m[p] * c
  }

  /** Every value of `m` transformed by `f`. */
  function MapValues(m: Portfolios, f: real -> real): Portfolios
  {
    map p | p in m :: f(m[p])
  }

  /** `f` distributes over the sum of `x` and `y`. */
  ghost predicate AdditiveAt(f: real -> real, x: real, y: real)
  {
    f(x + y) == f(x) + f(y)
  }

  /** Multiplication by `c`, as a function value. */
  function Times(c: real): real -> real
  {
    (x: real) => x * c
  }

  lemma TimesIsAdditive(c: real)
    ensures Times(c)(0.0) == 0.0
    ensures forall x, y :: AdditiveAt(Times(c), x, y)
  {
    forall x, y
      ensures AdditiveAt(Times(c), x, y)
    {
      assert (x + y) * c == x * c + y * c;
    }
  }

  lemma {:induction false} SumOverMapValues(m: Portfolios, f: real -> real, ks: seq<string>)
    requires f(0.0) == 0.0
    requires forall x, y :: AdditiveAt(f, x, y)
    ensures SumOver(MapValues(m, f), ks) == f(SumOver(m, ks))
  {
    if ks != [] {
      SumOverMapValues(m, f, ks[1..]);
      assert Get(MapValues(m, f), ks[0]) == f(Get(m, ks[0]));
      assert AdditiveAt(f, Get(m, ks[0]), SumOver(m, ks[1..]));
    }
  }

  /** An additive transformation of every value transforms the sum the same way. */
  lemma SumMapValues(m: Portfolios, f: real -> real)
    requires f(0.0) == 0.0
    requires forall x, y :: AdditiveAt(f, x, y)
    ensures Sum(MapValues(m, f)) == f(Sum(m))
  {
    var ks := Enumerate(m.Keys);
    SumOverMapValues(m, f, ks);
    SumOverIsSum(m, ks);
    SumOverIsSum(MapValues(m, f), ks);
  }

  /** Scaling every value scales the sum. */
  lemma SumScale(m: Portfolios, c: real)
    ensures Sum(Scale(m, c)) == Sum(m) * c
  {
    TimesIsAdditive(c);
    assert Scale(m, c) == MapValues(m, Times(c));
    SumMapValues(m, Times(c));
  }

  /** A dictionary whose values are all zero sums to zero. */
  lemma SumZeros(m: Portfolios)
    requires forall p | p in m :: m[p] == 0.0
    ensures Sum(m) == 0.0
  {
    assert m == Scale(m, 0.0);
    SumScale(m, 0.0);
  }

  // ---------------------------------------------------------------------------
  // The loops the allocation code runs over dictionaries
  // ---------------------------------------------------------------------------

  /** The sum of all values of `m`, computed by visiting its keys one at a time. */
  method SumValues(m: Portfolios) returns (s: real)
    ensures s == Sum(m)
  {
    s := 0.0;
    var todo := m.Keys;
    assert m - todo == map[];
    while todo != {}
      invariant todo <= m.Keys
      invariant s == Sum(m - todo)
      decreases todo
    {
      var p :| p in todo;
      ghost var done := m - todo;
      assert m - (todo - {p}) == done[p := m[p]];
      SumUpdate(done, p, m[p]);
      s := s + m[p];
      todo := todo - {p};
    }
    assert m - todo == m;
  }

  /** Adds every entry of `delta` into `acc`, one key at a time, and returns the result. */
  method MergeInto(acc: Portfolios, delta: Portfolios) returns (r: Portfolios)
    ensures r == Merge(acc, delta)
    ensures Sum(r) == Sum(acc) + Sum(delta)
  {
    r := acc;
    var todo := delta.Keys;
    assert Merge(acc, delta - todo) == acc;
    while todo != {}
      invariant todo <= delta.Keys
      invariant r == Merge(acc, delta - todo)
      decreases todo
    {
      var p :| p in todo;
      MergeStep(acc, delta, todo, p);
      r := r[p := Get(r, p) + delta[p]];
      todo := todo - {p};
    }
    assert delta - todo == delta;
    SumMerge(acc, delta);
  }
}
