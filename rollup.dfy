/**
 * Nil-aware accumulation of optional decimal amounts, the pattern that
 * `ToOutputFormat` and `Combine` in internal/output/output.go both run:
 * a running total stays nil until the first non-nil amount arrives, is then
 * started at zero, and every non-nil amount is added to it.
 */
module Rollup {
  import opened Wrappers

  /** shopspring decimals add exactly, so they are modelled as reals. */
  type Decimal = real

  /** `decimalPtr`: a fresh pointer holding `d`, never nil. */
  function DecimalPtr(d: Decimal): (p: Option<Decimal>)
    ensures p.Some? && p.value == d
  {
    Some(d)
  }

  /**
   * One step of the accumulator loops: if `x` is non-nil, start `total`
   * at zero when it is still nil, then add `x` to it.
   */
  function Accumulate(total: Option<Decimal>, x: Option<Decimal>): (r: Option<Decimal>)
    ensures r.None? <==> total.None? && x.None?
    ensures r.Some? ==> r.value == total.GetOr(0.0) + x.GetOr(0.0)
  {
    if x.None? then total
    else
      var start := if total.None? then DecimalPtr(0.0) else total;
      DecimalPtr(start.value + x.value)
  }

  /** The running total after the accumulator loop has seen every element of `xs`, in order. */
  function SumOptional(xs: seq<Option<Decimal>>): Option<Decimal>
  {
    if xs == [] then None else Accumulate(SumOptional(xs[..|xs| - 1]), xs[|xs| - 1])
  }

  /** Reference definitions: no element contributed a value ... */
  ghost predicate AllNil(xs: seq<Option<Decimal>>)
  {
    forall x :: x in xs ==> x.None?
  }

  /** ... and the sum of the values that were present. */
  function SumPresent(xs: seq<Option<Decimal>>): Decimal
  {
    if xs == [] then 0.0 else xs[0].GetOr(0.0) + SumPresent(xs[1..])
  }

  lemma {:induction false} SumPresentAppend(xs: seq<Option<Decimal>>, ys: seq<Option<Decimal>>)
    ensures SumPresent(xs + ys) == SumPresent(xs) + SumPresent(ys)
  {
    if xs != [] {
      assert (xs + ys)[1..] == xs[1..] + ys;
      SumPresentAppend(xs[1..], ys);
    } else {
      assert xs + ys == ys;
    }
  }

  lemma {:induction false} AllNilSumsToZero(xs: seq<Option<Decimal>>)
    requires AllNil(xs)
    ensures SumPresent(xs) == 0.0
  {
    if xs != [] {
      assert xs[0] in xs;
      assert forall x :: x in xs[1..] ==> x in xs;
      AllNilSumsToZero(xs[1..]);
    }
  }

  /** The totals are nil exactly when nothing contributed; otherwise they are the sum of the non-nil values. */
  lemma {:induction false} SumOptionalMeaning(xs: seq<Option<Decimal>>)
    ensures SumOptional(xs).None? <==> AllNil(xs)
    ensures SumOptional(xs).Some? ==> SumOptional(xs).value == SumPresent(xs)
  {
    if xs != [] {
      var init, last := xs[..|xs| - 1], xs[|xs| - 1];
      assert xs == init + [last];
      assert SumOptional(xs) == Accumulate(SumOptional(init), last);
      SumOptionalMeaning(init);
      SumPresentAppend(init, [last]);
      assert SumPresent([last]) == last.GetOr(0.0);
      forall x | x in xs ensures x in init || x == last { }
      assert last in xs;
      assert AllNil(xs) ==> AllNil(init);
      if SumOptional(init).None? {
        AllNilSumsToZero(init);
      }
    }
  }

  /** Accumulating two groups separately and then adding the group totals gives the total of the whole. */
  lemma {:induction false} SumOptionalAppend(xs: seq<Option<Decimal>>, ys: seq<Option<Decimal>>)
    ensures SumOptional(xs + ys) == Accumulate(SumOptional(xs), SumOptional(ys))
  {
    SumOptionalMeaning(xs);
    SumOptionalMeaning(ys);
    SumOptionalMeaning(xs + ys);
    SumPresentAppend(xs, ys);
    assert AllNil(xs + ys) <==> AllNil(xs) && AllNil(ys) by {
      forall x | x in xs + ys ensures x in xs || x in ys { }
      forall x | x in xs || x in ys ensures x in xs + ys { }
    }
    if AllNil(xs) { AllNilSumsToZero(xs); }
    if AllNil(ys) { AllNilSumsToZero(ys); }
  }

  /** The accumulated total does not depend on the order of the inputs. */
  lemma {:induction false} SumOptionalPermutation(xs: seq<Option<Decimal>>, ys: seq<Option<Decimal>>)
    requires multiset(xs) == multiset(ys)
    ensures SumOptional(xs) == SumOptional(ys)
  {
    SumOptionalMeaning(xs);
    SumOptionalMeaning(ys);
    forall x ensures x in xs <==> x in ys {
      assert x in xs <==> x in multiset(xs);
      assert x in ys <==> x in multiset(ys);
    }
    SumPresentPermutation(xs, ys);
  }

  lemma {:induction false} SumPresentPermutation(xs: seq<Option<Decimal>>, ys: seq<Option<Decimal>>)
    requires multiset(xs) == multiset(ys)
    ensures SumPresent(xs) == SumPresent(ys)
    decreases |xs|
  {
    if xs == [] {
      assert |ys| == |multiset(ys)| == 0;
    } else {
      var x := xs[0];
      assert x in multiset(ys);
      var j :| 0 <= j < |ys| && ys[j] == x;
      var rest := ys[..j] + ys[j + 1..];
      assert ys == ys[..j] + [x] + ys[j + 1..];
      assert xs == [x] + xs[1..];
      assert multiset(ys) == multiset(ys[..j]) + multiset{x} + multiset(ys[j + 1..]);
      assert multiset(xs) == multiset{x} + multiset(xs[1..]);
      assert multiset(rest) == multiset(ys[..j]) + multiset(ys[j + 1..]);
      assert multiset(xs[1..]) == multiset(xs) - multiset{x};
      assert multiset(rest) == multiset(ys) - multiset{x};
      SumPresentPermutation(xs[1..], rest);
      SumPresentAppend(ys[..j] + [x], ys[j + 1..]);
      SumPresentAppend(ys[..j], [x]);
      SumPresentAppend(ys[..j], ys[j + 1..]);
    }
  }
}
