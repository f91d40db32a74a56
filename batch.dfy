// What the two breakout-style strategies do with a batch of candidate
// signals before sizing them: keep one signal per symbol (the last one,
// in the position of the first), and split the lot-risk percentage evenly
// across what remains.

module SignalBatch {
  import opened Base
  import Risk

  // ---------------------------------------------------------------------
  // Deduplication: `list({key(s): s for s in xs}.values())`
  // ---------------------------------------------------------------------

  /** The position of the entry with key `k`, or -1. */
  function IndexOfKey<T, K(==)>(acc: seq<T>, k: K, key: T -> K): (r: int)
    ensures -1 <= r < |acc|
    ensures r >= 0 ==> key(acc[r]) == k
    ensures r < 0 ==> forall j :: 0 <= j < |acc| ==> key(acc[j]) != k
  {
    if acc == [] then -1
    else if key(acc[0]) == k then 0
    else
      var t := IndexOfKey(acc[1..], k, key);
      assert forall j :: 1 <= j < |acc| ==> acc[1..][j - 1] == acc[j];
      if t < 0 then -1 else t + 1
  }

  /** One dict assignment: a known key keeps its place and takes the new value; a new key goes last. */
  function Insert<T, K(==)>(acc: seq<T>, x: T, key: T -> K): seq<T> {
    var i := IndexOfKey(acc, key(x), key);
    if i >= 0 then acc[i := x] else acc + [x]
  }

  /** The values of the dict built from `xs` keyed by `key`, in the dict's order. */
  function DedupBy<T, K(==)>(xs: seq<T>, key: T -> K): seq<T> {
    if xs == [] then []
    else Insert(DedupBy(xs[..|xs| - 1], key), xs[|xs| - 1], key)
  }

  predicate KeysUnique<T, K(==)>(xs: seq<T>, key: T -> K) {
    forall i, j :: 0 <= i < j < |xs| ==> key(xs[i]) != key(xs[j])
  }

  /** No later element of `xs` has the key of `xs[i]`. */
  predicate LastOfKey<T, K(==)>(xs: seq<T>, i: int, key: T -> K)
    requires 0 <= i < |xs|
  {
    forall j :: i < j < |xs| ==> key(xs[j]) != key(xs[i])
  }

  /** The dict keeps keys unique, adds `x`, and keeps every entry of another key. */
  lemma InsertFacts<T, K>(acc: seq<T>, x: T, key: T -> K)
    requires KeysUnique(acc, key)
    ensures var r := Insert(acc, x, key);
            KeysUnique(r, key) && x in r && |acc| <= |r| <= |acc| + 1 &&
            (forall j :: 0 <= j < |r| ==> r[j] == x || r[j] in acc) &&
            (forall j :: 0 <= j < |acc| && key(acc[j]) != key(x) ==> acc[j] in r)
  {
    var i := IndexOfKey(acc, key(x), key);
    var r := Insert(acc, x, key);
    if i >= 0 {
      assert r == acc[i := x];
      assert r[i] == x;
      forall j | 0 <= j < |acc| && key(acc[j]) != key(x)
        ensures acc[j] in r
      {
        assert j != i;
        assert r[j] == acc[j];
      }
    } else {
      assert r == acc + [x];
      assert r[|acc|] == x;
      forall j | 0 <= j < |acc|
        ensures acc[j] in r
      {
        assert r[j] == acc[j];
      }
    }
  }

  /**
   * Deduplication keeps one entry per key, invents nothing, and for every
   * key keeps the last signal that carries it.
   */
  lemma {:induction false} DedupLastWins<T, K>(xs: seq<T>, key: T -> K)
    ensures var r := DedupBy(xs, key);
            KeysUnique(r, key) && |r| <= |xs| && (xs != [] ==> r != []) &&
            (forall j :: 0 <= j < |r| ==> r[j] in xs) &&
            (forall i :: 0 <= i < |xs| && LastOfKey(xs, i, key) ==> xs[i] in r)
  {
    if xs != [] {
      var n := |xs| - 1;
      var init := xs[..n];
      var acc := DedupBy(init, key);
      DedupLastWins(init, key);
      InsertFacts(acc, xs[n], key);
      var r := DedupBy(xs, key);
      assert r == Insert(acc, xs[n], key);
      forall j | 0 <= j < |r|
        ensures r[j] in xs
      {
        if r[j] != xs[n] {
          assert r[j] in acc;
          assert r[j] in init;
        }
      }
      forall i | 0 <= i < |xs| && LastOfKey(xs, i, key)
        ensures xs[i] in r
      {
        if i < n {
          assert key(xs[n]) != key(xs[i]);
          assert init[i] == xs[i];
          assert LastOfKey(init, i, key);
          var k :| 0 <= k < |acc| && acc[k] == xs[i];
          assert acc[k] in r;
        }
      }
    }
  }

  /** Two signals for one symbol leave only the later one. */
  lemma LaterSignalReplacesEarlier<T, K>(a: T, b: T, key: T -> K)
    requires key(a) == key(b)
    ensures DedupBy([a, b], key) == [b]
  {
    assert [a, b][..1] == [a];
    assert [a][..0] == [];
    assert DedupBy([a], key) == Insert([], a, key) == [a];
    assert IndexOfKey([a], key(b), key) == 0;
  }

  // ---------------------------------------------------------------------
  // Sizing a batch: keep what a per-signal step makes of each signal
  // ---------------------------------------------------------------------

  /** The results of `f` on `xs`, in order, skipping the signals it drops. */
  function FilterMap<A, B>(xs: seq<A>, f: A -> Option<B>): (r: seq<B>)
    ensures |r| <= |xs|
  {
    if xs == [] then []
    else
      var rest := FilterMap(xs[..|xs| - 1], f);
      match f(xs[|xs| - 1])
      case None => rest
      case Some(y) => rest + [y]
  }

  /** `y` is what `f` made of one of the signals. */
  ghost predicate MadeFrom<A, B>(xs: seq<A>, f: A -> Option<B>, y: B) {
    exists i :: 0 <= i < |xs| && f(xs[i]) == Some(y)
  }

  lemma FilterMapStep<A, B>(xs: seq<A>, f: A -> Option<B>)
    requires xs != []
    ensures var n := |xs| - 1;
            var rest := FilterMap(xs[..n], f);
            FilterMap(xs, f) == if f(xs[n]).Some? then rest + [f(xs[n]).value] else rest
  {
  }

  /** Every result is what `f` made of one of the signals. */
  lemma {:induction false} FilterMapOrigin<A, B>(xs: seq<A>, f: A -> Option<B>)
    ensures forall j :: 0 <= j < |FilterMap(xs, f)| ==> MadeFrom(xs, f, FilterMap(xs, f)[j])
  {
    if xs != [] {
      var n := |xs| - 1;
      var init := xs[..n];
      FilterMapOrigin(init, f);
      FilterMapStep(xs, f);
      var rest := FilterMap(init, f);
      var r := FilterMap(xs, f);
      forall j | 0 <= j < |r|
        ensures MadeFrom(xs, f, r[j])
      {
        if j < |rest| {
          assert r[j] == rest[j];
          assert MadeFrom(init, f, rest[j]);
          var i :| 0 <= i < n && f(init[i]) == Some(rest[j]);
          assert init[i] == xs[i];
        } else {
          assert f(xs[n]) == Some(r[j]);
        }
      }
    }
  }

  /** Nothing `f` makes is lost: the result of every signal `f` keeps is among the results. */
  lemma {:induction false} FilterMapComplete<A, B>(xs: seq<A>, f: A -> Option<B>, i: int)
    requires 0 <= i < |xs| && f(xs[i]).Some?
    ensures f(xs[i]).value in FilterMap(xs, f)
  {
    var n := |xs| - 1;
    FilterMapStep(xs, f);
    var rest := FilterMap(xs[..n], f);
    var r := FilterMap(xs, f);
    if i < n {
      assert xs[..n][i] == xs[i];
      FilterMapComplete(xs[..n], f, i);
      assert rest <= r;
    } else {
      assert r[|rest|] == f(xs[n]).value;
    }
  }

  /**
   * `FilterMap` for a step that may raise: the first signal whose step
   * raises ends the batch with the exception.
   */
  function TryFilterMap<A, B>(xs: seq<A>, f: A -> Try<Option<B>>): Try<seq<B>> {
    if xs == [] then Ok([])
    else
      match TryFilterMap(xs[..|xs| - 1], f)
      case Raised => Raised
      case Ok(rest) =>
        match f(xs[|xs| - 1])
        case Raised => Raised
        case Ok(None) => Ok(rest)
        case Ok(Some(y)) => Ok(rest + [y])
  }

  /** A batch that does not raise ran every step without an exception and kept each result. */
  lemma {:induction false} TryFilterMapComplete<A, B>(xs: seq<A>, f: A -> Try<Option<B>>, i: int)
    requires 0 <= i < |xs|
    ensures var r := TryFilterMap(xs, f);
            r.Ok? ==> f(xs[i]).Ok? && (f(xs[i]).value.Some? ==> f(xs[i]).value.value in r.value)
  {
    var n := |xs| - 1;
    var r := TryFilterMap(xs, f);
    if r.Ok? {
      var rest := TryFilterMap(xs[..n], f);
      assert rest.Ok? && f(xs[n]).Ok?;
      assert r.value == if f(xs[n]).value.Some? then rest.value + [f(xs[n]).value.value] else rest.value;
      if i < n {
        assert xs[..n][i] == xs[i];
        TryFilterMapComplete(xs[..n], f, i);
        assert rest.value <= r.value;
      } else if f(xs[n]).value.Some? {
        assert r.value[|rest.value|] == f(xs[n]).value.value;
      }
    }
  }

  /** A step that keeps each signal's key keeps distinct keys distinct. */
  lemma {:induction false} FilterMapKeepsKeysUnique<A, B, K>(xs: seq<A>, f: A -> Option<B>, ka: A -> K, kb: B -> K)
    requires KeysUnique(xs, ka)
    requires forall i :: 0 <= i < |xs| && f(xs[i]).Some? ==> kb(f(xs[i]).value) == ka(xs[i])
    ensures KeysUnique(FilterMap(xs, f), kb)
  {
    if xs != [] {
      var n := |xs| - 1;
      var init := xs[..n];
      assert KeysUnique(init, ka);
      assert forall i :: 0 <= i < n ==> init[i] == xs[i];
      FilterMapKeepsKeysUnique(init, f, ka, kb);
      FilterMapOrigin(init, f);
      FilterMapStep(xs, f);
      var rest := FilterMap(init, f);
      if f(xs[n]).Some? {
        forall j | 0 <= j < |rest|
          ensures kb(rest[j]) != kb(f(xs[n]).value)
        {
          assert MadeFrom(init, f, rest[j]);
          var i :| 0 <= i < n && f(init[i]) == Some(rest[j]);
          assert init[i] == xs[i];
        }
      }
    }
  }

  // ---------------------------------------------------------------------
  // Even risk split
  // ---------------------------------------------------------------------

  /** `LOT_RISK_PERCENT`. */
  const LotRiskPercent: real := 1.0

  /** `LOT_RISK_PERCENT / total_signals`. */
  function RiskShare(budget: real, n: nat): (share: real)
    requires n > 0
    ensures share * n as real == budget
  {
    budget / n as real
  }

  /**
   * A larger batch never gives a signal a larger lot: the share of the
   * budget shrinks, and the lot grows with the risk percentage.
   */
  lemma LargerBatchSmallerLots(balance: real, budget: real, n1: nat, n2: nat,
                               slPips: real, lotValue: real, limits: Risk.VolumeLimits)
    requires 0 < n1 <= n2 && balance >= 0.0 && budget >= 0.0 && slPips * lotValue > 0.0
    ensures Risk.LotSize(balance, slPips, lotValue, RiskShare(budget, n2), Some(limits)) <=
            Risk.LotSize(balance, slPips, lotValue, RiskShare(budget, n1), Some(limits))
  {
    var d := slPips * lotValue;
    var a1 := Risk.RiskAmount(balance, RiskShare(budget, n1));
    var a2 := Risk.RiskAmount(balance, RiskShare(budget, n2));
    assert RiskShare(budget, n2) / 100.0 <= RiskShare(budget, n1) / 100.0;
    Risk.MultiplyMonotone(RiskShare(budget, n2) / 100.0, RiskShare(budget, n1) / 100.0, balance);
    assert a2 <= a1;
    Risk.DivideMonotone(a2, a1, d);
    Risk.ClampMonotone(a2 / d, a1 / d, limits);
  }
}
