/** Steps that commute pairwise can be taken in any order. */
module Commuting {
  import opened Cards

  /** Each step is allowed when its turn comes. */
  ghost predicate AllAllowed<S, X>(ok: (S, X) -> bool, go: (S, X) -> S, s: S, xs: seq<X>)
    decreases |xs|
  {
    xs == [] || (ok(s, xs[0]) && AllAllowed(ok, go, go(s, xs[0]), xs[1..]))
  }

  function TakeAll<S, X>(go: (S, X) -> S, s: S, xs: seq<X>): S
    decreases |xs|
  {
    if xs == [] then s else TakeAll(go, go(s, xs[0]), xs[1..])
  }

  /** Two steps that are allowed one after the other are allowed the other way round, to the same end. */
  ghost predicate Commute<S(!new), X(!new)>(ok: (S, X) -> bool, go: (S, X) -> S) {
    forall s: S, x: X, y: X {:trigger go(go(s, x), y)} :: ok(s, x) && ok(go(s, x), y) ==>
      ok(s, y) && ok(go(s, y), x) && go(go(s, y), x) == go(go(s, x), y)
  }

  lemma FirstStep<S, X>(ok: (S, X) -> bool, go: (S, X) -> S, s: S, x: X, xs: seq<X>)
    ensures AllAllowed(ok, go, s, [x] + xs) <==> ok(s, x) && AllAllowed(ok, go, go(s, x), xs)
    ensures TakeAll(go, s, [x] + xs) == TakeAll(go, go(s, x), xs)
  {
    assert ([x] + xs)[1..] == xs;
  }

  /** The first step can wait until after any others. */
  lemma {:induction false} StepWaits<S(!new), X(!new)>(ok: (S, X) -> bool, go: (S, X) -> S, s: S, x: X, first: seq<X>,
        others: seq<X>)
    requires Commute(ok, go) && AllAllowed(ok, go, s, [x] + (first + others))
    ensures AllAllowed(ok, go, s, first + ([x] + others))
    ensures TakeAll(go, s, first + ([x] + others)) == TakeAll(go, s, [x] + (first + others))
    decreases |first|
  {
    if first == [] {
      assert first + others == others && first + ([x] + others) == [x] + others;
    } else {
      var y, rest := first[0], first[1..];
      assert first + others == [y] + (rest + others);
      assert first + ([x] + others) == [y] + (rest + ([x] + others));
      FirstStep(ok, go, s, x, first + others);
      FirstStep(ok, go, go(s, x), y, rest + others);
      assert go(go(s, y), x) == go(go(s, x), y);
      FirstStep(ok, go, go(s, y), x, rest + others);
      StepWaits(ok, go, go(s, y), x, rest, others);
      FirstStep(ok, go, s, y, rest + ([x] + others));
    }
  }

  lemma TakeOut<X>(xs: seq<X>, ys: seq<X>) returns (k: nat)
    requires xs != [] && multiset(xs) == multiset(ys)
    ensures k < |ys| && ys[k] == xs[0] && multiset(RemoveAt(ys, k)) == multiset(xs[1..])
  {
    assert xs[0] in multiset(xs);
    k :| 0 <= k < |ys| && ys[k] == xs[0];
    MultisetRemoveAt(ys, k);
    MultisetRemoveAt(xs, 0);
    assert RemoveAt(xs, 0) == xs[1..];
    CancelMultiset(multiset(RemoveAt(ys, k)), multiset(xs[1..]), multiset{xs[0]});
  }

  /** Any order of the same steps is allowed and leads to the same state. */
  lemma {:induction false} OrderIsFree<S(!new), X(!new)>(ok: (S, X) -> bool, go: (S, X) -> S, s: S, xs: seq<X>,
        ys: seq<X>)
    requires Commute(ok, go) && AllAllowed(ok, go, s, xs) && multiset(xs) == multiset(ys)
    ensures AllAllowed(ok, go, s, ys) && TakeAll(go, s, ys) == TakeAll(go, s, xs)
    decreases |xs|
  {
    if xs == [] {
      assert |multiset(ys)| == 0;
    } else {
      var x, rest := xs[0], xs[1..];
      var k := TakeOut(xs, ys);
      var first, others := ys[..k], ys[k + 1..];
      assert xs == [x] + rest && ys == first + ([x] + others);
      FirstStep(ok, go, s, x, rest);
      OrderIsFree(ok, go, go(s, x), rest, first + others);
      FirstStep(ok, go, s, x, first + others);
      StepWaits(ok, go, s, x, first, others);
    }
  }
}
