/** When single steps commute, batches of them can be reordered at will. */
module Commutation {
  ghost function Fold<S, E>(step: (S, E) -> S, s: S, es: seq<E>): S
    decreases |es|
  {
    if es == [] then s else Fold(step, step(s, es[0]), es[1..])
  }

  /** Independent steps commute in every good state, and steps keep states good. */
  ghost predicate Commutes<S(!new), E(!new)>(step: (S, E) -> S, good: S -> bool, independent: (E, E) -> bool) {
    && (forall s, e :: good(s) ==> good(step(s, e)))
    && (forall s, e1, e2 :: good(s) && independent(e1, e2) ==> step(step(s, e1), e2) == step(step(s, e2), e1))
  }

  /** No step is independent of itself, so such a batch has no repetitions. */
  ghost predicate IndependentBatch<E>(independent: (E, E) -> bool, es: seq<E>) {
    forall i, j :: 0 <= i < |es| && 0 <= j < |es| ==> (i != j <==> independent(es[i], es[j]))
  }

  ghost predicate SameSteps<E>(es: seq<E>, es': seq<E>) {
    (forall e :: e in es ==> e in es') && (forall e :: e in es' ==> e in es)
  }

  /** A step may be brought forward over those before it. */
  lemma {:induction false} BringForward<S(!new), E(!new)>(step: (S, E) -> S, good: S -> bool,
                                                          independent: (E, E) -> bool, s: S, es: seq<E>, k: nat)
    requires Commutes(step, good, independent) && good(s) && k < |es|
    requires forall i :: 0 <= i < k ==> independent(es[i], es[k])
    ensures Fold(step, s, es) == Fold(step, step(s, es[k]), es[..k] + es[k + 1..])
    decreases k
  {
    if k == 0 {
      assert es[..0] + es[1..] == es[1..];
    } else {
      BringForward(step, good, independent, step(s, es[0]), es[1..], k - 1);
      assert es[1..][..k - 1] + es[1..][k..] == es[1..k] + es[k + 1..];
      var rest := es[..k] + es[k + 1..];
      assert rest[0] == es[0] && rest[1..] == es[1..k] + es[k + 1..];
    }
  }

  /** Taking one step out of two orders of a batch leaves two orders of a smaller batch. */
  lemma WithoutFirst<E>(independent: (E, E) -> bool, es: seq<E>, es': seq<E>) returns (k: nat)
    requires es != [] && SameSteps(es, es')
    requires IndependentBatch(independent, es) && IndependentBatch(independent, es')
    ensures k < |es'| && es'[k] == es[0]
    ensures SameSteps(es[1..], es'[..k] + es'[k + 1..])
    ensures IndependentBatch(independent, es[1..]) && IndependentBatch(independent, es'[..k] + es'[k + 1..])
  {
    assert es[0] in es;
    k :| 0 <= k < |es'| && es'[k] == es[0];
    var rest := es'[..k] + es'[k + 1..];
    assert forall i :: 0 <= i < |rest| ==> rest[i] == es'[if i < k then i else i + 1];
    forall e | e in es[1..] ensures e in rest {
      var i :| 1 <= i < |es| && es[i] == e;
      assert independent(es[0], es[i]) && e in es';
      var j :| 0 <= j < |es'| && es'[j] == e;
      assert j != k;
      assert e == rest[if j < k then j else j - 1];
    }
    forall e | e in rest ensures e in es[1..] {
      var i :| 0 <= i < |rest| && rest[i] == e;
      assert independent(es'[k], es'[if i < k then i else i + 1]) && e in es;
      var j :| 0 <= j < |es| && es[j] == e;
      assert j != 0;
      assert e == es[1..][j - 1];
    }
  }

  lemma NotTheEmptyBatch<E>(es: seq<E>)
    requires es != []
    ensures !SameSteps([], es)
  {
    assert es[0] in es;
  }

  lemma {:induction false} Reorder<S(!new), E(!new)>(step: (S, E) -> S, good: S -> bool,
                                                     independent: (E, E) -> bool, s: S, es: seq<E>, es': seq<E>)
    requires Commutes(step, good, independent) && good(s)
    requires IndependentBatch(independent, es) && IndependentBatch(independent, es') && SameSteps(es, es')
    ensures Fold(step, s, es) == Fold(step, s, es')
    decreases |es|
  {
    if es == [] {
      if es' != [] {
        NotTheEmptyBatch(es');
      }
    } else {
      var k := WithoutFirst(independent, es, es');
      BringForward(step, good, independent, s, es', k);
      Reorder(step, good, independent, step(s, es[0]), es[1..], es'[..k] + es'[k + 1..]);
    }
  }
}
