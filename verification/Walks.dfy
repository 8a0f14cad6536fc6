/** Walks along a relation between indices, and the closure they define. */
module Walks {

  type Relation = (nat, nat) -> bool

  ghost predicate Walk(r: Relation, w: seq<nat>, a: nat, b: nat) {
    && w != [] && w[0] == a && w[|w| - 1] == b
    && forall i :: 0 <= i < |w| - 1 ==> r(w[i], w[i + 1])
  }

  /** The reflexive-transitive closure of `r`. */
  ghost predicate Linked(r: Relation, a: nat, b: nat) { exists w :: Walk(r, w, a, b) }

  ghost predicate Symmetrical(r: Relation) { forall a, b :: r(a, b) ==> r(b, a) }

  lemma LinkedRefl(r: Relation, a: nat)
    ensures Linked(r, a, a)
  {
    assert Walk(r, [a], a, a);
  }

  lemma LinkedStep(r: Relation, a: nat, b: nat, c: nat)
    requires Linked(r, a, b) && r(b, c)
    ensures Linked(r, a, c)
  {
    var w :| Walk(r, w, a, b);
    assert Walk(r, w + [c], a, c);
  }

  lemma LinkedTrans(r: Relation, a: nat, b: nat, c: nat)
    requires Linked(r, a, b) && Linked(r, b, c)
    ensures Linked(r, a, c)
  {
    var v :| Walk(r, v, a, b);
    var w :| Walk(r, w, b, c);
    var u := v + w[1..];
    forall i | 0 <= i < |u| - 1 ensures r(u[i], u[i + 1]) {
      if i >= |v| - 1 {
        var k := i - (|v| - 1);
        assert u[i] == w[k] && u[i + 1] == w[k + 1] && r(w[k], w[k + 1]);
      }
    }
    assert Walk(r, u, a, c);
  }

  lemma LinkedSym(r: Relation, a: nat, b: nat)
    requires Symmetrical(r) && Linked(r, a, b)
    ensures Linked(r, b, a)
  {
    var w :| Walk(r, w, a, b);
    var u := seq(|w|, i requires 0 <= i < |w| => w[|w| - 1 - i]);
    forall i | 0 <= i < |u| - 1 ensures r(u[i], u[i + 1]) {
      var k := |w| - 2 - i;
      assert r(w[k], w[k + 1]);
    }
    assert Walk(r, u, b, a);
  }

  /** What every step keeps holds all along a walk. */
  lemma {:induction false} WalkKeeps(r: Relation, holds: nat -> bool, w: seq<nat>, a: nat, b: nat, n: nat)
    requires Walk(r, w, a, b) && holds(a) && n < |w|
    requires forall u, v :: holds(u) && r(u, v) ==> holds(v)
    ensures holds(w[n])
  {
    if n > 0 {
      WalkKeeps(r, holds, w, a, b, n - 1);
      assert r(w[n - 1], w[n - 1 + 1]);
    }
  }

  lemma LinkedKeeps(r: Relation, holds: nat -> bool, a: nat, b: nat)
    requires Linked(r, a, b) && holds(a)
    requires forall u, v :: holds(u) && r(u, v) ==> holds(v)
    ensures holds(b)
  {
    var w :| Walk(r, w, a, b);
    WalkKeeps(r, holds, w, a, b, |w| - 1);
  }
}
