/**
 * Satisfaction sets on concrete models: the six-state model of the checker's
 * test suite, and a one-state model on which the solver's `A[l U r]` differs
 * from the textbook one.
 */
module CtlExamples {

  import opened Kripke
  import opened CtlFormulas
  import opened CtlSemantics

  /**
   * States s1 .. s6 are the indices 0 .. 5: s1 is labelled p, s2 and s3 p and
   * q, s4 nothing, s5 and s6 q.
   */
  function SixStates(): (m: Model)
    ensures Valid(m) && Size(m) == 6
  {
    Model(
      ["s1", "s2", "s3", "s4", "s5", "s6"],
      [{0, 1, 2}, {0, 1, 2}, {3, 4}, {0, 5}, {3, 5}, {0, 1}],
      [{"p"}, {"p", "q"}, {"p", "q"}, {}, {"q"}, {"q"}])
  }

  const p := Atomic("p")
  const q := Atomic("q")

  lemma LabelsSixStates()
    ensures Sat(SixStates(), p) == {0, 1, 2}
    ensures Sat(SixStates(), q) == {1, 2, 4, 5}
  {
    var m := SixStates();
    assert Sat(m, p) == AllContainingIdx(m, "p");
    assert Sat(m, q) == AllContainingIdx(m, "q");
  }

  /** `p <- q` holds in s1 .. s4. */
  lemma ImpliesLSixStates()
    ensures Sat(SixStates(), ImpliesL(p, q)) == {0, 1, 2, 3}
  {
    LabelsSixStates();
  }

  /** `AX p` holds in s1, s2 and s6. */
  lemma AXSixStates()
    ensures Sat(SixStates(), AX(p)) == {0, 1, 5}
  {
    var m := SixStates();
    LabelsSixStates();
    assert Sat(m, AX(p)) == PreA(m, {0, 1, 2});
  }

  /** s1, s2, s4 and s6 have a successor among s1 and s2; s3 and s5 have none. */
  lemma PreESixStates(m: Model, x: set<nat>)
    requires m == SixStates() && (x == {0, 1} || x == {0, 1, 2})
    ensures x * PreE(m, x) == {0, 1}
  {
    assert 0 in m.succ[0] && 1 in m.succ[1];
    assert m.succ[2] * x == {};
  }

  /** One step of the `EG` iteration. */
  lemma EGIterateUnfold(m: Model, y: set<nat>)
    ensures y * PreE(m, y) == y ==> EGIterate(m, y) == y
    ensures y * PreE(m, y) != y ==> EGIterate(m, y) == EGIterate(m, y * PreE(m, y))
  {
  }

  /** No state of s1, s2 is dropped by the `EG` iteration. */
  lemma EGStableSixStates(m: Model, y: set<nat>)
    requires m == SixStates() && y == {0, 1}
    ensures EGIterate(m, y) == y
  {
    PreESixStates(m, y);
    EGIterateUnfold(m, y);
  }

  /** The `EG` iteration from s1, s2, s3 drops s3 and then stops. */
  lemma EGIterateSixStates(m: Model, y0: set<nat>, y1: set<nat>)
    requires m == SixStates() && y0 == {0, 1, 2} && y1 == {0, 1}
    ensures EGIterate(m, y0) == y1
  {
    EGStableSixStates(m, y1);
    PreESixStates(m, y0);
    assert 2 in y0 && 2 !in y1;
    EGIterateUnfold(m, y0);
  }

  /** `EG p` holds in s1 and s2. */
  lemma EGSixStates()
    ensures Sat(SixStates(), EG(p)) == {0, 1}
  {
    LabelsSixStates();
    EGIterateSixStates(SixStates(), {0, 1, 2}, {0, 1});
  }

  /** One step of the `EU` iteration. */
  lemma EUIterateUnfold(m: Model, base: set<nat>, y: set<nat>)
    requires y <= AllIdx(m)
    ensures PreE(m, y) * base + y == y ==> EUIterate(m, base, y) == y
    ensures PreE(m, y) * base + y != y ==>
              EUIterate(m, base, y) == EUIterate(m, base, PreE(m, y) * base + y)
  {
  }

  /** Only s3 and s5 have a successor in s4, and none has one in s5 alone. */
  lemma PreEFourSixStates(m: Model, x: set<nat>)
    requires m == SixStates() && (x == {3} || x == {3, 4})
    ensures PreE(m, x) == {2, 4}
  {
    assert 3 in m.succ[2] && 3 in m.succ[4];
  }

  /** The `EU` iteration of the `A[p U q]` rewrite stops at once on s4. */
  lemma EUNegQSixStates(m: Model)
    requires m == SixStates()
    ensures EUIterate(m, {0, 3}, {3}) == {3}
  {
    AllSixStates(m);
    PreEFourSixStates(m, {3});
    EUIterateUnfold(m, {0, 3}, {3});
  }

  /** The `EU` iteration of the `A[q U p]` rewrite adds s5 to s4 and stops. */
  lemma EUNegPSixStates(m: Model)
    requires m == SixStates()
    ensures EUIterate(m, {3, 4, 5}, {3}) == {3, 4}
  {
    AllSixStates(m);
    assert EUIterate(m, {3, 4, 5}, {3, 4}) == {3, 4} by {
      PreEFourSixStates(m, {3, 4});
      EUIterateUnfold(m, {3, 4, 5}, {3, 4});
    }
    PreEFourSixStates(m, {3});
    EUIterateUnfold(m, {3, 4, 5}, {3});
  }

  /** Nothing in s4, s5 has a successor in the set, so `EG` empties it. */
  lemma EGEmptiesSixStates(m: Model, y: set<nat>)
    requires m == SixStates() && y == {4}
    ensures EGIterate(m, y) == {}
  {
    assert PreE(m, {}) == {};
    EGIterateUnfold(m, {});
    assert y * PreE(m, y) == {} by {
      assert m.succ[4] * y == {};
    }
    EGIterateUnfold(m, y);
  }

  /** The `EG` iteration from s4, s5, s6 drops s6, then s4 and then s5. */
  lemma EGNegPSixStates(m: Model, y0: set<nat>, y1: set<nat>)
    requires m == SixStates() && y0 == {3, 4, 5} && y1 == {3, 4}
    ensures EGIterate(m, y0) == {}
  {
    EGEmptiesSixStates(m, {4});
    assert y1 * PreE(m, y1) == {4} by {
      assert 3 in m.succ[4] && m.succ[3] * y1 == {};
    }
    EGIterateUnfold(m, y1);
    assert y0 * PreE(m, y0) == y1 by {
      assert 5 in m.succ[3] && 3 in m.succ[4] && m.succ[5] * y0 == {};
    }
    EGIterateUnfold(m, y0);
  }

  /** s1 and s4 each have a successor among s1 and s4. */
  lemma EGNegQSixStates(m: Model, y: set<nat>)
    requires m == SixStates() && y == {0, 3}
    ensures EGIterate(m, y) == y
  {
    assert y <= PreE(m, y) by {
      assert 0 in m.succ[0] && 0 in m.succ[3];
    }
    EGIterateUnfold(m, y);
  }

  /** The solver's `A[l U r]`, written with the sets of `l` and `r`. */
  lemma AUFromSets(m: Model, l: CTLFormula, r: CTLFormula)
    requires Valid(m)
    ensures var notR := AllExceptIdx(m, Sat(m, r));
            var neither := AllExceptIdx(m, Sat(m, l)) * notR;
            Sat(m, AU(l, r)) == AllExceptIdx(m, EUIterate(m, notR, neither)) + EGIterate(m, notR)
  {
    var notR := AllExceptIdx(m, Sat(m, r));
    var neither := AllExceptIdx(m, Sat(m, l)) * notR;
    assert Sat(m, And(Neg(l), Neg(r))) == neither;
    assert Sat(m, EU(Neg(r), And(Neg(l), Neg(r)))) == EUIterate(m, notR, neither);
    assert Sat(m, EG(Neg(r))) == EGIterate(m, notR);
    assert Sat(m, AU(l, r)) == Sat(m, Or(Neg(EU(Neg(r), And(Neg(l), Neg(r)))), EG(Neg(r))));
  }

  /** All six states, as a set. */
  lemma AllSixStates(m: Model)
    requires m == SixStates()
    ensures AllIdx(m) == {0, 1, 2, 3, 4, 5}
  {
    assert forall i :: i in AllIdx(m) ==> i in {0, 1, 2, 3, 4, 5};
  }

  /** The complement of `x` among the six states. */
  lemma ComplementSixStates(m: Model, x: set<nat>, y: set<nat>)
    requires m == SixStates() && x + y == {0, 1, 2, 3, 4, 5} && x !! y
    ensures AllExceptIdx(m, x) == y
  {
    AllSixStates(m);
  }

  /** With the solver's rewrite, `A[p U q]` holds in all six states. */
  lemma AUpqSixStates(m: Model)
    requires m == SixStates()
    ensures Sat(m, AU(p, q)) == {0, 1, 2, 3, 4, 5}
  {
    var notQ := AllExceptIdx(m, Sat(m, q));
    var neither := AllExceptIdx(m, Sat(m, p)) * notQ;
    assert notQ == {0, 3} && neither == {3} by {
      LabelsSixStates();
      ComplementSixStates(m, {1, 2, 4, 5}, {0, 3});
      ComplementSixStates(m, {0, 1, 2}, {3, 4, 5});
    }
    assert AllExceptIdx(m, EUIterate(m, notQ, neither)) == {0, 1, 2, 4, 5} by {
      EUNegQSixStates(m);
      ComplementSixStates(m, {3}, {0, 1, 2, 4, 5});
    }
    assert EGIterate(m, notQ) == {0, 3} by {
      EGNegQSixStates(m, {0, 3});
    }
    AUFromSets(m, p, q);
  }

  /** With the solver's rewrite, `A[q U p]` holds in s1, s2, s3 and s6. */
  lemma AUqpSixStates(m: Model)
    requires m == SixStates()
    ensures Sat(m, AU(q, p)) == {0, 1, 2, 5}
  {
    var notP := AllExceptIdx(m, Sat(m, p));
    var neither := AllExceptIdx(m, Sat(m, q)) * notP;
    assert notP == {3, 4, 5} && neither == {3} by {
      LabelsSixStates();
      ComplementSixStates(m, {1, 2, 4, 5}, {0, 3});
      ComplementSixStates(m, {0, 1, 2}, {3, 4, 5});
    }
    assert AllExceptIdx(m, EUIterate(m, notP, neither)) == {0, 1, 2, 5} by {
      EUNegPSixStates(m);
      ComplementSixStates(m, {3, 4}, {0, 1, 2, 5});
    }
    assert EGIterate(m, notP) == {} by {
      EGNegPSixStates(m, {3, 4, 5}, {3, 4});
    }
    AUFromSets(m, q, p);
  }

  /**
   * A single state, its own successor, labelled with nothing. No path ever
   * reaches `p`, yet the solver places the state in `A[TOP U p]`.
   */
  function Loop(): (m: Model)
    ensures Valid(m) && Size(m) == 1
  {
    Model(["s"], [{0}], [{}])
  }

  lemma AUSolverExceedsStandard()
    ensures Sat(Loop(), AF(p)) == {}
    ensures Sat(Loop(), AU(Top, p)) == {0}
    ensures AUStandard(Loop(), Top, p) == {}
  {
    var m := Loop();
    assert Sat(m, p) == {};
    assert PreA(m, {}) == {};
    assert AFIterate(m, {}) == {};
    assert Sat(m, And(Neg(Top), Neg(p))) == {};
    assert PreE(m, {}) == {};
    assert EUIterate(m, {0}, {}) == {};
    assert Sat(m, EU(Neg(p), And(Neg(Top), Neg(p)))) == {};
    assert Sat(m, Neg(EU(Neg(p), And(Neg(Top), Neg(p))))) == {0};
    assert Sat(m, AU(Top, p)) == Sat(m, Or(Neg(EU(Neg(p), And(Neg(Top), Neg(p)))), EG(Neg(p))));
    AUStandardReaches(m, Top, p);
  }
}
