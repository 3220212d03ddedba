/**
 * The satisfaction sets of CTL formulas over a Kripke model, defined by set
 * algebra and fixpoint iteration, and the facts the solver's rewrites rest on.
 *
 * `Sat` is the reference the solver is proved against. Propositional operators
 * and `EX`/`AX` are set algebra; `EU`, `EF` and `AF` are least fixpoints and `EG`,
 * `AG` greatest fixpoints, each computed by monotone iteration and characterised
 * by a lemma. `AU` is, as in the solver, the set of
 * `(¬E[¬r U (¬l ∧ ¬r)]) ∨ EG ¬r`; this is not the textbook until-operator.
 */
module CtlSemantics {

  import opened Kripke
  import opened CtlFormulas
  import SetLemmas

  /**
   * A termination measure under which every rewrite the solver performs makes
   * the formula lighter, although it makes it larger.
   */
  function Weight(f: CTLFormula): (w: nat)
    ensures w >= 1
  {
    match f
    case Top | Bot | Atomic(_) => 1
    case Neg(g) => 1 + Weight(g)
    case EX(g) => 1 + Weight(g)
    case AF(g) => 1 + Weight(g)
    case And(l, r) => 1 + Weight(l) + Weight(r)
    case Or(l, r) => 1 + Weight(l) + Weight(r)
    case EU(l, r) => 1 + Weight(l) + Weight(r)
    case ImpliesR(l, r) => 3 + Weight(l) + Weight(r)
    case ImpliesL(l, r) => 3 + Weight(l) + Weight(r)
    case BiImplies(l, r) => 8 + 2 * Weight(l) + 2 * Weight(r)
    case AX(g) => 4 + Weight(g)
    case EF(g) => 3 + Weight(g)
    case EG(g) => 4 + Weight(g)
    case AG(g) => 6 + Weight(g)
    case AU(l, r) => 13 + Weight(l) + 3 * Weight(r)
  }

  /** The operators the solver does not compute itself but rewrites. */
  predicate Rewritten(f: CTLFormula) {
    f.ImpliesR? || f.ImpliesL? || f.BiImplies? || f.AX? || f.AU? || f.EF? || f.EG? || f.AG?
  }

  /**
   * The formula the solver evaluates in place of a rewritten operator. It is
   * lighter, though larger, than the formula it replaces.
   */
  function Rewrite(f: CTLFormula): (g: CTLFormula)
    requires Rewritten(f)
    ensures Weight(g) < Weight(f)
  {
    match f
    case ImpliesR(l, r) => ImpliesRLighter(l, r); Or(Neg(l), r)
    case ImpliesL(l, r) => ImpliesLLighter(l, r); Or(l, Neg(r))
    case BiImplies(l, r) => BiImpliesLighter(l, r); And(ImpliesR(l, r), ImpliesR(r, l))
    case AX(h) => AXLighter(h); Neg(EX(Neg(h)))
    case AU(l, r) => AULighter(l, r); Or(Neg(EU(Neg(r), And(Neg(l), Neg(r)))), EG(Neg(r)))
    case EF(h) => EFLighter(h); EU(Top, h)
    case EG(h) => EGLighter(h); Neg(AF(Neg(h)))
    case AG(h) => AGLighter(h); Neg(EF(Neg(h)))
  }

  // One lemma per rewrite, so that each weight computation is checked on its
  // own, built from single unfoldings of `Weight` that need no case split.

  lemma ImpliesRLighter(l: CTLFormula, r: CTLFormula)
    ensures Weight(Or(Neg(l), r)) < Weight(ImpliesR(l, r))
  {
    NegWeight(l);
    OrWeight(Neg(l), r);
    ImpliesRWeight(l, r);
  }

  lemma ImpliesLLighter(l: CTLFormula, r: CTLFormula)
    ensures Weight(Or(l, Neg(r))) < Weight(ImpliesL(l, r))
  {
    NegWeight(r);
    OrWeight(l, Neg(r));
    ImpliesLWeight(l, r);
  }

  lemma BiImpliesLighter(l: CTLFormula, r: CTLFormula)
    ensures Weight(And(ImpliesR(l, r), ImpliesR(r, l))) < Weight(BiImplies(l, r))
  {
    ImpliesRWeight(l, r);
    ImpliesRWeight(r, l);
    AndWeight(ImpliesR(l, r), ImpliesR(r, l));
    BiImpliesWeight(l, r);
  }

  lemma AXLighter(h: CTLFormula)
    ensures Weight(Neg(EX(Neg(h)))) < Weight(AX(h))
  {
    NegWeight(h);
    EXWeight(Neg(h));
    NegWeight(EX(Neg(h)));
    AXWeight(h);
  }

  lemma AULighter(l: CTLFormula, r: CTLFormula)
    ensures Weight(Or(Neg(EU(Neg(r), And(Neg(l), Neg(r)))), EG(Neg(r)))) < Weight(AU(l, r))
  {
    NegWeight(l);
    NegWeight(r);
    AndWeight(Neg(l), Neg(r));
    EUWeight(Neg(r), And(Neg(l), Neg(r)));
    NegWeight(EU(Neg(r), And(Neg(l), Neg(r))));
    EGWeight(Neg(r));
    OrWeight(Neg(EU(Neg(r), And(Neg(l), Neg(r)))), EG(Neg(r)));
    AUWeight(l, r);
  }

  lemma EFLighter(h: CTLFormula)
    ensures Weight(EU(Top, h)) < Weight(EF(h))
  {
    EUWeight(Top, h);
    EFWeight(h);
  }

  lemma EGLighter(h: CTLFormula)
    ensures Weight(Neg(AF(Neg(h)))) < Weight(EG(h))
  {
    NegWeight(h);
    AFWeight(Neg(h));
    NegWeight(AF(Neg(h)));
    EGWeight(h);
  }

  lemma AGLighter(h: CTLFormula)
    ensures Weight(Neg(EF(Neg(h)))) < Weight(AG(h))
  {
    NegWeight(h);
    EFWeight(Neg(h));
    NegWeight(EF(Neg(h)));
    AGWeight(h);
  }

  lemma NegWeight(x: CTLFormula)
    ensures Weight(Neg(x)) == 1 + Weight(x)
  {
  }

  lemma AndWeight(x: CTLFormula, y: CTLFormula)
    ensures Weight(And(x, y)) == 1 + Weight(x) + Weight(y)
  {
  }

  lemma OrWeight(x: CTLFormula, y: CTLFormula)
    ensures Weight(Or(x, y)) == 1 + Weight(x) + Weight(y)
  {
  }

  lemma ImpliesRWeight(x: CTLFormula, y: CTLFormula)
    ensures Weight(ImpliesR(x, y)) == 3 + Weight(x) + Weight(y)
  {
  }

  lemma ImpliesLWeight(x: CTLFormula, y: CTLFormula)
    ensures Weight(ImpliesL(x, y)) == 3 + Weight(x) + Weight(y)
  {
  }

  lemma BiImpliesWeight(x: CTLFormula, y: CTLFormula)
    ensures Weight(BiImplies(x, y)) == 8 + 2 * Weight(x) + 2 * Weight(y)
  {
  }

  lemma EXWeight(x: CTLFormula)
    ensures Weight(EX(x)) == 1 + Weight(x)
  {
  }

  lemma AXWeight(x: CTLFormula)
    ensures Weight(AX(x)) == 4 + Weight(x)
  {
  }

  lemma EUWeight(x: CTLFormula, y: CTLFormula)
    ensures Weight(EU(x, y)) == 1 + Weight(x) + Weight(y)
  {
  }

  lemma AUWeight(x: CTLFormula, y: CTLFormula)
    ensures Weight(AU(x, y)) == 13 + Weight(x) + 3 * Weight(y)
  {
  }

  lemma EFWeight(x: CTLFormula)
    ensures Weight(EF(x)) == 3 + Weight(x)
  {
  }

  lemma AFWeight(x: CTLFormula)
    ensures Weight(AF(x)) == 1 + Weight(x)
  {
  }

  lemma EGWeight(x: CTLFormula)
    ensures Weight(EG(x)) == 4 + Weight(x)
  {
  }

  lemma AGWeight(x: CTLFormula)
    ensures Weight(AG(x)) == 6 + Weight(x)
  {
  }

  // ---------------------------------------------------------------------------
  // Fixpoint iterations

  /** A step of a monotone iteration that strictly changes its set changes its size. */
  lemma Grows(m: Model, y: set<nat>, next: set<nat>)
    requires y <= next <= AllIdx(m) && next != y
    ensures |y| < |next| <= Size(m)
  {
    SetLemmas.ProperSubsetCard(y, next);
    CardinalityBound(m, next);
  }

  lemma Shrinks(next: set<nat>, y: set<nat>)
    requires next <= y && next != y
    ensures |next| < |y|
  {
    SetLemmas.ProperSubsetCard(next, y);
  }

  /** Iterates `Y := Y ∪ (pre_e(Y) ∩ base)` from `y` until nothing changes. */
  function EUIterate(m: Model, base: set<nat>, y: set<nat>): (r: set<nat>)
    requires y <= AllIdx(m)
    ensures y <= r <= AllIdx(m)
    decreases Size(m) - |y|
  {
    var next := PreE(m, y) * base + y;
    if next == y then y
    else
      Grows(m, y, next);
      EUIterate(m, base, next)
  }

  /** Iterates `Y := Y ∪ pre_a(Y)` from `y` until nothing changes. */
  function AFIterate(m: Model, y: set<nat>): (r: set<nat>)
    requires y <= AllIdx(m)
    ensures y <= r <= AllIdx(m)
    decreases Size(m) - |y|
  {
    var next := PreA(m, y) + y;
    if next == y then y
    else
      Grows(m, y, next);
      AFIterate(m, next)
  }

  /** Iterates `Y := Y ∩ pre_e(Y)` from `y` until nothing changes. */
  function EGIterate(m: Model, y: set<nat>): (r: set<nat>)
    ensures r <= y
    decreases |y|
  {
    var next := y * PreE(m, y);
    if next == y then y
    else
      Shrinks(next, y);
      EGIterate(m, next)
  }

  /** Iterates `Y := Y ∩ pre_a(Y)` from `y` until nothing changes. */
  function AGIterate(m: Model, y: set<nat>): (r: set<nat>)
    ensures r <= y
    decreases |y|
  {
    var next := y * PreA(m, y);
    if next == y then y
    else
      Shrinks(next, y);
      AGIterate(m, next)
  }

  // ---------------------------------------------------------------------------
  // What the iterations compute

  /** `Z` contains `rhs` and every `base` state with a successor in `Z`. */
  ghost predicate EUClosed(m: Model, base: set<nat>, rhs: set<nat>, z: set<nat>) {
    rhs <= z && PreE(m, z) * base <= z
  }

  /** `Z` contains `s` and every state all of whose successors are in `Z`. */
  ghost predicate AFClosed(m: Model, s: set<nat>, z: set<nat>) {
    s <= z && PreA(m, z) <= z
  }

  /** Every state of `Z` satisfies `s` and has a successor in `Z`. */
  ghost predicate EGConsistent(m: Model, s: set<nat>, z: set<nat>) {
    z <= s && z <= PreE(m, z)
  }

  /** Every state of `Z` satisfies `s` and has all its successors in `Z`. */
  ghost predicate AGConsistent(m: Model, s: set<nat>, z: set<nat>) {
    z <= s && z <= PreA(m, z)
  }

  lemma {:induction false} EUIterateLeast(m: Model, base: set<nat>, rhs: set<nat>, y: set<nat>)
    requires rhs <= y <= AllIdx(m)
    requires forall z :: EUClosed(m, base, rhs, z) ==> y <= z
    ensures EUClosed(m, base, rhs, EUIterate(m, base, y))
    ensures forall z :: EUClosed(m, base, rhs, z) ==> EUIterate(m, base, y) <= z
    decreases Size(m) - |y|
  {
    var next := PreE(m, y) * base + y;
    if next != y {
      forall z | EUClosed(m, base, rhs, z)
        ensures next <= z
      {
        PreEMonotone(m, y, z);
      }
      Grows(m, y, next);
      EUIterateLeast(m, base, rhs, next);
    }
  }

  /**
   * The `EU` iteration started from `rhs` yields the least set that contains
   * `rhs` and every `base` state with a successor in it.
   */
  lemma LeastEU(m: Model, base: set<nat>, rhs: set<nat>)
    requires rhs <= AllIdx(m)
    ensures EUClosed(m, base, rhs, EUIterate(m, base, rhs))
    ensures forall z :: EUClosed(m, base, rhs, z) ==> EUIterate(m, base, rhs) <= z
  {
    EUIterateLeast(m, base, rhs, rhs);
  }

  lemma {:induction false} AFIterateLeast(m: Model, s: set<nat>, y: set<nat>)
    requires s <= y <= AllIdx(m)
    requires forall z :: AFClosed(m, s, z) ==> y <= z
    ensures AFClosed(m, s, AFIterate(m, y))
    ensures forall z :: AFClosed(m, s, z) ==> AFIterate(m, y) <= z
    decreases Size(m) - |y|
  {
    var next := PreA(m, y) + y;
    if next != y {
      forall z | AFClosed(m, s, z)
        ensures next <= z
      {
        PreAMonotone(m, y, z);
      }
      Grows(m, y, next);
      AFIterateLeast(m, s, next);
    }
  }

  /**
   * The `AF` iteration started from `s` yields the least set that contains `s`
   * and every state all of whose successors are in it.
   */
  lemma LeastAF(m: Model, s: set<nat>)
    requires s <= AllIdx(m)
    ensures AFClosed(m, s, AFIterate(m, s))
    ensures forall z :: AFClosed(m, s, z) ==> AFIterate(m, s) <= z
  {
    AFIterateLeast(m, s, s);
  }

  lemma {:induction false} EGIterateGreatest(m: Model, s: set<nat>, y: set<nat>)
    requires y <= s
    requires forall z :: EGConsistent(m, s, z) ==> z <= y
    ensures EGConsistent(m, s, EGIterate(m, y))
    ensures forall z :: EGConsistent(m, s, z) ==> z <= EGIterate(m, y)
    decreases |y|
  {
    var next := y * PreE(m, y);
    if next != y {
      forall z | EGConsistent(m, s, z)
        ensures z <= next
      {
        PreEMonotone(m, z, y);
      }
      Shrinks(next, y);
      EGIterateGreatest(m, s, next);
    }
  }

  /**
   * The `EG` iteration started from `s` yields the greatest set of `s` states
   * each of which has a successor in the set.
   */
  lemma GreatestEG(m: Model, s: set<nat>)
    ensures EGConsistent(m, s, EGIterate(m, s))
    ensures forall z :: EGConsistent(m, s, z) ==> z <= EGIterate(m, s)
  {
    EGIterateGreatest(m, s, s);
  }

  lemma {:induction false} AGIterateGreatest(m: Model, s: set<nat>, y: set<nat>)
    requires y <= s
    requires forall z :: AGConsistent(m, s, z) ==> z <= y
    ensures AGConsistent(m, s, AGIterate(m, y))
    ensures forall z :: AGConsistent(m, s, z) ==> z <= AGIterate(m, y)
    decreases |y|
  {
    var next := y * PreA(m, y);
    if next != y {
      forall z | AGConsistent(m, s, z)
        ensures z <= next
      {
        PreAMonotone(m, z, y);
      }
      Shrinks(next, y);
      AGIterateGreatest(m, s, next);
    }
  }

  /**
   * The `AG` iteration started from `s` yields the greatest set of `s` states
   * all of whose successors are in the set.
   */
  lemma GreatestAG(m: Model, s: set<nat>)
    ensures AGConsistent(m, s, AGIterate(m, s))
    ensures forall z :: AGConsistent(m, s, z) ==> z <= AGIterate(m, s)
  {
    AGIterateGreatest(m, s, s);
  }

  // ---------------------------------------------------------------------------
  // Dualities

  /** A state has all successors in `x` exactly when none lies outside `x`. */
  lemma PreADual(m: Model, x: set<nat>)
    requires Valid(m)
    ensures PreA(m, x) == AllExceptIdx(m, PreE(m, AllExceptIdx(m, x)))
  {
    var lhs := PreA(m, x);
    var rhs := AllExceptIdx(m, PreE(m, AllExceptIdx(m, x)));
    forall i | i in rhs
      ensures i in lhs
    {
      forall j | j in m.succ[i]
        ensures j in x
      {
        assert j < Size(m);
        assert j !in AllExceptIdx(m, x);
      }
    }
  }

  /** The greatest `EG` set is the complement of the least `AF` set of the complement. */
  lemma EGDual(m: Model, s: set<nat>)
    requires Valid(m) && s <= AllIdx(m)
    ensures EGIterate(m, s) == AllExceptIdx(m, AFIterate(m, AllExceptIdx(m, s)))
  {
    var all := AllIdx(m);
    var a := AFIterate(m, all - s);
    var g := EGIterate(m, s);
    // The complement of `a` keeps a successor outside `a`, hence lies within `g`.
    assert all - a <= g by {
      LeastAF(m, all - s);
      GreatestEG(m, s);
      forall i | i in all - a
        ensures i in PreE(m, all - a)
      {
        assert i !in PreA(m, a);
        var j :| j in m.succ[i] && j !in a;
        assert j < Size(m);
      }
      assert EGConsistent(m, s, all - a);
    }
    // The complement of `g` is closed for `AF`, hence contains `a`.
    assert a <= all - g by {
      LeastAF(m, all - s);
      GreatestEG(m, s);
      forall i | i in PreA(m, all - g)
        ensures i in all - g
      {
        assert !exists j :: j in m.succ[i] && j in g;
        assert i !in PreE(m, g);
      }
      assert AFClosed(m, all - s, all - g);
    }
    assert g <= all by {
      GreatestEG(m, s);
    }
  }

  /** The greatest `AG` set is the complement of the least `EF` set of the complement. */
  lemma AGDual(m: Model, s: set<nat>)
    requires Valid(m) && s <= AllIdx(m)
    ensures AGIterate(m, s) == AllExceptIdx(m, EUIterate(m, AllIdx(m), AllExceptIdx(m, s)))
  {
    var all := AllIdx(m);
    var e := EUIterate(m, all, all - s);
    var h := AGIterate(m, s);
    LeastEU(m, all, all - s);
    GreatestAG(m, s);
    // No successor of a state outside `e` is in `e`.
    forall i | i in all - e
      ensures i in PreA(m, all - e)
    {
      assert i !in PreE(m, e) * all;
      forall j | j in m.succ[i]
        ensures j in all - e
      {
        assert j < Size(m);
      }
    }
    assert AGConsistent(m, s, all - e);
    // The complement of `h` is closed for `EU`, hence contains `e`.
    forall i | i in PreE(m, all - h) * all
      ensures i in all - h
    {
      assert !(m.succ[i] <= h);
      assert i !in PreA(m, h);
    }
    assert EUClosed(m, all, all - s, all - h);
  }

  // ---------------------------------------------------------------------------
  // Satisfaction sets

  /** The set of states of `m` that satisfy `f`. */
  function Sat(m: Model, f: CTLFormula): (sat: set<nat>)
    requires Valid(m)
    ensures sat <= AllIdx(m)
    decreases Weight(f)
  {
    match f
    case Top => AllIdx(m)
    case Bot => {}
    case Atomic(p) => AllContainingIdx(m, p)
    case Neg(g) => AllExceptIdx(m, Sat(m, g))
    case And(l, r) => Sat(m, l) * Sat(m, r)
    case Or(l, r) => Sat(m, l) + Sat(m, r)
    case ImpliesR(l, r) => AllExceptIdx(m, Sat(m, l)) + Sat(m, r)
    case ImpliesL(l, r) => Sat(m, l) + AllExceptIdx(m, Sat(m, r))
    case BiImplies(l, r) =>
      (AllExceptIdx(m, Sat(m, l)) + Sat(m, r)) * (AllExceptIdx(m, Sat(m, r)) + Sat(m, l))
    case EX(g) => PreE(m, Sat(m, g))
    case AX(g) => PreA(m, Sat(m, g))
    case EU(l, r) => EUIterate(m, Sat(m, l), Sat(m, r))
    case EF(g) => EUIterate(m, AllIdx(m), Sat(m, g))
    case AF(g) => AFIterate(m, Sat(m, g))
    case EG(g) => EGIterate(m, Sat(m, g))
    case AG(g) => AGIterate(m, Sat(m, g))
    case AU(_, _) => Sat(m, Rewrite(f))
  }

  // ---------------------------------------------------------------------------
  // The solver's rewrites preserve satisfaction sets

  lemma ImpliesRAsOr(m: Model, l: CTLFormula, r: CTLFormula)
    requires Valid(m)
    ensures Sat(m, ImpliesR(l, r)) == Sat(m, Or(Neg(l), r))
  {
  }

  lemma ImpliesLAsOr(m: Model, l: CTLFormula, r: CTLFormula)
    requires Valid(m)
    ensures Sat(m, ImpliesL(l, r)) == Sat(m, Or(l, Neg(r)))
  {
  }

  lemma BiImpliesAsAnd(m: Model, l: CTLFormula, r: CTLFormula)
    requires Valid(m)
    ensures Sat(m, BiImplies(l, r)) == Sat(m, And(ImpliesR(l, r), ImpliesR(r, l)))
  {
  }

  /** `AX f` is `¬EX ¬f`: a state with no successors satisfies it for every `f`. */
  lemma AXAsNegEX(m: Model, f: CTLFormula)
    requires Valid(m)
    ensures Sat(m, AX(f)) == Sat(m, Neg(EX(Neg(f))))
    ensures forall i: nat :: i < Size(m) && m.succ[i] == {} ==> i in Sat(m, AX(f)) && i !in Sat(m, EX(f))
  {
    var s := Sat(m, f);
    PreADual(m, s);
    assert Sat(m, AX(f)) == PreA(m, s);
    assert Sat(m, EX(Neg(f))) == PreE(m, AllExceptIdx(m, s));
    assert Sat(m, Neg(EX(Neg(f)))) == AllExceptIdx(m, PreE(m, AllExceptIdx(m, s)));
  }

  lemma EFAsEU(m: Model, f: CTLFormula)
    requires Valid(m)
    ensures Sat(m, EF(f)) == Sat(m, EU(Top, f))
  {
  }

  lemma EGAsNegAF(m: Model, f: CTLFormula)
    requires Valid(m)
    ensures Sat(m, EG(f)) == Sat(m, Neg(AF(Neg(f))))
  {
    var s := Sat(m, f);
    EGDual(m, s);
    assert Sat(m, AF(Neg(f))) == AFIterate(m, AllExceptIdx(m, s));
  }

  lemma AGAsNegEF(m: Model, f: CTLFormula)
    requires Valid(m)
    ensures Sat(m, AG(f)) == Sat(m, Neg(EF(Neg(f))))
  {
    var s := Sat(m, f);
    AGDual(m, s);
    assert Sat(m, EF(Neg(f))) == EUIterate(m, AllIdx(m), AllExceptIdx(m, s));
  }

  /** The converse duality: `AF f` is `¬EG ¬f`. */
  lemma AFAsNegEG(m: Model, f: CTLFormula)
    requires Valid(m)
    ensures Sat(m, AF(f)) == Sat(m, Neg(EG(Neg(f))))
  {
    var s := Sat(m, f);
    EGDual(m, AllExceptIdx(m, s));
    DoubleComplement(m, s);
    DoubleComplement(m, AFIterate(m, s));
    assert Sat(m, EG(Neg(f))) == EGIterate(m, AllExceptIdx(m, s));
  }

  /** Every rewrite the solver performs leaves the satisfaction set unchanged. */
  lemma RewritePreservesSat(m: Model, f: CTLFormula)
    requires Valid(m) && Rewritten(f)
    ensures Sat(m, Rewrite(f)) == Sat(m, f)
  {
    match f
    case ImpliesR(l, r) => ImpliesRAsOr(m, l, r);
    case ImpliesL(l, r) => ImpliesLAsOr(m, l, r);
    case BiImplies(l, r) => BiImpliesAsAnd(m, l, r);
    case AX(g) => AXAsNegEX(m, g);
    case AU(_, _) =>
    case EF(g) => EFAsEU(m, g);
    case EG(g) => EGAsNegAF(m, g);
    case AG(g) => AGAsNegEF(m, g);
  }

  // ---------------------------------------------------------------------------
  // The until-operator in its standard reading

  /**
   * The textbook reading of `A[l U r]`: no path reaches a state violating both
   * `l` and `r` before `r` holds, and no path avoids `r` for ever. The solver
   * negates only the first half and joins the second with a disjunction.
   */
  function AUStandard(m: Model, l: CTLFormula, r: CTLFormula): (sat: set<nat>)
    requires Valid(m)
    ensures sat <= AllIdx(m)
  {
    AllExceptIdx(m, Sat(m, EU(Neg(r), And(Neg(l), Neg(r)))) + Sat(m, EG(Neg(r))))
  }

  /** In every state of the standard `A[l U r]`, every path reaches `r`. */
  lemma AUStandardReaches(m: Model, l: CTLFormula, r: CTLFormula)
    requires Valid(m)
    ensures AUStandard(m, l, r) <= Sat(m, AF(r))
  {
    var sr := Sat(m, r);
    var nr := AllExceptIdx(m, sr);
    EGDual(m, nr);
    DoubleComplement(m, sr);
    assert Sat(m, EG(Neg(r))) == AllExceptIdx(m, AFIterate(m, sr));
  }

  /** Every state of the standard `A[l U r]` satisfies `l` or `r`. */
  lemma AUStandardLocal(m: Model, l: CTLFormula, r: CTLFormula)
    requires Valid(m)
    ensures AUStandard(m, l, r) <= Sat(m, l) + Sat(m, r)
  {
    var nl := AllExceptIdx(m, Sat(m, l));
    var nr := AllExceptIdx(m, Sat(m, r));
    assert Sat(m, And(Neg(l), Neg(r))) == nl * nr;
    var until := Sat(m, EU(Neg(r), And(Neg(l), Neg(r))));
    assert until == EUIterate(m, nr, nl * nr);
    forall i | i in AUStandard(m, l, r)
      ensures i in Sat(m, l) + Sat(m, r)
    {
      assert i < Size(m) && i !in until;
    }
  }

  /** The solver's set for `A[l U r]` contains the standard one. */
  lemma AUStandardWithinSolver(m: Model, l: CTLFormula, r: CTLFormula)
    requires Valid(m)
    ensures AUStandard(m, l, r) <= Sat(m, AU(l, r))
  {
    var until := EU(Neg(r), And(Neg(l), Neg(r)));
    assert Rewrite(AU(l, r)) == Or(Neg(until), EG(Neg(r)));
    assert Sat(m, AU(l, r)) == Sat(m, Or(Neg(until), EG(Neg(r))));
    assert Sat(m, Neg(until)) == AllExceptIdx(m, Sat(m, until));
  }
}
