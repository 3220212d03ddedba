/**
 * The CTL solver: a memoised recursion over the formula that computes `EX`,
 * `EU` and `AF` directly, rewrites every other temporal and derived operator
 * into those, and keeps the satisfaction sets it has found in a cache that
 * outlives a single query.
 *
 * Every method is proved to return exactly `Sat` of its formula, and every map
 * it keeps holds only entries that agree with `Sat`.
 */
module CtlSolver {

  import opened Kripke
  import opened CtlFormulas
  import opened CtlSemantics

  /** Every cached satisfaction set is the true one for its formula. */
  ghost predicate CacheSound(m: Model, cache: map<CTLFormula, set<nat>>)
    requires Valid(m)
  {
    forall g :: g in cache ==> cache[g] == Sat(m, g)
  }

  /**
   * The loop of `sat_eu`: adds the `base` states with a successor in the set
   * until nothing changes. The result is the least set that contains `start`
   * and every `base` state with a successor in it.
   */
  method EUFixpoint(model: Model, base: set<nat>, start: set<nat>) returns (r: set<nat>)
    requires start <= AllIdx(model)
    ensures r == EUIterate(model, base, start)
    ensures EUClosed(model, base, start, r)
    ensures forall z :: EUClosed(model, base, start, z) ==> r <= z
  {
    LeastEU(model, base, start);
    var current := start;
    while true
      invariant current <= AllIdx(model)
      invariant EUIterate(model, base, current) == EUIterate(model, base, start)
      decreases Size(model) - |current|
    {
      var next := PreE(model, current) * base + current;
      if next == current {
        return next;
      }
      Grows(model, current, next);
      current := next;
    }
  }

  /**
   * The loop of `sat_af`: adds the states all of whose successors are in the
   * set until nothing changes. The result is the least set that contains
   * `start` and every state all of whose successors are in it.
   */
  method AFFixpoint(model: Model, start: set<nat>) returns (r: set<nat>)
    requires start <= AllIdx(model)
    ensures r == AFIterate(model, start)
    ensures AFClosed(model, start, r)
    ensures forall z :: AFClosed(model, start, z) ==> r <= z
  {
    LeastAF(model, start);
    var current := start;
    while true
      invariant current <= AllIdx(model)
      invariant AFIterate(model, current) == AFIterate(model, start)
      decreases Size(model) - |current|
    {
      var next := PreA(model, current) + current;
      if next == current {
        return next;
      }
      Grows(model, current, next);
      current := next;
    }
  }

  /** The solver of one query: a memo map from formulas to satisfaction sets. */
  class SolverInner {
    var memo: map<CTLFormula, set<nat>>

    constructor (memo: map<CTLFormula, set<nat>>)
      ensures this.memo == memo
    {
      this.memo := memo;
    }

    /** Records `ret` as the satisfaction set of `f` and hands it back. */
    method Memoise(model: Model, f: CTLFormula, ret: set<nat>) returns (r: set<nat>)
      requires Valid(model) && CacheSound(model, memo) && ret == Sat(model, f)
      modifies this
      ensures r == ret
      ensures memo == old(memo)[f := ret]
      ensures CacheSound(model, memo)
    {
      memo := memo[f := ret];
      r := ret;
    }

    /** The states with a successor satisfying `f`. */
    method SatEX(model: Model, f: CTLFormula) returns (r: set<nat>)
      requires Valid(model) && CacheSound(model, memo)
      modifies this
      ensures r == Sat(model, EX(f))
      ensures CacheSound(model, memo) && old(memo).Keys <= memo.Keys
      decreases Weight(EX(f)), 0
    {
      var s := Solve(model, f);
      r := PreE(model, s);
    }

    /**
     * The states from which some path stays in `lhs` until it reaches `rhs`,
     * found by iterating from the states of `rhs`.
     */
    method SatEU(model: Model, lhs: CTLFormula, rhs: CTLFormula) returns (r: set<nat>)
      requires Valid(model) && CacheSound(model, memo)
      modifies this
      ensures r == Sat(model, EU(lhs, rhs))
      ensures CacheSound(model, memo) && old(memo).Keys <= memo.Keys
      decreases Weight(EU(lhs, rhs)), 0
    {
      var current := Solve(model, rhs);
      var base := Solve(model, lhs);
      r := EUFixpoint(model, base, current);
    }

    /**
     * The states from which every path reaches `f`, found by iterating from the
     * states of `f`.
     */
    method SatAF(model: Model, f: CTLFormula) returns (r: set<nat>)
      requires Valid(model) && CacheSound(model, memo)
      modifies this
      ensures r == Sat(model, AF(f))
      ensures CacheSound(model, memo) && old(memo).Keys <= memo.Keys
      decreases Weight(AF(f)), 0
    {
      var current := Solve(model, f);
      r := AFFixpoint(model, current);
    }

    /**
     * The satisfaction set of `f`, taken from the memo map when `f` is there,
     * and otherwise computed, recorded under `f` and returned.
     */
    method Solve(model: Model, f: CTLFormula) returns (r: set<nat>)
      requires Valid(model) && CacheSound(model, memo)
      modifies this
      ensures r == Sat(model, f)
      ensures CacheSound(model, memo)
      ensures f in memo && old(memo).Keys <= memo.Keys
      ensures old(f in memo) ==> memo == old(memo)
      decreases Weight(f), 2
    {
      if f in memo {
        return memo[f];
      }
      if Rewritten(f) {
        r := SolveRewritten(model, f);
      } else {
        r := SolveDirect(model, f);
      }
    }

    /**
     * An operator the solver rewrites: the rewrite is solved and its set is
     * recorded under `f` as well.
     */
    method SolveRewritten(model: Model, f: CTLFormula) returns (r: set<nat>)
      requires Valid(model) && CacheSound(model, memo) && Rewritten(f)
      modifies this
      ensures r == Sat(model, f)
      ensures CacheSound(model, memo)
      ensures f in memo && Rewrite(f) in memo && old(memo).Keys <= memo.Keys
      decreases Weight(f), 1
    {
      var s := Solve(model, Rewrite(f));
      RewritePreservesSat(model, f);
      r := Memoise(model, f, s);
    }

    /** An operator the solver computes itself, from the sets of its operands. */
    method SolveDirect(model: Model, f: CTLFormula) returns (r: set<nat>)
      requires Valid(model) && CacheSound(model, memo) && !Rewritten(f)
      modifies this
      ensures r == Sat(model, f)
      ensures CacheSound(model, memo)
      ensures f in memo && old(memo).Keys <= memo.Keys
      decreases Weight(f), 1
    {
      match f
      case Top =>
        r := Memoise(model, f, AllIdx(model));
      case Bot =>
        r := Memoise(model, f, {});
      case Atomic(p) =>
        r := Memoise(model, f, AllContainingIdx(model, p));
      case Neg(inner) =>
        var s := Solve(model, inner);
        r := Memoise(model, f, AllExceptIdx(model, s));
      case And(lhs, rhs) =>
        var a := Solve(model, lhs);
        var b := Solve(model, rhs);
        r := Memoise(model, f, a * b);
      case Or(lhs, rhs) =>
        var a := Solve(model, lhs);
        var b := Solve(model, rhs);
        r := Memoise(model, f, a + b);
      case EX(inner) =>
        var s := SatEX(model, inner);
        r := Memoise(model, f, s);
      case EU(lhs, rhs) =>
        var s := SatEU(model, lhs, rhs);
        r := Memoise(model, f, s);
      case AF(inner) =>
        var s := SatAF(model, inner);
        r := Memoise(model, f, s);
    }
  }

  /**
   * Merging into a sound cache the new entries of a sound memo that extends
   * it yields that memo: both hold the satisfaction set of every formula.
   */
  lemma MergeIsMemo(m: Model, cache: map<CTLFormula, set<nat>>, memo: map<CTLFormula, set<nat>>)
    requires Valid(m) && CacheSound(m, cache) && CacheSound(m, memo)
    requires cache.Keys <= memo.Keys
    ensures cache + (map g | g in memo && g !in cache :: memo[g]) == memo
  {
    var merged := cache + (map g | g in memo && g !in cache :: memo[g]);
    assert merged.Keys == memo.Keys;
    forall g | g in memo
      ensures merged[g] == memo[g]
    {
      if g in cache {
        assert merged[g] == cache[g] == Sat(m, g);
      }
    }
  }

  /**
   * A CTL model checker bound to one model. Formulas are hash-consed through a
   * factory, and the satisfaction sets of every formula met while answering a
   * query are kept for later queries.
   */
  class CTLSolver {
    const model: Model
    const formulas: CTLFactory
    var cache: map<CTLFormula, set<nat>>

    ghost predicate Valid()
      reads this, formulas
    {
      Kripke.Valid(model) && formulas.Valid() && CacheSound(model, cache)
    }

    constructor (model: Model)
      requires Kripke.Valid(model)
      ensures this.model == model && cache == map[]
      ensures fresh(formulas) && formulas.cache == map[]
      ensures Valid()
    {
      this.model := model;
      formulas := new CTLFactory.Default();
      cache := map[];
    }

    /**
     * The names of the states that satisfy `f`. Afterwards the cache holds
     * the satisfaction set of `f` and of every formula solved on the way; what
     * it held before is kept.
     */
    method Satisfies(f: CTLFormula) returns (r: set<string>)
      requires Valid()
      modifies this, formulas
      ensures Valid()
      ensures r == GetNames(model, Sat(model, f))
      ensures f in cache && cache[f] == Sat(model, f)
      ensures old(cache).Keys <= cache.Keys
      ensures old(f in cache) ==> cache == old(cache)
      ensures formulas.cache.Keys == old(formulas.cache).Keys + Subformulas(f)
    {
      var formula := formulas.Create(f);
      var solver := new SolverInner(cache);
      var s := solver.Solve(model, formula);
      r := GetNames(model, s);
      var update := map g | g in solver.memo && g !in cache :: solver.memo[g];
      MergeIsMemo(model, cache, solver.memo);
      cache := cache + update;
    }
  }
}
