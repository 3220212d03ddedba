/**
 * LTL formulas and their hash-consing factory, built exactly like the CTL ones.
 *
 * The source shares equal subformulas through reference-counted nodes kept in a
 * cache from formula to node. As values, a shared node is equal to the formula it
 * stands for, so the cache becomes a map whose every key maps to itself.
 */
module LtlFormulas {

  import SetLemmas

  datatype LTLFormula =
    | Top
    | Bot
    | Atomic(variable: string)
    | Neg(inner: LTLFormula)
    | And(lhs: LTLFormula, rhs: LTLFormula)
    | Or(lhs: LTLFormula, rhs: LTLFormula)
    | ImpliesR(lhs: LTLFormula, rhs: LTLFormula)
    | ImpliesL(lhs: LTLFormula, rhs: LTLFormula)
    | BiImplies(lhs: LTLFormula, rhs: LTLFormula)
    | X(inner: LTLFormula)
    | F(inner: LTLFormula)
    | G(inner: LTLFormula)
    | U(lhs: LTLFormula, rhs: LTLFormula)
    | W(lhs: LTLFormula, rhs: LTLFormula)
    | R(lhs: LTLFormula, rhs: LTLFormula)
  {
    predicate IsLeaf() {
      Top? || Bot? || Atomic?
    }

    predicate IsUnary() {
      Neg? || X? || F? || G?
    }
  }

  /** `total_size`: the number of nodes of the formula tree, shared or not. */
  function TotalSize(f: LTLFormula): (r: nat)
    ensures r >= 1
  {
    match f
    case Top | Bot | Atomic(_) => 1
    case And(lhs, rhs) => 1 + TotalSize(lhs) + TotalSize(rhs)
    case Or(lhs, rhs) => 1 + TotalSize(lhs) + TotalSize(rhs)
    case ImpliesR(lhs, rhs) => 1 + TotalSize(lhs) + TotalSize(rhs)
    case ImpliesL(lhs, rhs) => 1 + TotalSize(lhs) + TotalSize(rhs)
    case BiImplies(lhs, rhs) => 1 + TotalSize(lhs) + TotalSize(rhs)
    case U(lhs, rhs) => 1 + TotalSize(lhs) + TotalSize(rhs)
    case W(lhs, rhs) => 1 + TotalSize(lhs) + TotalSize(rhs)
    case R(lhs, rhs) => 1 + TotalSize(lhs) + TotalSize(rhs)
    case X(inner) => 1 + TotalSize(inner)
    case F(inner) => 1 + TotalSize(inner)
    case G(inner) => 1 + TotalSize(inner)
    case Neg(inner) => 1 + TotalSize(inner)
  }

  /** The formula itself and all formulas below it. */
  ghost function Subformulas(f: LTLFormula): set<LTLFormula> {
    {f} + if f.IsLeaf() then {}
          else if f.IsUnary() then Subformulas(f.inner)
          else Subformulas(f.lhs) + Subformulas(f.rhs)
  }

  /** There are never more distinct subformulas than nodes. */
  lemma {:induction false} SubformulasBound(f: LTLFormula)
    ensures |Subformulas(f)| <= TotalSize(f)
  {
    if f.IsLeaf() {
    } else if f.IsUnary() {
      SubformulasBound(f.inner);
    } else {
      SubformulasBound(f.lhs);
      SubformulasBound(f.rhs);
      SetLemmas.UnionCard(Subformulas(f.lhs), Subformulas(f.rhs));
    }
  }

  /**
   * The shape every cache built by `Memoize` has: each key is shared as itself,
   * and the subformulas of a key are keys too.
   */
  ghost predicate Canonical(cache: map<LTLFormula, LTLFormula>) {
    forall k :: k in cache ==> cache[k] == k && Subformulas(k) <= cache.Keys
  }

  /** `cache` keeps every entry of `before` as it was. */
  ghost predicate Extends(cache: map<LTLFormula, LTLFormula>, before: map<LTLFormula, LTLFormula>) {
    && before.Keys <= cache.Keys
    && forall k :: k in before ==> cache[k] == before[k]
  }

  /**
   * What memoizing `f` into `before` leaves behind in `cache`: a canonical cache
   * that keeps every old entry, holds every subformula of `f`, and gained no
   * other key.
   */
  ghost predicate Memoized(f: LTLFormula, before: map<LTLFormula, LTLFormula>, cache: map<LTLFormula, LTLFormula>) {
    && Canonical(cache)
    && Extends(cache, before)
    && Subformulas(f) <= cache.Keys
    && cache.Keys <= before.Keys + Subformulas(f)
  }

  lemma ExtendsTransitive(c3: map<LTLFormula, LTLFormula>, c2: map<LTLFormula, LTLFormula>, c1: map<LTLFormula, LTLFormula>)
    requires Extends(c3, c2) && Extends(c2, c1)
    ensures Extends(c3, c1)
  {
  }

  /** Inserting `f` as itself once everything below it is a key. */
  lemma InsertNode(f: LTLFormula, before: map<LTLFormula, LTLFormula>, mid: map<LTLFormula, LTLFormula>)
    requires f !in before
    requires Canonical(mid) && Extends(mid, before)
    requires Subformulas(f) - {f} <= mid.Keys <= before.Keys + Subformulas(f)
    ensures Memoized(f, before, mid[f := f])
  {
    var c := mid[f := f];
    forall k | k in c
      ensures c[k] == k && Subformulas(k) <= c.Keys
    {
      if k != f {
        assert k in mid;
      }
    }
  }

  lemma AfterLeaf(f: LTLFormula, before: map<LTLFormula, LTLFormula>)
    requires f.IsLeaf() && f !in before && Canonical(before)
    ensures Memoized(f, before, before[f := f])
  {
    InsertNode(f, before, before);
  }

  lemma AfterUnary(f: LTLFormula, before: map<LTLFormula, LTLFormula>, c1: map<LTLFormula, LTLFormula>)
    requires f.IsUnary() && f !in before
    requires Memoized(f.inner, before, c1)
    ensures Memoized(f, before, c1[f := f])
  {
    InsertNode(f, before, c1);
  }

  lemma AfterBinary(f: LTLFormula, before: map<LTLFormula, LTLFormula>, c1: map<LTLFormula, LTLFormula>, c2: map<LTLFormula, LTLFormula>)
    requires !f.IsLeaf() && !f.IsUnary() && f !in before
    requires Memoized(f.lhs, before, c1) && Memoized(f.rhs, c1, c2)
    ensures Memoized(f, before, c2[f := f])
  {
    ExtendsTransitive(c2, c1, before);
    InsertNode(f, before, c2);
  }

  /**
   * `memoize`: returns the shared node for `f`, threading the cache. A formula
   * already in the cache is answered from it; otherwise the children are
   * memoized first and `f` is inserted last.
   */
  method Memoize(f: LTLFormula, cache: map<LTLFormula, LTLFormula>)
    returns (r: LTLFormula, cache': map<LTLFormula, LTLFormula>)
    requires Canonical(cache)
    ensures r == f
    ensures Canonical(cache') && Extends(cache', cache)
    ensures Subformulas(f) <= cache'.Keys
    ensures cache'.Keys <= cache.Keys + Subformulas(f)
    ensures f in cache ==> cache' == cache
    decreases f
  {
    if f in cache {
      return cache[f], cache;
    }
    match f {
      case Top =>
        r := Top;
        AfterLeaf(f, cache);
        cache' := cache;
      case Bot =>
        r := Bot;
        AfterLeaf(f, cache);
        cache' := cache;
      case Atomic(v) =>
        r := Atomic(v);
        AfterLeaf(f, cache);
        cache' := cache;
      case Neg(inner) =>
        var i;
        i, cache' := Memoize(inner, cache);
        r := Neg(i);
        AfterUnary(f, cache, cache');
      case And(lhs, rhs) =>
        var a, b, c1;
        a, c1 := Memoize(lhs, cache);
        b, cache' := Memoize(rhs, c1);
        r := And(a, b);
        AfterBinary(f, cache, c1, cache');
      case Or(lhs, rhs) =>
        var a, b, c1;
        a, c1 := Memoize(lhs, cache);
        b, cache' := Memoize(rhs, c1);
        r := Or(a, b);
        AfterBinary(f, cache, c1, cache');
      case ImpliesR(lhs, rhs) =>
        var a, b, c1;
        a, c1 := Memoize(lhs, cache);
        b, cache' := Memoize(rhs, c1);
        r := ImpliesR(a, b);
        AfterBinary(f, cache, c1, cache');
      case ImpliesL(lhs, rhs) =>
        var a, b, c1;
        a, c1 := Memoize(lhs, cache);
        b, cache' := Memoize(rhs, c1);
        r := ImpliesL(a, b);
        AfterBinary(f, cache, c1, cache');
      case BiImplies(lhs, rhs) =>
        var a, b, c1;
        a, c1 := Memoize(lhs, cache);
        b, cache' := Memoize(rhs, c1);
        r := BiImplies(a, b);
        AfterBinary(f, cache, c1, cache');
      case X(inner) =>
        var i;
        i, cache' := Memoize(inner, cache);
        r := X(i);
        AfterUnary(f, cache, cache');
      case F(inner) =>
        var i;
        i, cache' := Memoize(inner, cache);
        r := F(i);
        AfterUnary(f, cache, cache');
      case G(inner) =>
        var i;
        i, cache' := Memoize(inner, cache);
        r := G(i);
        AfterUnary(f, cache, cache');
      case U(lhs, rhs) =>
        var a, b, c1;
        a, c1 := Memoize(lhs, cache);
        b, cache' := Memoize(rhs, c1);
        r := U(a, b);
        AfterBinary(f, cache, c1, cache');
      case W(lhs, rhs) =>
        var a, b, c1;
        a, c1 := Memoize(lhs, cache);
        b, cache' := Memoize(rhs, c1);
        r := W(a, b);
        AfterBinary(f, cache, c1, cache');
      case R(lhs, rhs) =>
        var a, b, c1;
        a, c1 := Memoize(lhs, cache);
        b, cache' := Memoize(rhs, c1);
        r := R(a, b);
        AfterBinary(f, cache, c1, cache');
    }
    cache' := cache'[f := r];
  }

  /** Memoizing adds at most one entry per node of the formula. */
  lemma MemoizeGrowth(f: LTLFormula, cache: map<LTLFormula, LTLFormula>, cache': map<LTLFormula, LTLFormula>)
    requires cache.Keys <= cache'.Keys <= cache.Keys + Subformulas(f)
    ensures |cache| <= |cache'| <= |cache| + TotalSize(f)
  {
    SubformulasBound(f);
    SetLemmas.SubsetCard(cache'.Keys, cache.Keys + Subformulas(f));
    SetLemmas.UnionCard(cache.Keys, Subformulas(f));
    SetLemmas.SubsetCard(cache.Keys, cache'.Keys);
  }

  /** `LTLFactory`: owns the cache through which every formula it creates is shared. */
  class LTLFactory {
    var cache: map<LTLFormula, LTLFormula>

    ghost predicate Valid()
      reads this
    {
      Canonical(cache)
    }

    /** `LTLFactory::default()`: an empty cache. */
    constructor Default()
      ensures Valid() && cache == map[]
    {
      cache := map[];
    }

    /** `LTLFactory::new`: a factory over a given cache. */
    constructor (cache: map<LTLFormula, LTLFormula>)
      requires Canonical(cache)
      ensures Valid() && this.cache == cache
    {
      this.cache := cache;
    }

    /** `actual_size`: how many distinct formulas the factory shares. */
    function ActualSize(): nat
      reads this
    {
      |cache|
    }

    /** `create`: the shared formula equal to `f`, memoized in the factory's cache. */
    method Create(f: LTLFormula) returns (r: LTLFormula)
      requires Valid()
      modifies this
      ensures Valid() && r == f
      ensures Extends(cache, old(cache)) && cache.Keys == old(cache).Keys + Subformulas(f)
      ensures old(f in cache) ==> cache == old(cache)
      ensures old(ActualSize()) <= ActualSize() <= old(ActualSize()) + TotalSize(f)
    {
      r, cache := Memoize(f, cache);
      MemoizeGrowth(f, old(cache), cache);
    }
  }

  /** `memoize_ltl`: memoizes against a fresh, empty cache. */
  method MemoizeLtl(f: LTLFormula) returns (r: LTLFormula)
    ensures r == f
  {
    var cache;
    r, cache := Memoize(f, map[]);
  }
}
