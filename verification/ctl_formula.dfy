/**
 * CTL formulas and their hash-consing factory.
 *
 * The source shares equal subformulas through reference-counted nodes kept in a
 * cache from formula to node. As values, a shared node is equal to the formula it
 * stands for, so the cache becomes a map whose every key maps to itself.
 */
module CtlFormulas {

  import SetLemmas

  datatype CTLFormula =
    | Top
    | Bot
    | Atomic(variable: string)
    | Neg(inner: CTLFormula)
    | And(lhs: CTLFormula, rhs: CTLFormula)
    | Or(lhs: CTLFormula, rhs: CTLFormula)
    | ImpliesR(lhs: CTLFormula, rhs: CTLFormula)
    | ImpliesL(lhs: CTLFormula, rhs: CTLFormula)
    | BiImplies(lhs: CTLFormula, rhs: CTLFormula)
    | EX(inner: CTLFormula)
    | EF(inner: CTLFormula)
    | EG(inner: CTLFormula)
    | EU(lhs: CTLFormula, rhs: CTLFormula)
    | AX(inner: CTLFormula)
    | AF(inner: CTLFormula)
    | AG(inner: CTLFormula)
    | AU(lhs: CTLFormula, rhs: CTLFormula)
  {
    predicate IsLeaf() {
      Top? || Bot? || Atomic?
    }

    predicate IsUnary() {
      Neg? || EX? || EF? || EG? || AX? || AF? || AG?
    }
  }

  /** `total_size`: the number of nodes of the formula tree, shared or not. */
  function TotalSize(f: CTLFormula): (r: nat)
    ensures r >= 1
  {
    match f
    case Top | Bot | Atomic(_) => 1
    case And(lhs, rhs) => 1 + TotalSize(lhs) + TotalSize(rhs)
    case Or(lhs, rhs) => 1 + TotalSize(lhs) + TotalSize(rhs)
    case ImpliesR(lhs, rhs) => 1 + TotalSize(lhs) + TotalSize(rhs)
    case ImpliesL(lhs, rhs) => 1 + TotalSize(lhs) + TotalSize(rhs)
    case BiImplies(lhs, rhs) => 1 + TotalSize(lhs) + TotalSize(rhs)
    case EU(lhs, rhs) => 1 + TotalSize(lhs) + TotalSize(rhs)
    case AU(lhs, rhs) => 1 + TotalSize(lhs) + TotalSize(rhs)
    case EX(inner) => 1 + TotalSize(inner)
    case AX(inner) => 1 + TotalSize(inner)
    case EF(inner) => 1 + TotalSize(inner)
    case AF(inner) => 1 + TotalSize(inner)
    case EG(inner) => 1 + TotalSize(inner)
    case AG(inner) => 1 + TotalSize(inner)
    case Neg(inner) => 1 + TotalSize(inner)
  }

  /** The formula itself and all formulas below it. */
  ghost function Subformulas(f: CTLFormula): set<CTLFormula> {
    {f} + if f.IsLeaf() then {}
          else if f.IsUnary() then Subformulas(f.inner)
          else Subformulas(f.lhs) + Subformulas(f.rhs)
  }

  /** There are never more distinct subformulas than nodes. */
  lemma {:induction false} SubformulasBound(f: CTLFormula)
    ensures |Subformulas(f)| <= TotalSize(f)
  {
    if f.IsLeaf() {
    } else if f.IsUnary() {
      SubformulasBound(f.inner);
    } else {
      SubformulasBound(f.lhs);
      SubformulasBound(f.rhs);
      SetLemmas.UnionCard(Subformulas(f.lhs), Subformulas(f.rhs));
    }
  }

  /**
   * The shape every cache built by `Memoize` has: each key is shared as itself,
   * and the subformulas of a key are keys too.
   */
  ghost predicate Canonical(cache: map<CTLFormula, CTLFormula>) {
    forall k :: k in cache ==> cache[k] == k && Subformulas(k) <= cache.Keys
  }

  /** `cache` keeps every entry of `before` as it was. */
  ghost predicate Extends(cache: map<CTLFormula, CTLFormula>, before: map<CTLFormula, CTLFormula>) {
    && before.Keys <= cache.Keys
    && forall k :: k in before ==> cache[k] == before[k]
  }

  /**
   * What memoizing `f` into `before` leaves behind in `cache`: a canonical cache
   * that keeps every old entry, holds every subformula of `f`, and gained no
   * other key.
   */
  ghost predicate Memoized(f: CTLFormula, before: map<CTLFormula, CTLFormula>, cache: map<CTLFormula, CTLFormula>) {
    && Canonical(cache)
    && Extends(cache, before)
    && Subformulas(f) <= cache.Keys
    && cache.Keys <= before.Keys + Subformulas(f)
  }

  lemma ExtendsTransitive(c3: map<CTLFormula, CTLFormula>, c2: map<CTLFormula, CTLFormula>, c1: map<CTLFormula, CTLFormula>)
    requires Extends(c3, c2) && Extends(c2, c1)
    ensures Extends(c3, c1)
  {
  }

  /** Inserting `f` as itself once everything below it is a key. */
  lemma InsertNode(f: CTLFormula, before: map<CTLFormula, CTLFormula>, mid: map<CTLFormula, CTLFormula>)
    requires f !in before
    requires Canonical(mid) && Extends(mid, before)
    requires Subformulas(f) - {f} <= mid.Keys <= before.Keys + Subformulas(f)
    ensures Memoized(f, before, mid[f := f])
  {
    var c := mid[f := f];
    forall k | k in c
      ensures c[k] == k && Subformulas(k) <= c.Keys
    {
      if k != f {
        assert k in mid;
      }
    }
  }

  lemma AfterLeaf(f: CTLFormula, before: map<CTLFormula, CTLFormula>)
    requires f.IsLeaf() && f !in before && Canonical(before)
    ensures Memoized(f, before, before[f := f])
  {
    InsertNode(f, before, before);
  }

  lemma AfterUnary(f: CTLFormula, before: map<CTLFormula, CTLFormula>, c1: map<CTLFormula, CTLFormula>)
    requires f.IsUnary() && f !in before
    requires Memoized(f.inner, before, c1)
    ensures Memoized(f, before, c1[f := f])
  {
    InsertNode(f, before, c1);
  }

  lemma AfterBinary(f: CTLFormula, before: map<CTLFormula, CTLFormula>, c1: map<CTLFormula, CTLFormula>, c2: map<CTLFormula, CTLFormula>)
    requires !f.IsLeaf() && !f.IsUnary() && f !in before
    requires Memoized(f.lhs, before, c1) && Memoized(f.rhs, c1, c2)
    ensures Memoized(f, before, c2[f := f])
  {
    ExtendsTransitive(c2, c1, before);
    InsertNode(f, before, c2);
  }

  /**
   * `memoize`: returns the shared node for `f`, threading the cache. A formula
   * already in the cache is answered from it; otherwise the children are
   * memoized first and `f` is inserted last.
   */
  method Memoize(f: CTLFormula, cache: map<CTLFormula, CTLFormula>)
    returns (r: CTLFormula, cache': map<CTLFormula, CTLFormula>)
    requires Canonical(cache)
    ensures r == f
    ensures Canonical(cache') && Extends(cache', cache)
    ensures Subformulas(f) <= cache'.Keys
    ensures cache'.Keys <= cache.Keys + Subformulas(f)
    ensures f in cache ==> cache' == cache
    decreases f
  {
    if f in cache {
      return cache[f], cache;
    }
    match f {
      case Top =>
        r := Top;
        AfterLeaf(f, cache);
        cache' := cache;
      case Bot =>
        r := Bot;
        AfterLeaf(f, cache);
        cache' := cache;
      case Atomic(v) =>
        r := Atomic(v);
        AfterLeaf(f, cache);
        cache' := cache;
      case Neg(inner) =>
        var i;
        i, cache' := Memoize(inner, cache);
        r := Neg(i);
        AfterUnary(f, cache, cache');
      case And(lhs, rhs) =>
        var a, b, c1;
        a, c1 := Memoize(lhs, cache);
        b, cache' := Memoize(rhs, c1);
        r := And(a, b);
        AfterBinary(f, cache, c1, cache');
      case Or(lhs, rhs) =>
        var a, b, c1;
        a, c1 := Memoize(lhs, cache);
        b, cache' := Memoize(rhs, c1);
        r := Or(a, b);
        AfterBinary(f, cache, c1, cache');
      case ImpliesR(lhs, rhs) =>
        var a, b, c1;
        a, c1 := Memoize(lhs, cache);
        b, cache' := Memoize(rhs, c1);
        r := ImpliesR(a, b);
        AfterBinary(f, cache, c1, cache');
      case ImpliesL(lhs, rhs) =>
        var a, b, c1;
        a, c1 := Memoize(lhs, cache);
        b, cache' := Memoize(rhs, c1);
        r := ImpliesL(a, b);
        AfterBinary(f, cache, c1, cache');
      case BiImplies(lhs, rhs) =>
        var a, b, c1;
        a, c1 := Memoize(lhs, cache);
        b, cache' := Memoize(rhs, c1);
        r := BiImplies(a, b);
        AfterBinary(f, cache, c1, cache');
      case EX(inner) =>
        var i;
        i, cache' := Memoize(inner, cache);
        r := EX(i);
        AfterUnary(f, cache, cache');
      case AX(inner) =>
        var i;
        i, cache' := Memoize(inner, cache);
        r := AX(i);
        AfterUnary(f, cache, cache');
      case EF(inner) =>
        var i;
        i, cache' := Memoize(inner, cache);
        r := EF(i);
        AfterUnary(f, cache, cache');
      case AF(inner) =>
        var i;
        i, cache' := Memoize(inner, cache);
        r := AF(i);
        AfterUnary(f, cache, cache');
      case EG(inner) =>
        var i;
        i, cache' := Memoize(inner, cache);
        r := EG(i);
        AfterUnary(f, cache, cache');
      case AG(inner) =>
        var i;
        i, cache' := Memoize(inner, cache);
        r := AG(i);
        AfterUnary(f, cache, cache');
      case EU(lhs, rhs) =>
        var a, b, c1;
        a, c1 := Memoize(lhs, cache);
        b, cache' := Memoize(rhs, c1);
        r := EU(a, b);
        AfterBinary(f, cache, c1, cache');
      case AU(lhs, rhs) =>
        var a, b, c1;
        a, c1 := Memoize(lhs, cache);
        b, cache' := Memoize(rhs, c1);
        r := AU(a, b);
        AfterBinary(f, cache, c1, cache');
    }
    cache' := cache'[f := r];
  }

  /** Memoizing adds at most one entry per node of the formula. */
  lemma MemoizeGrowth(f: CTLFormula, cache: map<CTLFormula, CTLFormula>, cache': map<CTLFormula, CTLFormula>)
    requires cache.Keys <= cache'.Keys <= cache.Keys + Subformulas(f)
    ensures |cache| <= |cache'| <= |cache| + TotalSize(f)
  {
    SubformulasBound(f);
    SetLemmas.SubsetCard(cache'.Keys, cache.Keys + Subformulas(f));
    SetLemmas.UnionCard(cache.Keys, Subformulas(f));
    SetLemmas.SubsetCard(cache.Keys, cache'.Keys);
  }

  /** `CTLFactory`: owns the cache through which every formula it creates is shared. */
  class CTLFactory {
    var cache: map<CTLFormula, CTLFormula>

    ghost predicate Valid()
      reads this
    {
      Canonical(cache)
    }

    /** `CTLFactory::default()`: an empty cache. */
    constructor Default()
      ensures Valid() && cache == map[]
    {
      cache := map[];
    }

    /** `CTLFactory::new`: a factory over a given cache. */
    constructor (cache: map<CTLFormula, CTLFormula>)
      requires Canonical(cache)
      ensures Valid() && this.cache == cache
    {
      this.cache := cache;
    }

    /** `actual_size`: how many distinct formulas the factory shares. */
    function ActualSize(): nat
      reads this
    {
      |cache|
    }

    /** `create`: the shared formula equal to `f`, memoized in the factory's cache. */
    method Create(f: CTLFormula) returns (r: CTLFormula)
      requires Valid()
      modifies this
      ensures Valid() && r == f
      ensures Extends(cache, old(cache)) && cache.Keys == old(cache).Keys + Subformulas(f)
      ensures old(f in cache) ==> cache == old(cache)
      ensures old(ActualSize()) <= ActualSize() <= old(ActualSize()) + TotalSize(f)
    {
      r, cache := Memoize(f, cache);
      MemoizeGrowth(f, old(cache), cache);
    }
  }

  /** `memoize_ctl`: memoizes against a fresh, empty cache. */
  method MemoizeCtl(f: CTLFormula) returns (r: CTLFormula)
    ensures r == f
  {
    var cache;
    r, cache := Memoize(f, map[]);
  }
}
