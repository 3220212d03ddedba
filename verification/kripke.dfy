/**
 * The Kripke structure the CTL solver works on, seen through the index-based
 * interface the solver uses: states are the indices 0 .. n-1, every state has a
 * name, a set of successor indices and a set of atomic propositions that hold
 * in it.
 */
module Kripke {

  datatype Model = Model(names: seq<string>, succ: seq<set<nat>>, labels: seq<set<string>>)

  /**
   * Every state has a unique name and a label set, and every transition stays
   * inside the model.
   */
  ghost predicate Valid(m: Model) {
    && |m.names| == |m.succ| == |m.labels|
    && (forall i, j :: 0 <= i < j < |m.names| ==> m.names[i] != m.names[j])
    && forall i, j :: 0 <= i < |m.succ| && j in m.succ[i] ==> j < |m.succ|
  }

  function Size(m: Model): nat {
    |m.succ|
  }

  /** `all_idx`: every state of the model. */
  function AllIdx(m: Model): (r: set<nat>)
    ensures forall i: nat :: i in r <==> i < Size(m)
  {
    Below(|m.succ|)
  }

  /** The indices 0 .. n-1. */
  function Below(n: nat): (r: set<nat>)
    ensures forall i: nat :: i in r <==> i < n
  {
    if n == 0 then {} else Below(n - 1) + {n - 1}
  }

  /** `all_containing_idx`: the states whose labels contain `p`. */
  function AllContainingIdx(m: Model, p: string): (r: set<nat>)
    requires Valid(m)
    ensures r <= AllIdx(m)
    ensures forall i: nat :: i in r <==> i < Size(m) && p in m.labels[i]
  {
    set i | i in AllIdx(m) && p in m.labels[i]
  }

  /** `all_except_idx`: the states outside `x`. */
  function AllExceptIdx(m: Model, x: set<nat>): (r: set<nat>)
    ensures r <= AllIdx(m) && r !! x
    ensures forall i: nat :: i < Size(m) ==> (i in r <==> i !in x)
  {
    AllIdx(m) - x
  }

  /** `pre_e`: the states with at least one successor in `x`. */
  function PreE(m: Model, x: set<nat>): (r: set<nat>)
    ensures r <= AllIdx(m)
    ensures forall i: nat :: i in r <==> i < Size(m) && exists j :: j in m.succ[i] && j in x
  {
    set i | i in AllIdx(m) && exists j :: j in m.succ[i] && j in x
  }

  /**
   * `pre_a`: the states all of whose successors lie in `x`. A state without
   * successors belongs to it whatever `x` is.
   */
  function PreA(m: Model, x: set<nat>): (r: set<nat>)
    ensures r <= AllIdx(m)
    ensures forall i: nat :: i in r <==> i < Size(m) && m.succ[i] <= x
  {
    set i | i in AllIdx(m) && m.succ[i] <= x
  }

  /** `get_names`: the names of the states in `x`. */
  function GetNames(m: Model, x: set<nat>): (r: set<string>)
    requires Valid(m) && x <= AllIdx(m)
    ensures forall i: nat :: i < Size(m) ==> (m.names[i] in r <==> i in x)
    ensures forall n :: n in r ==> n in m.names
  {
    set i | i in x :: m.names[i]
  }

  lemma PreEMonotone(m: Model, x: set<nat>, y: set<nat>)
    requires x <= y
    ensures PreE(m, x) <= PreE(m, y)
  {
  }

  lemma PreAMonotone(m: Model, x: set<nat>, y: set<nat>)
    requires x <= y
    ensures PreA(m, x) <= PreA(m, y)
  {
  }

  /** The complement of the complement of a set of states is that set. */
  lemma DoubleComplement(m: Model, x: set<nat>)
    requires x <= AllIdx(m)
    ensures AllExceptIdx(m, AllExceptIdx(m, x)) == x
  {
  }

  /** `n` states, so a set of states never has more than `n` elements. */
  lemma {:induction false} CardinalityBound(m: Model, x: set<nat>)
    requires x <= AllIdx(m)
    ensures |x| <= Size(m)
  {
    BelowCard(Size(m), x);
  }

  lemma {:induction false} BelowCard(n: nat, x: set<nat>)
    requires forall i :: i in x ==> i < n
    ensures |x| <= n
    decreases n
  {
    if n > 0 {
      var y := x - {n - 1};
      BelowCard(n - 1, y);
      assert x <= y + {n - 1};
    }
  }
}
