/**
 * Inventory states of the crafting planner: a mapping from item names to
 * quantities. A key may be absent, which several operations treat
 * differently from a key holding 0, so states are kept as partial maps.
 * Equality is map value equality, independent of insertion order.
 */
module Inventory {

  /** A resource identifier: an item, tool or structure. */
  type Item = string

  /** An inventory state (also used for the heuristic's residual demand). */
  type State = map<Item, int>

  /** Quantity of `k`, reading an absent key as 0. */
  function Held(s: State, k: Item): int {
    if k in s then s[k] else 0
  }

  ghost predicate NonNegative(s: State) {
    forall k | k in s :: s[k] >= 0
  }

  /** State.copy: a fresh state filled key by key from `s` (dict.update). */
  method Copy(s: State) returns (r: State)
    ensures r == s
  {
    r := map[];
    var rest := s.Keys;
    while rest != {}
      invariant rest <= s.Keys
      invariant r.Keys == s.Keys - rest
      invariant forall k | k in r :: r[k] == s[k]
      decreases rest
    {
      var k :| k in rest;
      r := r[k := s[k]];
      rest := rest - {k};
    }
  }

  /** The position of the first occurrence of `x` in `xs`. */
  function IndexOf(xs: seq<Item>, x: Item): (n: nat)
    requires x in xs
    ensures n < |xs| && xs[n] == x
    ensures forall j | 0 <= j < n :: xs[j] != x
  {
    if xs[0] == x then 0 else 1 + IndexOf(xs[1..], x)
  }

  /** Dropping the last element keeps the first occurrence of anything still present. */
  lemma IndexOfInit(xs: seq<Item>, x: Item)
    requires xs != [] && x in xs[..|xs| - 1]
    ensures IndexOf(xs, x) == IndexOf(xs[..|xs| - 1], x)
  {
    var init := xs[..|xs| - 1];
    var n := IndexOf(init, x);
    assert xs[n] == x;
    var m := IndexOf(xs, x);
    assert m <= n < |init|;
    assert init[m] == x;
  }

  /**
   * The keys of a Python dict built by inserting `xs` in order: each name
   * once, at the position of its first occurrence.
   */
  function Dedup(xs: seq<Item>): (r: seq<Item>)
    ensures forall k :: k in r <==> k in xs
    ensures forall i, j | 0 <= i < j < |r| :: r[i] != r[j]
  {
    if xs == [] then []
    else
      var front := Dedup(xs[..|xs| - 1]);
      if xs[|xs| - 1] in front then front else front + [xs[|xs| - 1]]
  }

  /** The dict's keys keep the order of their first insertions. */
  lemma {:induction false} DedupKeepsFirstOrder(xs: seq<Item>)
    ensures forall i, j | 0 <= i < j < |Dedup(xs)| :: IndexOf(xs, Dedup(xs)[i]) < IndexOf(xs, Dedup(xs)[j])
  {
    if xs != [] {
      var init := xs[..|xs| - 1];
      var last := xs[|xs| - 1];
      var front := Dedup(init);
      DedupKeepsFirstOrder(init);
      forall i | 0 <= i < |front| ensures front[i] in xs && IndexOf(xs, front[i]) == IndexOf(init, front[i]) {
        assert init[IndexOf(init, front[i])] == xs[IndexOf(init, front[i])];
        IndexOfInit(xs, front[i]);
      }
      assert last !in init ==> IndexOf(xs, last) == |xs| - 1;
    }
  }

  /** Item amounts listed in declaration order, as a JSON object lists its members. */
  type Pairs = seq<(Item, int)>

  /** The listed items, in declaration order. */
  function Names(ps: Pairs): seq<Item> {
    seq(|ps|, i requires 0 <= i < |ps| => ps[i].0)
  }

  /** The listed amounts as a dictionary: a repeated item keeps its last amount. */
  function ToMap(ps: Pairs): map<Item, int> {
    if ps == [] then map[]
    else ToMap(ps[..|ps| - 1])[ps[|ps| - 1].0 := ps[|ps| - 1].1]
  }

  /** The dictionary's keys are exactly the listed items. */
  lemma {:induction false} ToMapKeys(ps: Pairs)
    ensures forall k :: k in ToMap(ps) <==> k in Names(ps)
  {
    if ps != [] {
      assert Names(ps) == Names(ps[..|ps| - 1]) + [ps[|ps| - 1].0];
      ToMapKeys(ps[..|ps| - 1]);
    }
  }

  /** The last declaration of an item decides its amount in the dictionary. */
  lemma {:induction false} ToMapLastWins(ps: Pairs, i: nat)
    requires i < |ps| && forall j | i < j < |ps| :: ps[j].0 != ps[i].0
    ensures ps[i].0 in ToMap(ps) && ToMap(ps)[ps[i].0] == ps[i].1
  {
    if i < |ps| - 1 {
      var init := ps[..|ps| - 1];
      assert init[i] == ps[i];
      assert forall j | i < j < |init| :: init[j] == ps[j];
      ToMapLastWins(init, i);
    }
  }
}
