/**
 * The recipe compiler: for one recipe, the applicability check, the forward
 * effect on an inventory, and the reverse step that the heuristic folds
 * into its residual-demand map.
 */
module Recipes {
  import opened Wrappers
  import opened Inventory

  /** Item amounts of one recipe field. */
  type Amounts = map<Item, int>

  /**
   * A recipe of the rule set (`needs` is its Requires field). An absent
   * Requires or Consumes field behaves exactly like an empty one and is
   * modelled as `map[]`; an absent Produces field is `None`, because the
   * producer lookup of the heuristic fails on it. `consumeOrder` is the order
   * in which the Consumes field lists its items: the reverse step inserts the
   * consumed items it creates in that order, and the heuristic then visits
   * them in that order.
   */
  datatype Recipe = Recipe(
    name: string,
    needs: Amounts,
    consumes: Amounts,
    consumeOrder: seq<Item>,
    produces: Option<Amounts>,
    time: nat)

  /** Every consumed item appears in the declared order of the Consumes field. */
  predicate OrderCoversConsumes(rs: seq<Recipe>) {
    forall r, k | r in rs && k in r.consumes :: k in r.consumeOrder
  }

  /** The produced amounts, with an absent Produces field read as empty. */
  function Produced(r: Recipe): Amounts {
    if r.produces.Some? then r.produces.value else map[]
  }

  /** `r` lists `item` among the items it produces. */
  predicate Produces(r: Recipe, item: Item) {
    r.produces.Some? && item in r.produces.value
  }

  /** Every recipe takes a positive time, as the rule set is meant to. */
  predicate PositiveTimes(rs: seq<Recipe>) {
    forall r | r in rs :: r.time > 0
  }

  /** Every recipe produces non-negative amounts. */
  ghost predicate NonNegativeYields(rs: seq<Recipe>) {
    forall r, k | r in rs && k in Produced(r) :: Produced(r)[k] >= 0
  }

  /**
   * The applicability condition: every consumed item is a key of the state
   * with at least the consumed amount, and every required item is a key with
   * a quantity different from 0 (the required amount is never compared).
   */
  predicate Applicable(r: Recipe, s: State) {
    && (forall k | k in r.consumes :: k in s && s[k] >= r.consumes[k])
    && (forall k | k in r.needs :: k in s && s[k] != 0)
  }

  /** The compiled check: two early-return loops, consumed items first. */
  method Check(r: Recipe, s: State) returns (ok: bool)
    ensures ok <==> Applicable(r, s)
  {
    var rest := r.consumes.Keys;
    while rest != {}
      invariant rest <= r.consumes.Keys
      invariant forall k | k in r.consumes && k !in rest :: k in s && s[k] >= r.consumes[k]
      decreases rest
    {
      var k :| k in rest;
      if k !in s || s[k] < r.consumes[k] {
        return false;
      }
      rest := rest - {k};
    }
    rest := r.needs.Keys;
    while rest != {}
      invariant rest <= r.needs.Keys
      invariant forall k | k in r.needs && k !in rest :: k in s && s[k] != 0
      decreases rest
    {
      var k :| k in rest;
      if k !in s || s[k] == 0 {
        return false;
      }
      rest := rest - {k};
    }
    return true;
  }

  /** The state after the consumption loop of the forward effect. */
  function AfterConsume(r: Recipe, s: State): State {
    map k | k in s :: s[k] - Held(r.consumes, k)
  }

  /**
   * The forward effect: consumed amounts come off the items that are keys
   * (an absent consumed item stays absent), then produced amounts are added,
   * creating the key when it is absent.
   */
  function Apply(r: Recipe, s: State): State {
    var c := AfterConsume(r, s);
    var p := Produced(r);
    map k | k in c.Keys + p.Keys :: Held(c, k) + Held(p, k)
  }

  /** The compiled effect, working on a copy of `s`. */
  method Effect(r: Recipe, s: State) returns (next: State)
    ensures next == Apply(r, s)
  {
    next := Copy(s);
    next := TakeOffLoop(r.consumes, next);
    assert next == AfterConsume(r, s);
    if r.produces.Some? {
      next := AddOnLoop(r.produces.value, next);
    }
  }

  /** The first loop of the forward effect: consumed amounts come off the keys present. */
  method TakeOffLoop(cons: Amounts, s: State) returns (next: State)
    ensures next == map k | k in s :: s[k] - Held(cons, k)
  {
    next := s;
    var rest := cons.Keys;
    while rest != {}
      invariant rest <= cons.Keys
      invariant next.Keys == s.Keys
      invariant forall k | k in next ::
        next[k] == if k in cons && k !in rest then s[k] - cons[k] else s[k]
      decreases rest
    {
      var k :| k in rest;
      if k in next {
        next := next[k := next[k] - cons[k]];
      }
      rest := rest - {k};
    }
  }

  /** The second loop of the forward effect: produced amounts are added, creating absent keys. */
  method AddOnLoop(p: Amounts, c: State) returns (next: State)
    ensures next == map k | k in c.Keys + p.Keys :: Held(c, k) + Held(p, k)
  {
    next := c;
    var rest := p.Keys;
    while rest != {}
      invariant rest <= p.Keys
      invariant next.Keys == c.Keys + (p.Keys - rest)
      invariant forall k | k in next ::
        next[k] == if k in p && k !in rest then Held(c, k) + p[k] else c[k]
      decreases rest
    {
      var k :| k in rest;
      if k in next {
        next := next[k := next[k] + p[k]];
      } else {
        next := next[k := p[k]];
      }
      rest := rest - {k};
    }
  }

  /** The residual map after the reverse step has added the consumed amounts back. */
  function AddBack(r: Recipe, d: State): State {
    map k | k in d.Keys + r.consumes.Keys :: Held(d, k) + Held(r.consumes, k)
  }

  /**
   * The reverse step: consumed amounts are added back (creating absent keys),
   * then produced amounts are subtracted; a produced item that is not a key
   * makes the subtraction fail (`None`, a KeyError in the source).
   */
  function RevApply(r: Recipe, d: State): Option<State> {
    var c := AddBack(r, d);
    var p := Produced(r);
    if p.Keys <= c.Keys then Some(map k | k in c :: c[k] - Held(p, k)) else None
  }

  /** The compiled reverse effector, updating the residual map it is given. */
  method RevEffect(r: Recipe, d: State) returns (res: Option<State>)
    ensures res == RevApply(r, d)
  {
    var cur := AddBackLoop(r, d);
    if r.produces.Some? {
      res := TakeBackLoop(r.produces.value, cur);
    } else {
      assert cur == map k | k in cur :: cur[k] - Held(Produced(r), k);
      res := Some(cur);
    }
  }

  /** The first loop of the reverse effector. */
  method AddBackLoop(r: Recipe, d: State) returns (cur: State)
    ensures cur == AddBack(r, d)
  {
    cur := d;
    var rest := r.consumes.Keys;
    while rest != {}
      invariant rest <= r.consumes.Keys
      invariant cur.Keys == d.Keys + (r.consumes.Keys - rest)
      invariant forall k | k in cur ::
        cur[k] == if k in r.consumes && k !in rest then Held(d, k) + r.consumes[k] else d[k]
      decreases rest
    {
      var k :| k in rest;
      if k in cur {
        cur := cur[k := cur[k] + r.consumes[k]];
      } else {
        cur := cur[k := r.consumes[k]];
      }
      rest := rest - {k};
    }
  }

  /** The second loop of the reverse effector: `p` comes off, each key must exist. */
  method TakeBackLoop(p: Amounts, c: State) returns (res: Option<State>)
    ensures res == if p.Keys <= c.Keys then Some(map k | k in c :: c[k] - Held(p, k)) else None
  {
    var cur := c;
    var rest := p.Keys;
    while rest != {}
      invariant rest <= p.Keys
      invariant p.Keys - rest <= c.Keys
      invariant cur.Keys == c.Keys
      invariant forall k | k in cur :: cur[k] == if k in p && k !in rest then c[k] - p[k] else c[k]
      decreases rest
    {
      var k :| k in rest;
      if k !in cur {
        return None;
      }
      cur := cur[k := cur[k] - p[k]];
      rest := rest - {k};
    }
    assert p.Keys <= c.Keys;
    assert cur == map k | k in c :: c[k] - Held(p, k);
    return Some(cur);
  }

  /**
   * Frame of the forward effect: an item the recipe neither consumes nor
   * produces keeps its presence and its quantity.
   */
  lemma ApplyFrame(r: Recipe, s: State, k: Item)
    requires k !in r.consumes && k !in Produced(r)
    ensures k in Apply(r, s) <==> k in s
    ensures k in s ==> Apply(r, s)[k] == s[k]
  {
  }

  /**
   * The per-key effect: a consumed key decreases by its amount, a consumed
   * item that is not a key stays absent unless produced, and a produced item
   * increases by its amount, starting from 0 when absent.
   */
  lemma ApplyAt(r: Recipe, s: State, k: Item)
    ensures k in r.consumes && k in s && k !in Produced(r) ==>
      k in Apply(r, s) && Apply(r, s)[k] == s[k] - r.consumes[k]
    ensures k in r.consumes && k !in s && k !in Produced(r) ==> k !in Apply(r, s)
    ensures k in Produced(r) && k in s ==>
      k in Apply(r, s) && Apply(r, s)[k] == s[k] - Held(r.consumes, k) + Produced(r)[k]
    ensures k in Produced(r) && k !in s ==> k in Apply(r, s) && Apply(r, s)[k] == Produced(r)[k]
  {
  }

  /**
   * A checked effect never drives a quantity below zero, as long as the
   * state was non-negative and the recipe produces non-negative amounts.
   */
  lemma ApplyPreservesNonNegative(r: Recipe, s: State)
    requires NonNegative(s) && Applicable(r, s)
    requires forall k | k in Produced(r) :: Produced(r)[k] >= 0
    ensures NonNegative(Apply(r, s))
  {
  }

  /**
   * The reverse step undoes the forward step, except that a produced item
   * created by the forward step remains as a key holding 0.
   */
  lemma {:induction false} RevApplyUndoesApply(r: Recipe, s: State)
    requires r.consumes.Keys <= s.Keys
    ensures RevApply(r, Apply(r, s)) ==
      Some(s + map k | k in Produced(r).Keys - s.Keys :: 0)
  {
    var a := Apply(r, s);
    var p := Produced(r);
    var c := AddBack(r, a);
    assert c.Keys == a.Keys;
    var back := map k | k in c :: c[k] - Held(p, k);
    var padded := s + map k | k in p.Keys - s.Keys :: 0;
    assert back.Keys == padded.Keys;
    forall k | k in back
      ensures back[k] == padded[k]
    {
      if k in s {
        assert Held(AfterConsume(r, s), k) == s[k] - Held(r.consumes, k);
      }
    }
    assert back == padded;
  }

  /** With every consumed and produced item already a key, the round trip is exact. */
  lemma RevApplyRestores(r: Recipe, s: State)
    requires r.consumes.Keys <= s.Keys && Produced(r).Keys <= s.Keys
    ensures RevApply(r, Apply(r, s)) == Some(s)
  {
    RevApplyUndoesApply(r, s);
    assert (s + map k | k in Produced(r).Keys - s.Keys :: 0) == s;
  }
}
