/**
 * The heuristic estimator: a goal test, a pruning rule for duplicated
 * singleton tools and stations, and a relaxed reverse-production loop that
 * repeatedly resolves every positive residual demand with its fastest
 * producer until no demand is positive.
 */
module Heuristics {
  import opened Wrappers
  import opened Inventory
  import opened Recipes
  import opened Goals

  /** The rule set the planner runs on: item list, goal and recipes, all in declaration order. */
  datatype Crafting = Crafting(items: seq<Item>, goal: GoalList, recipes: seq<Recipe>)

  /** A heuristic value: a finite sum of recipe times, or infinity. */
  datatype Estimate = Finite(cost: nat) | Infinite

  /** The ways the source's heuristic raises instead of returning a number. */
  datatype HeurError =
    | MissingProduces(recipe: string)  // the producer scan reads a recipe without a Produces field
    | DivisionByZero(item: Item)       // the chosen producer makes 0 of the item, or there is none
    | UnknownProduct(recipe: string)   // the reverse step subtracts a product that is not a key
    | ResizedDuringPass                // a key was added before the pass reached its last key
    | OutOfFuel                        // the relaxation did not settle within the pass budget

  /** Tools and stations of which a second copy is never useful. */
  const Singletons: seq<Item> := ["bench", "furnace", "iron_axe", "iron_pickaxe",
                                  "stone_axe", "stone_pickaxe", "wooden_axe", "wooden_pickaxe"]

  /** Some singleton from index `i` on is held at least twice. */
  predicate DuplicateFrom(s: State, i: nat): (b: bool)
    requires i <= |Singletons|
    ensures b <==> exists j | i <= j < |Singletons| :: Singletons[j] in s && s[Singletons[j]] >= 2
    decreases |Singletons| - i
  {
    i < |Singletons| &&
    ((Singletons[i] in s && s[Singletons[i]] >= 2) || DuplicateFrom(s, i + 1))
  }

  predicate HoldsDuplicate(s: State) {
    DuplicateFrom(s, 0)
  }

  /** The bare pruning rule: infinity on a duplicated singleton, 0 otherwise. */
  function Heur(s: State): (e: Estimate)
    ensures e == Infinite <==> exists j | 0 <= j < |Singletons| :: Singletons[j] in s && s[Singletons[j]] >= 2
    ensures e != Infinite ==> e == Finite(0)
  {
    if HoldsDuplicate(s) then Infinite else Finite(0)
  }

  // ---------------------------------------------------------------------------
  // Residual demand

  /**
   * The target of the relaxation: every declared item at 0, then the goal
   * amounts on top of it.
   */
  function GoalState(c: Crafting): State {
    var g := ToMap(c.goal);
    map k | k in (set x | x in c.items) + g.Keys :: Held(g, k)
  }

  /** The iteration order of the target map: declared items first, then new goal items. */
  function DiffKeys(c: Crafting): seq<Item> {
    Dedup(c.items + Names(c.goal))
  }

  /** The key order lists every key of the target map exactly once. */
  lemma DiffKeysEnumerate(c: Crafting)
    ensures forall k :: k in DiffKeys(c) <==> k in GoalState(c)
    ensures forall i, j | 0 <= i < j < |DiffKeys(c)| :: DiffKeys(c)[i] != DiffKeys(c)[j]
  {
    ToMapKeys(c.goal);
  }

  /**
   * Residual demand: each target amount minus the holding, subtracted only
   * for target keys that are present in the current state.
   */
  function Missing(current: State, target: State): State {
    map k | k in target :: target[k] - Held(current, k)
  }

  /** The compiled residual computation, updating the target map in place. */
  method GetMissing(current: State, target: State) returns (r: State)
    ensures r == Missing(current, target)
  {
    r := target;
    var rest := target.Keys;
    while rest != {}
      invariant rest <= target.Keys
      invariant r.Keys == target.Keys
      invariant forall k | k in r :: r[k] == if k in rest then target[k] else target[k] - Held(current, k)
      decreases rest
    {
      var k :| k in rest;
      if k in current {
        r := r[k := r[k] - current[k]];
      }
      rest := rest - {k};
    }
  }

  // ---------------------------------------------------------------------------
  // The fastest producer

  /** A chosen producer and the amount of the item it makes per application. */
  datatype Producer = Producer(recipe: Recipe, amount: int)

  /** The producer scan from recipe `i` on, with `best` the running minimum so far. */
  function FastestFrom(rs: seq<Recipe>, item: Item, i: nat, best: Option<Producer>): Result<Option<Producer>, HeurError>
    requires i <= |rs|
    decreases |rs| - i
  {
    if i == |rs| then Ok(best)
    else if rs[i].produces.None? then Err(MissingProduces(rs[i].name))
    else
      var p := rs[i].produces.value;
      var next := if item in p && (best.None? || rs[i].time < best.value.recipe.time)
                  then Some(Producer(rs[i], p[item])) else best;
      FastestFrom(rs, item, i + 1, next)
  }

  /** The minimum-time producer of `item`, the first one on ties. */
  function Fastest(rs: seq<Recipe>, item: Item): Result<Option<Producer>, HeurError> {
    FastestFrom(rs, item, 0, None)
  }

  /** The compiled producer scan with its running minimum. */
  method FastestRule(rs: seq<Recipe>, item: Item) returns (res: Result<Option<Producer>, HeurError>)
    ensures res == Fastest(rs, item)
  {
    var best: Option<Producer> := None;
    for i := 0 to |rs|
      invariant FastestFrom(rs, item, i, best) == Fastest(rs, item)
    {
      if rs[i].produces.None? {
        return Err(MissingProduces(rs[i].name));
      }
      var p := rs[i].produces.value;
      if item in p && (best.None? || rs[i].time < best.value.recipe.time) {
        best := Some(Producer(rs[i], p[item]));
      }
    }
    return Ok(best);
  }

  /**
   * `p` is the producer the scan of the first `n` recipes settles on: the
   * first-declared recipe among those that produce `item` with minimal time.
   */
  ghost predicate FirstFastest(rs: seq<Recipe>, item: Item, n: nat, p: Producer)
    requires n <= |rs|
  {
    exists j | 0 <= j < n ::
      && rs[j] == p.recipe && Produces(rs[j], item) && p.amount == rs[j].produces.value[item]
      && (forall i | 0 <= i < n && Produces(rs[i], item) :: rs[i].time >= p.recipe.time)
      && (forall i | 0 <= i < j && Produces(rs[i], item) :: rs[i].time > p.recipe.time)
  }

  /** What the scan knows after the first `n` recipes. */
  ghost predicate ScannedSoFar(rs: seq<Recipe>, item: Item, n: nat, best: Option<Producer>)
    requires n <= |rs|
  {
    && (forall i | 0 <= i < n :: rs[i].produces.Some?)
    && (best.None? <==> forall i | 0 <= i < n :: !Produces(rs[i], item))
    && (best.Some? ==> FirstFastest(rs, item, n, best.value))
  }

  /** One more recipe scanned: the running minimum stays the first fastest producer. */
  lemma ScanStep(rs: seq<Recipe>, item: Item, n: nat, best: Option<Producer>)
    requires n < |rs| && rs[n].produces.Some? && ScannedSoFar(rs, item, n, best)
    ensures var p := rs[n].produces.value;
      ScannedSoFar(rs, item, n + 1,
        if item in p && (best.None? || rs[n].time < best.value.recipe.time)
        then Some(Producer(rs[n], p[item])) else best)
  {
    var p := rs[n].produces.value;
    if item in p && (best.None? || rs[n].time < best.value.recipe.time) {
      var q := Producer(rs[n], p[item]);
      if best.Some? {
        var j :| 0 <= j < n && rs[j] == best.value.recipe && Produces(rs[j], item)
                 && (forall i | 0 <= i < n && Produces(rs[i], item) :: rs[i].time >= best.value.recipe.time);
      }
      assert FirstFastest(rs, item, n + 1, q) by {
        assert rs[n] == q.recipe && Produces(rs[n], item);
      }
    } else if best.Some? {
      var j :| 0 <= j < n && rs[j] == best.value.recipe && Produces(rs[j], item)
               && best.value.amount == rs[j].produces.value[item]
               && (forall i | 0 <= i < n && Produces(rs[i], item) :: rs[i].time >= best.value.recipe.time)
               && (forall i | 0 <= i < j && Produces(rs[i], item) :: rs[i].time > best.value.recipe.time);
      assert FirstFastest(rs, item, n + 1, best.value);
    }
  }

  lemma {:induction false} FastestFromSpec(rs: seq<Recipe>, item: Item, n: nat, best: Option<Producer>)
    requires n <= |rs| && ScannedSoFar(rs, item, n, best)
    ensures FastestFrom(rs, item, n, best).Ok? <==> forall i | 0 <= i < |rs| :: rs[i].produces.Some?
    ensures FastestFrom(rs, item, n, best).Ok? ==>
      ScannedSoFar(rs, item, |rs|, FastestFrom(rs, item, n, best).value)
    ensures FastestFrom(rs, item, n, best).Err? ==>
      exists j | n <= j < |rs| :: rs[j].produces.None? && (forall i | 0 <= i < j :: rs[i].produces.Some?)
        && FastestFrom(rs, item, n, best).error == MissingProduces(rs[j].name)
    decreases |rs| - n
  {
    if n < |rs| && rs[n].produces.Some? {
      var p := rs[n].produces.value;
      var next := if item in p && (best.None? || rs[n].time < best.value.recipe.time)
                  then Some(Producer(rs[n], p[item])) else best;
      ScanStep(rs, item, n, best);
      assert FastestFrom(rs, item, n, best) == FastestFrom(rs, item, n + 1, next);
      FastestFromSpec(rs, item, n + 1, next);
    }
  }

  /**
   * The producer scan fails on the first recipe without a Produces field;
   * otherwise it finds no producer exactly when no recipe produces the item,
   * and else the minimum-time producer, the first-declared one on ties.
   */
  lemma FastestIsFirstMinimum(rs: seq<Recipe>, item: Item)
    ensures Fastest(rs, item).Ok? <==> forall i | 0 <= i < |rs| :: rs[i].produces.Some?
    ensures Fastest(rs, item).Err? ==>
      exists j | 0 <= j < |rs| :: rs[j].produces.None? && (forall i | 0 <= i < j :: rs[i].produces.Some?)
        && Fastest(rs, item).error == MissingProduces(rs[j].name)
    ensures Fastest(rs, item).Ok? ==>
      (Fastest(rs, item).value.None? <==> forall i | 0 <= i < |rs| :: !Produces(rs[i], item))
    ensures Fastest(rs, item).Ok? && Fastest(rs, item).value.Some? ==>
      FirstFastest(rs, item, |rs|, Fastest(rs, item).value.value)
  {
    FastestFromSpec(rs, item, 0, None);
  }

  // ---------------------------------------------------------------------------
  // Resolving one demand

  /**
   * How many applications cover a demand `v` at `p` per application: the
   * ceiling of v / p, and none at all when p is negative.
   */
  function Applications(v: int, p: int): (n: nat)
    requires v > 0 && p != 0
    ensures p > 0 ==> n * p >= v && (n - 1) * p < v
    ensures p < 0 ==> n == 0
  {
    if p > 0 then
      var n := (v + p - 1) / p;
      assert v + p - 1 == n * p + (v + p - 1) % p;
      n
    else 0
  }

  /** `n` reverse steps of `r` in a row; `None` as soon as one fails. */
  function RevApplyTimes(r: Recipe, n: nat, d: State): Option<State>
    decreases n
  {
    if n == 0 then Some(d)
    else match RevApply(r, d)
      case None => None
      case Some(d1) => RevApplyTimes(r, n - 1, d1)
  }

  /** The outcome of resolving one positive demand. */
  datatype Resolution = Resolution(demand: State, applications: nat, recipe: Recipe)

  /**
   * Resolving demand `v` for `k`: pick the fastest producer and fold its
   * reverse step into the residual map as many times as it takes to cover `v`.
   */
  function Resolve(rs: seq<Recipe>, k: Item, v: int, d: State): Result<Resolution, HeurError>
    requires v > 0
  {
    match Fastest(rs, k)
    case Err(e) => Err(e)
    case Ok(None) => Err(DivisionByZero(k))
    case Ok(Some(p)) =>
      if p.amount == 0 then Err(DivisionByZero(k))
      else
        var n := Applications(v, p.amount);
        match RevApplyTimes(p.recipe, n, d)
        case None => Err(UnknownProduct(p.recipe.name))
        case Some(d1) => Ok(Resolution(d1, n, p.recipe))
  }

  /**
   * The compiled resolution; `added` is the time accumulated by the
   * application loop, one recipe time per reverse step.
   */
  method ResolveDemand(rs: seq<Recipe>, k: Item, v: int, d: State) returns (res: Result<Resolution, HeurError>, added: nat)
    requires v > 0
    ensures res == Resolve(rs, k, v, d)
    ensures res.Ok? ==> added == res.value.applications * res.value.recipe.time
  {
    added := 0;
    var found := FastestRule(rs, k);
    if found.Err? {
      return Err(found.error), added;
    }
    if found.value.None? {
      return Err(DivisionByZero(k)), added;
    }
    var p := found.value.value;
    if p.amount == 0 {
      return Err(DivisionByZero(k)), added;
    }
    var n := Applications(v, p.amount);
    var cur := d;
    var i := 0;
    while i < n
      invariant 0 <= i <= n
      invariant RevApplyTimes(p.recipe, n, d) == RevApplyTimes(p.recipe, n - i, cur)
      invariant added == i * p.recipe.time
    {
      var step := RevEffect(p.recipe, cur);
      if step.None? {
        return Err(UnknownProduct(p.recipe.name)), added;
      }
      cur := step.value;
      added := added + p.recipe.time;
      i := i + 1;
    }
    return Ok(Resolution(cur, n, p.recipe)), added;
  }

  /** One reverse step shifts an item by its consumed amount minus its produced amount. */
  lemma RevApplyShift(r: Recipe, d: State, x: Item)
    requires RevApply(r, d).Some?
    ensures Held(RevApply(r, d).value, x) == Held(d, x) + Held(r.consumes, x) - Held(Produced(r), x)
  {
    var c := AddBack(r, d);
    if x !in c {
      assert x !in Produced(r);
    }
  }

  /** One more step of a constant shift, in plain arithmetic. */
  lemma ShiftSucc(x0: int, x1: int, x2: int, a: int, b: int, m: nat)
    requires x1 == x0 + a - b && x2 == x1 + m * a - m * b
    ensures x2 == x0 + (m + 1) * a - (m + 1) * b
  {
    assert (m + 1) * a == m * a + a;
    assert (m + 1) * b == m * b + b;
  }

  /**
   * Each reverse step adds the consumed amounts back and takes the produced
   * amounts off, so `n` steps shift every item by n times that difference.
   */
  lemma {:induction false} RevApplyTimesShift(r: Recipe, n: nat, d: State, x: Item)
    requires RevApplyTimes(r, n, d).Some?
    ensures Held(RevApplyTimes(r, n, d).value, x) == Held(d, x) + n * Held(r.consumes, x) - n * Held(Produced(r), x)
    decreases n
  {
    if n > 0 {
      var d1 := RevApply(r, d).value;
      var fin := RevApplyTimes(r, n - 1, d1).value;
      RevApplyShift(r, d, x);
      RevApplyTimesShift(r, n - 1, d1, x);
      ShiftSucc(Held(d, x), Held(d1, x), Held(fin, x), Held(r.consumes, x), Held(Produced(r), x), n - 1);
    }
  }

  /** Reverse steps only add keys: the consumed items, as soon as one step is taken. */
  lemma {:induction false} RevApplyTimesKeys(r: Recipe, n: nat, d: State)
    requires RevApplyTimes(r, n, d).Some?
    ensures RevApplyTimes(r, n, d).value.Keys == if n == 0 then d.Keys else d.Keys + r.consumes.Keys
    decreases n
  {
    if n > 0 {
      var d1 := RevApply(r, d).value;
      assert d1.Keys == d.Keys + r.consumes.Keys;
      RevApplyTimesKeys(r, n - 1, d1);
    }
  }

  /**
   * A resolution uses the fastest producer of `k`, applies it just enough
   * times to cover the demand, and leaves no positive demand for `k` unless
   * the producer itself consumes `k`.
   */
  lemma ResolveCoversDemand(rs: seq<Recipe>, k: Item, d: State)
    requires Held(d, k) > 0 && Resolve(rs, k, Held(d, k), d).Ok?
    ensures var res := Resolve(rs, k, Held(d, k), d).value;
      && Fastest(rs, k).Ok? && Fastest(rs, k).value.Some?
      && res.recipe == Fastest(rs, k).value.value.recipe
      && Produces(res.recipe, k)
      && var p := Produced(res.recipe)[k];
         (p > 0 ==> res.applications * p >= Held(d, k) && (res.applications - 1) * p < Held(d, k))
         && Held(res.demand, k) == Held(d, k) + res.applications * Held(res.recipe.consumes, k) - res.applications * p
         && (k !in res.recipe.consumes && p > 0 ==> Held(res.demand, k) <= 0)
  {
    var res := Resolve(rs, k, Held(d, k), d).value;
    FastestIsFirstMinimum(rs, k);
    var q := Fastest(rs, k).value.value;
    var j :| 0 <= j < |rs| && rs[j] == q.recipe && Produces(rs[j], k) && q.amount == rs[j].produces.value[k];
    RevApplyTimesShift(res.recipe, res.applications, d, k);
  }

  // ---------------------------------------------------------------------------
  // Relaxation passes

  /** The state after one pass: residual map, its key order, accumulated time, whether any demand was positive. */
  datatype PassOutcome = PassOutcome(demand: State, keys: seq<Item>, cost: nat, progressed: bool)

  /**
   * The keys a resolution inserted into the residual map, in the order of
   * their insertion: the items of `order` (the consumed items of the recipe,
   * first occurrences in declaration order) that are keys of `after` and not
   * of `before`.
   */
  function Inserted(order: seq<Item>, before: State, after: State): (r: seq<Item>)
    ensures forall k :: k in r <==> k in order && k in after && k !in before
  {
    if order == [] then []
    else
      var init := order[..|order| - 1];
      var last := order[|order| - 1];
      var front := Inserted(init, before, after);
      if last in after && last !in before && last !in init then front + [last] else front
  }

  /** The inserted keys follow the declared order of the consumed items, each once. */
  lemma {:induction false} InsertedInOrder(order: seq<Item>, before: State, after: State)
    ensures forall i, j | 0 <= i < j < |Inserted(order, before, after)| ::
      IndexOf(order, Inserted(order, before, after)[i]) < IndexOf(order, Inserted(order, before, after)[j])
  {
    if order != [] {
      var init := order[..|order| - 1];
      var last := order[|order| - 1];
      var front := Inserted(init, before, after);
      InsertedInOrder(init, before, after);
      forall i | 0 <= i < |front| ensures front[i] in order && IndexOf(order, front[i]) == IndexOf(init, front[i]) {
        assert init[IndexOf(init, front[i])] == order[IndexOf(init, front[i])];
        IndexOfInit(order, front[i]);
      }
      assert last !in init ==> IndexOf(order, last) == |order| - 1;
    }
  }

  /**
   * One pass over the keys from index `i` on. Each value is read when its key
   * is reached, so earlier resolutions in the same pass are seen. A reverse
   * step may only add keys. The dictionary iteration rejects an added key at
   * its next step, which is only taken when a key remains; after the last
   * key the pass ends, and the added keys join the key order, to be visited
   * by the next pass.
   */
  function PassFrom(rs: seq<Recipe>, keys: seq<Item>, i: nat, d: State, h: nat, progressed: bool): Result<PassOutcome, HeurError>
    requires i <= |keys|
    decreases |keys| - i
  {
    if i == |keys| then Ok(PassOutcome(d, keys, h, progressed))
    else
      var v := Held(d, keys[i]);
      if v <= 0 then PassFrom(rs, keys, i + 1, d, h, progressed)
      else match Resolve(rs, keys[i], v, d)
        case Err(e) => Err(e)
        case Ok(res) =>
          var h' := h + res.applications * res.recipe.time;
          if res.demand.Keys == d.Keys then PassFrom(rs, keys, i + 1, res.demand, h', true)
          else if i + 1 < |keys| then Err(ResizedDuringPass)
          else Ok(PassOutcome(res.demand, keys + Inserted(res.recipe.consumeOrder, d, res.demand), h', true))
  }

  /** Passes until one finds no positive demand, within `fuel` passes. */
  function Relax(rs: seq<Recipe>, keys: seq<Item>, fuel: nat, d: State, h: nat): Result<nat, HeurError>
    decreases fuel
  {
    if fuel == 0 then Err(OutOfFuel)
    else match PassFrom(rs, keys, 0, d, h, false)
      case Err(e) => Err(e)
      case Ok(out) => if !out.progressed then Ok(out.cost) else Relax(rs, out.keys, fuel - 1, out.demand, out.cost)
  }

  /**
   * The heuristic: 0 on a goal state (checked first), infinity on a state
   * holding a duplicated singleton, otherwise the time the relaxation adds up.
   */
  function HeuristicValue(c: Crafting, s: State, fuel: nat): Result<Estimate, HeurError> {
    if GoalMet(ToMap(c.goal), s) then Ok(Finite(0))
    else if HoldsDuplicate(s) then Ok(Infinite)
    else match Relax(c.recipes, DiffKeys(c), fuel, Missing(s, GoalState(c)), 0)
      case Err(e) => Err(e)
      case Ok(h) => Ok(Finite(h))
  }

  /**
   * One compiled pass of the relaxation loop. A resolution at the last key
   * that adds keys ends the pass there, as the dictionary iteration does.
   */
  method RunPass(rs: seq<Recipe>, keys: seq<Item>, d: State, h: nat) returns (res: Result<PassOutcome, HeurError>)
    ensures res == PassFrom(rs, keys, 0, d, h, false)
  {
    var cur, acc, progressed := d, h, false;
    for i := 0 to |keys|
      invariant PassFrom(rs, keys, 0, d, h, false) == PassFrom(rs, keys, i, cur, acc, progressed)
    {
      var v := Held(cur, keys[i]);
      if v > 0 {
        progressed := true;
        var r, added := ResolveDemand(rs, keys[i], v, cur);
        if r.Err? {
          return Err(r.error);
        }
        if r.value.demand.Keys != cur.Keys {
          if i + 1 < |keys| {
            return Err(ResizedDuringPass);
          }
          var grown := keys + Inserted(r.value.recipe.consumeOrder, cur, r.value.demand);
          return Ok(PassOutcome(r.value.demand, grown, acc + added, true));
        }
        cur, acc := r.value.demand, acc + added;
      }
    }
    return Ok(PassOutcome(cur, keys, acc, progressed));
  }

  /** The compiled relaxation loop, bounded by `fuel` passes; the key order grows between passes. */
  method RelaxLoop(rs: seq<Recipe>, keys: seq<Item>, fuel: nat, d0: State) returns (res: Result<nat, HeurError>)
    ensures res == Relax(rs, keys, fuel, d0, 0)
  {
    var d, order, h, f := d0, keys, 0, fuel;
    while true
      invariant Relax(rs, keys, fuel, d0, 0) == Relax(rs, order, f, d, h)
      decreases f
    {
      if f == 0 {
        return Err(OutOfFuel);
      }
      var pass := RunPass(rs, order, d, h);
      if pass.Err? {
        return Err(pass.error);
      }
      if !pass.value.progressed {
        return Ok(pass.value.cost);
      }
      d, order, h, f := pass.value.demand, pass.value.keys, pass.value.cost, f - 1;
    }
  }

  /** The compiled heuristic. */
  method Heuristic(c: Crafting, s: State, fuel: nat) returns (res: Result<Estimate, HeurError>)
    ensures res == HeuristicValue(c, s, fuel)
  {
    var atGoal := IsGoal(ToMap(c.goal), s);
    if atGoal {
      return Ok(Finite(0));
    }
    if HoldsDuplicate(s) {
      return Ok(Infinite);
    }
    var d := GetMissing(s, GoalState(c));
    var h := RelaxLoop(c.recipes, DiffKeys(c), fuel, d);
    if h.Err? {
      return Err(h.error);
    }
    return Ok(Finite(h.value));
  }

  // ---------------------------------------------------------------------------
  // Properties of the heuristic

  /** The goal test comes first: a goal state scores 0 even when it holds a duplicated singleton. */
  lemma HeuristicAtGoal(c: Crafting, s: State, fuel: nat)
    requires GoalMet(ToMap(c.goal), s)
    ensures HeuristicValue(c, s, fuel) == Ok(Finite(0))
  {
  }

  /** Infinity is returned exactly on non-goal states holding two or more of some singleton. */
  lemma HeuristicInfiniteIffDuplicate(c: Crafting, s: State, fuel: nat)
    ensures HeuristicValue(c, s, fuel) == Ok(Infinite) <==>
      !GoalMet(ToMap(c.goal), s) &&
      exists j | 0 <= j < |Singletons| :: Singletons[j] in s && s[Singletons[j]] >= 2
  {
  }

  /** A pass only adds time, and once a pass has seen a positive demand it stays recorded. */
  lemma {:induction false} PassFromGrows(rs: seq<Recipe>, keys: seq<Item>, i: nat, d: State, h: nat, progressed: bool)
    requires i <= |keys| && PassFrom(rs, keys, i, d, h, progressed).Ok?
    ensures PassFrom(rs, keys, i, d, h, progressed).value.cost >= h
    ensures progressed ==> PassFrom(rs, keys, i, d, h, progressed).value.progressed
    decreases |keys| - i
  {
    if i < |keys| {
      var v := Held(d, keys[i]);
      if v <= 0 {
        PassFromGrows(rs, keys, i + 1, d, h, progressed);
      } else {
        var res := Resolve(rs, keys[i], v, d).value;
        if res.demand.Keys == d.Keys {
          PassFromGrows(rs, keys, i + 1, res.demand, h + res.applications * res.recipe.time, true);
        }
      }
    }
  }

  /**
   * A pass that meets no positive demand changes nothing, and a pass that
   * reports no progress met only non-positive demands.
   */
  lemma {:induction false} PassFromIdle(rs: seq<Recipe>, keys: seq<Item>, i: nat, d: State, h: nat, progressed: bool)
    requires i <= |keys|
    ensures (forall j | i <= j < |keys| :: Held(d, keys[j]) <= 0) ==>
      PassFrom(rs, keys, i, d, h, progressed) == Ok(PassOutcome(d, keys, h, progressed))
    ensures PassFrom(rs, keys, i, d, h, progressed).Ok? && !PassFrom(rs, keys, i, d, h, progressed).value.progressed ==>
      forall j | i <= j < |keys| :: Held(d, keys[j]) <= 0
    decreases |keys| - i
  {
    if i < |keys| {
      var v := Held(d, keys[i]);
      if v <= 0 {
        PassFromIdle(rs, keys, i + 1, d, h, progressed);
      } else if Resolve(rs, keys[i], v, d).Ok? {
        var res := Resolve(rs, keys[i], v, d).value;
        if res.demand.Keys == d.Keys && PassFrom(rs, keys, i + 1, res.demand, h + res.applications * res.recipe.time, true).Ok? {
          PassFromGrows(rs, keys, i + 1, res.demand, h + res.applications * res.recipe.time, true);
        }
      }
    }
  }

  /** With positive times and non-negative yields, resolving a positive demand costs time. */
  lemma {:induction false} PassFromAddsTime(rs: seq<Recipe>, keys: seq<Item>, i: nat, d: State, h: nat)
    requires i <= |keys| && PositiveTimes(rs) && NonNegativeYields(rs)
    requires PassFrom(rs, keys, i, d, h, false).Ok? && PassFrom(rs, keys, i, d, h, false).value.progressed
    ensures PassFrom(rs, keys, i, d, h, false).value.cost > h
    decreases |keys| - i
  {
    var v := Held(d, keys[i]);
    if v <= 0 {
      PassFromAddsTime(rs, keys, i + 1, d, h);
    } else {
      var res := Resolve(rs, keys[i], v, d).value;
      FastestIsFirstMinimum(rs, keys[i]);
      var q := Fastest(rs, keys[i]).value.value;
      var j :| 0 <= j < |rs| && rs[j] == q.recipe && Produces(rs[j], keys[i]) && q.amount == rs[j].produces.value[keys[i]];
      assert q.amount == Produced(rs[j])[keys[i]] >= 0;
      assert res.applications >= 1;
      assert res.applications * res.recipe.time >= 1;
      if res.demand.Keys == d.Keys {
        PassFromGrows(rs, keys, i + 1, res.demand, h + res.applications * res.recipe.time, true);
      }
    }
  }

  /** `keys` lists every key of `d` exactly once, and nothing else. */
  ghost predicate Enumerates(keys: seq<Item>, d: State) {
    && (forall k :: k in keys <==> k in d)
    && (forall i, j | 0 <= i < j < |keys| :: keys[i] != keys[j])
  }

  /** Appending the inserted keys to an enumeration of `d` enumerates the grown map `d'`. */
  lemma AppendInsertedEnumerates(keys: seq<Item>, d: State, d': State, order: seq<Item>)
    requires Enumerates(keys, d) && d.Keys <= d'.Keys && forall k | k in d' && k !in d :: k in order
    requires forall i, j | 0 <= i < j < |Inserted(order, d, d')| ::
      IndexOf(order, Inserted(order, d, d')[i]) < IndexOf(order, Inserted(order, d, d')[j])
    ensures Enumerates(keys + Inserted(order, d, d'), d')
  {
    var ins := Inserted(order, d, d');
    var all := keys + ins;
    forall a, b | 0 <= a < b < |all| ensures all[a] != all[b] {
      if b < |keys| {
        assert all[a] == keys[a] && all[b] == keys[b];
      } else if a >= |keys| {
        assert all[a] == ins[a - |keys|] && all[b] == ins[b - |keys|];
      } else {
        assert all[a] == keys[a] && all[b] == ins[b - |keys|];
        assert all[a] in d && all[b] !in d;
      }
    }
  }

  /**
   * The key order a pass hands on to the next one still lists each key of
   * the residual map exactly once: the keys a resolution at the last key
   * inserts are appended, in the declared order of the recipe's Consumes field.
   */
  lemma PassKeysEnumerate(rs: seq<Recipe>, keys: seq<Item>, d: State, h: nat)
    requires OrderCoversConsumes(rs) && Enumerates(keys, d)
    requires PassFrom(rs, keys, 0, d, h, false).Ok?
    ensures Enumerates(PassFrom(rs, keys, 0, d, h, false).value.keys, PassFrom(rs, keys, 0, d, h, false).value.demand)
  {
    var out := PassFrom(rs, keys, 0, d, h, false).value;
    PassFromKeys(rs, keys, 0, d, h, false);
    if out.keys != keys || out.demand.Keys != d.Keys {
      var j :| 0 <= j < |rs| && out.keys == keys + Inserted(rs[j].consumeOrder, d, out.demand)
               && out.demand.Keys == d.Keys + rs[j].consumes.Keys;
      assert rs[j] in rs;
      InsertedInOrder(rs[j].consumeOrder, d, out.demand);
      AppendInsertedEnumerates(keys, d, out.demand, rs[j].consumeOrder);
    }
  }

  /**
   * A pass keeps the key set and the key order, unless its last key's
   * resolution by some recipe `rs[j]` inserted that recipe's consumed items,
   * which are then appended to the key order.
   */
  lemma {:induction false} PassFromKeys(rs: seq<Recipe>, keys: seq<Item>, i: nat, d: State, h: nat, progressed: bool)
    requires i <= |keys| && PassFrom(rs, keys, i, d, h, progressed).Ok?
    ensures var out := PassFrom(rs, keys, i, d, h, progressed).value;
      || (out.keys == keys && out.demand.Keys == d.Keys)
      || exists j | 0 <= j < |rs| :: out.keys == keys + Inserted(rs[j].consumeOrder, d, out.demand)
           && out.demand.Keys == d.Keys + rs[j].consumes.Keys
    decreases |keys| - i
  {
    if i < |keys| {
      var v := Held(d, keys[i]);
      if v <= 0 {
        PassFromKeys(rs, keys, i + 1, d, h, progressed);
      } else {
        PassFromResolves(rs, keys, i, d, h, progressed);
        var res := Resolve(rs, keys[i], v, d).value;
        var h' := h + res.applications * res.recipe.time;
        if res.demand.Keys == d.Keys {
          PassFromKeys(rs, keys, i + 1, res.demand, h', true);
          var out := PassFrom(rs, keys, i + 1, res.demand, h', true).value;
          if out.keys != keys || out.demand.Keys != res.demand.Keys {
            var j :| 0 <= j < |rs| && out.keys == keys + Inserted(rs[j].consumeOrder, res.demand, out.demand)
                     && out.demand.Keys == res.demand.Keys + rs[j].consumes.Keys;
            InsertedSameKeys(rs[j].consumeOrder, res.demand, d, out.demand);
          }
        } else {
          FastestIsFirstMinimum(rs, keys[i]);
          var q := Fastest(rs, keys[i]).value.value;
          var j :| 0 <= j < |rs| && rs[j] == q.recipe;
          RevApplyTimesKeys(res.recipe, res.applications, d);
        }
      }
    }
  }

  /** Only the key set of `before` matters to which keys count as inserted. */
  lemma {:induction false} InsertedSameKeys(order: seq<Item>, before: State, before': State, after: State)
    requires before.Keys == before'.Keys
    ensures Inserted(order, before, after) == Inserted(order, before', after)
  {
    if order != [] {
      InsertedSameKeys(order[..|order| - 1], before, before', after);
    }
  }

  /** A successful pass at a key with positive demand: the resolution succeeds, and the pass goes on or ends there. */
  lemma PassFromResolves(rs: seq<Recipe>, keys: seq<Item>, i: nat, d: State, h: nat, progressed: bool)
    requires i < |keys| && Held(d, keys[i]) > 0 && PassFrom(rs, keys, i, d, h, progressed).Ok?
    ensures Resolve(rs, keys[i], Held(d, keys[i]), d).Ok?
    ensures var res := Resolve(rs, keys[i], Held(d, keys[i]), d).value;
      var h' := h + res.applications * res.recipe.time;
      if res.demand.Keys == d.Keys then
        PassFrom(rs, keys, i, d, h, progressed) == PassFrom(rs, keys, i + 1, res.demand, h', true)
      else
        i + 1 == |keys| &&
        PassFrom(rs, keys, i, d, h, progressed).value ==
          PassOutcome(res.demand, keys + Inserted(res.recipe.consumeOrder, d, res.demand), h', true)
  {
  }

  /** The relaxation only adds time to what it starts from. */
  lemma {:induction false} RelaxGrows(rs: seq<Recipe>, keys: seq<Item>, fuel: nat, d: State, h: nat)
    requires Relax(rs, keys, fuel, d, h).Ok?
    ensures Relax(rs, keys, fuel, d, h).value >= h
    decreases fuel
  {
    PassFromGrows(rs, keys, 0, d, h, false);
    var out := PassFrom(rs, keys, 0, d, h, false).value;
    if out.progressed {
      RelaxGrows(rs, out.keys, fuel - 1, out.demand, out.cost);
    }
  }

  /** A relaxation from zero ends at 0 exactly when no listed key starts with positive demand. */
  lemma RelaxZeroIffIdle(rs: seq<Recipe>, keys: seq<Item>, fuel: nat, d: State)
    requires PositiveTimes(rs) && NonNegativeYields(rs)
    requires Relax(rs, keys, fuel, d, 0).Ok?
    ensures Relax(rs, keys, fuel, d, 0).value == 0 <==> forall j | 0 <= j < |keys| :: Held(d, keys[j]) <= 0
  {
    var out := PassFrom(rs, keys, 0, d, 0, false).value;
    PassFromIdle(rs, keys, 0, d, 0, false);
    if out.progressed {
      PassFromAddsTime(rs, keys, 0, d, 0);
      RelaxGrows(rs, out.keys, fuel - 1, out.demand, out.cost);
    }
  }

  /**
   * Away from the goal and from duplicated singletons, a finite heuristic is
   * 0 exactly when no item has positive residual demand; otherwise it is a
   * positive sum of recipe times.
   */
  lemma HeuristicZeroIffNoDemand(c: Crafting, s: State, fuel: nat)
    requires PositiveTimes(c.recipes) && NonNegativeYields(c.recipes)
    requires !GoalMet(ToMap(c.goal), s) && !HoldsDuplicate(s)
    requires HeuristicValue(c, s, fuel).Ok?
    ensures HeuristicValue(c, s, fuel) == Ok(Finite(0)) <==>
      forall k | k in GoalState(c) :: Missing(s, GoalState(c))[k] <= 0
  {
    var d := Missing(s, GoalState(c));
    var keys := DiffKeys(c);
    assert HeuristicValue(c, s, fuel) == Ok(Finite(Relax(c.recipes, keys, fuel, d, 0).value));
    RelaxZeroIffIdle(c.recipes, keys, fuel, d);
    DiffKeysEnumerate(c);
    assert (forall j | 0 <= j < |keys| :: Held(d, keys[j]) <= 0) <==> (forall k | k in d :: d[k] <= 0) by {
      if forall j | 0 <= j < |keys| :: Held(d, keys[j]) <= 0 {
        forall k | k in d ensures d[k] <= 0 {
          var j :| 0 <= j < |keys| && keys[j] == k;
        }
      }
      if forall k | k in d :: d[k] <= 0 {
        forall j | 0 <= j < |keys| ensures Held(d, keys[j]) <= 0 {
          assert keys[j] in keys;
        }
      }
    }
  }

  /** With no producer of `k` among the recipes, resolving any demand for it divides by zero. */
  lemma {:induction false} NoProducerFrom(rs: seq<Recipe>, k: Item, i: nat)
    requires i <= |rs|
    requires forall j | 0 <= j < |rs| :: rs[j].produces.Some? && k !in rs[j].produces.value
    ensures FastestFrom(rs, k, i, None) == Ok(None)
    decreases |rs| - i
  {
    if i < |rs| {
      NoProducerFrom(rs, k, i + 1);
    }
  }

  lemma NoProducerDividesByZero(rs: seq<Recipe>, k: Item, v: int, d: State)
    requires v > 0
    requires forall j | 0 <= j < |rs| :: rs[j].produces.Some? && k !in rs[j].produces.value
    ensures Resolve(rs, k, v, d) == Err(DivisionByZero(k))
  {
    NoProducerFrom(rs, k, 0);
  }

  /** The rule set with one item, "wood", a goal of one wood and no recipes. */
  function WoodOnly(): Crafting {
    Crafting(["wood"], [("wood", 1)], [])
  }

  /** A rule set with one item `x` and a goal of `n` of it: its goal, key order and relaxation target. */
  lemma SingleItemTargets(x: Item, n: int, rs: seq<Recipe>)
    ensures ToMap(Crafting([x], [(x, n)], rs).goal) == map[x := n]
    ensures DiffKeys(Crafting([x], [(x, n)], rs)) == [x]
    ensures GoalState(Crafting([x], [(x, n)], rs)) == map[x := n]
  {
    var c := Crafting([x], [(x, n)], rs);
    var g: Pairs := [(x, n)];
    assert g[..0] == [];
    assert ToMap(g) == map[x := n];
    assert Names(g) == [x];
    var both := c.items + Names(g);
    assert both == [x, x];
    assert both[..1] == [x];
    assert both[..1][..0] == [];
    assert Dedup(both[..1]) == [x];
    assert Dedup(both) == [x];
    var gs := GoalState(c);
    assert gs.Keys == {x};
  }

  /**
   * A goal item that no recipe produces makes the heuristic fail instead of
   * returning infinity: the producer scan finds nothing and the number of
   * applications divides by a produced amount of 0.
   */
  lemma UnproducibleGoalDividesByZero()
    ensures HeuristicValue(WoodOnly(), map["wood" := 0], 1) == Err(DivisionByZero("wood"))
  {
    var c := WoodOnly();
    var s: State := map["wood" := 0];
    SingleItemTargets("wood", 1, []);
    assert !HoldsDuplicate(s);
    var d := map["wood" := 1];
    assert Missing(s, GoalState(c)) == d by {
      assert Missing(s, d).Keys == d.Keys;
      assert Missing(s, d)["wood"] == 1;
    }
    NoProducerDividesByZero(c.recipes, "wood", 1, d);
    assert PassFrom(c.recipes, ["wood"], 0, d, 0, false) == Err(DivisionByZero("wood"));
  }

  /** Recipe r1 turns one b into one a; recipe r2 makes one b from nothing. */
  function Chain(): Crafting {
    Crafting(["a"], [("a", 1)], [
      Recipe("r1", map[], map["b" := 1], ["b"], Some(map["a" := 1]), 1),
      Recipe("r2", map[], map[], [], Some(map["b" := 1]), 1)])
  }

  /** The first pass on Chain: a is resolved by r1, which inserts b at the last key. */
  lemma ChainFirstPass()
    ensures PassFrom(Chain().recipes, ["a"], 0, map["a" := 1], 0, false) ==
      Ok(PassOutcome(map["a" := 0, "b" := 1], ["a", "b"], 1, true))
  {
    var rs := Chain().recipes;
    var r1 := rs[0];
    var d1: State := map["a" := 1];
    var p1 := Producer(r1, 1);
    assert FastestFrom(rs, "a", 1, Some(p1)) == Ok(Some(p1));
    assert Fastest(rs, "a") == Ok(Some(p1));
    assert Applications(1, 1) == 1;
    var d2: State := map["a" := 0, "b" := 1];
    var back := AddBack(r1, d1);
    assert back.Keys == {"a", "b"} && back["a"] == 1 && back["b"] == 1;
    var after := RevApply(r1, d1).value;
    assert after.Keys == {"a", "b"} && after["a"] == 0 && after["b"] == 1;
    assert after == d2;
    assert RevApplyTimes(r1, 1, d1) == Some(d2);
    assert Resolve(rs, "a", 1, d1) == Ok(Resolution(d2, 1, r1));
    assert Inserted(["b"], d1, d2) == ["b"] by {
      assert ["b"][..0] == [];
    }
    assert "b" in d2 && "b" !in d1;
    assert ["a"] + ["b"] == ["a", "b"];
  }

  /** The second pass on Chain: b is resolved by r2, which inserts nothing. */
  lemma ChainSecondPass()
    ensures PassFrom(Chain().recipes, ["a", "b"], 0, map["a" := 0, "b" := 1], 1, false) ==
      Ok(PassOutcome(map["a" := 0, "b" := 0], ["a", "b"], 2, true))
  {
    var rs := Chain().recipes;
    var r2 := rs[1];
    var keys := ["a", "b"];
    var d2: State := map["a" := 0, "b" := 1];
    var p2 := Producer(r2, 1);
    assert FastestFrom(rs, "b", 1, None) == Ok(Some(p2));
    assert Fastest(rs, "b") == Ok(Some(p2));
    assert Applications(1, 1) == 1;
    var d3: State := map["a" := 0, "b" := 0];
    assert AddBack(r2, d2) == d2;
    var after := RevApply(r2, d2).value;
    assert after.Keys == {"a", "b"} && after["a"] == 0 && after["b"] == 0;
    assert after == d3;
    assert RevApplyTimes(r2, 1, d2) == Some(d3);
    assert Resolve(rs, "b", 1, d2) == Ok(Resolution(d3, 1, r2));
    assert PassFrom(rs, keys, 1, d2, 1, false) == Ok(PassOutcome(d3, keys, 2, true));
  }

  /**
   * A key inserted while the last key is resolved does not stop the pass:
   * resolving a by r1 inserts b, the next pass resolves b by r2, and the
   * third pass finds nothing, so the estimate is 2.
   */
  lemma LastKeyInsertionVisitedNextPass()
    ensures HeuristicValue(Chain(), map["a" := 0], 3) == Ok(Finite(2))
  {
    var c := Chain();
    var rs := c.recipes;
    var s: State := map["a" := 0];
    SingleItemTargets("a", 1, rs);
    assert !GoalMet(map["a" := 1], s);
    assert !HoldsDuplicate(s);
    var d1: State := map["a" := 1];
    assert Missing(s, GoalState(c)) == d1 by {
      assert Missing(s, d1).Keys == d1.Keys;
      assert Missing(s, d1)["a"] == 1;
    }
    var keys := ["a", "b"];
    var d2: State := map["a" := 0, "b" := 1];
    var d3: State := map["a" := 0, "b" := 0];
    ChainFirstPass();
    ChainSecondPass();
    PassFromIdle(rs, keys, 0, d3, 2, false);
    assert Relax(rs, keys, 1, d3, 2) == Ok(2);
    assert Relax(rs, keys, 2, d2, 1) == Ok(2);
    assert Relax(rs, ["a"], 3, d1, 0) == Ok(2);
  }
}
