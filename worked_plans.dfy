/**
 * Two rule sets worked through the whole search: one recipe collecting wood,
 * and an axe that gates chopping without being consumed; and a 0-time
 * recipe whose estimate hides a remaining demand.
 */
module WorkedPlans {
  import opened Wrappers
  import opened Inventory
  import opened Recipes
  import opened Goals
  import opened Successors
  import opened Heuristics
  import opened Planner

  // ---------------------------------------------------------------------------
  // Rule sets whose goal is a single item

  /** A recipe that consumes nothing and makes one `x`; what it needs plays no part in the relaxation. */
  predicate MakesOne(r: Recipe, x: Item) {
    r.consumes == map[] && r.produces == Some(map[x := 1])
  }

  /** Reverse steps of such a recipe only lower the demand for `x`. */
  lemma {:induction false} RevApplyOneTimes(r: Recipe, x: Item, n: nat, m: int)
    requires MakesOne(r, x)
    ensures RevApplyTimes(r, n, map[x := m]) == Some(map[x := m - n])
    decreases n
  {
    if n > 0 {
      var d := map[x := m];
      var back := AddBack(r, d);
      assert back.Keys == {x} && back[x] == m;
      assert Produced(r) == map[x := 1];
      var after := map k | k in back :: back[k] - Held(Produced(r), k);
      assert after.Keys == {x} && after[x] == m - 1;
      assert after == map[x := m - 1];
      assert RevApply(r, d) == Some(after);
      RevApplyOneTimes(r, x, n - 1, m - 1);
    }
  }

  /** A demand of `v > 0` for `x`, resolved by a producer making one per application: `v` applications, nothing left. */
  lemma ResolveOne(rs: seq<Recipe>, x: Item, v: int, p: Producer)
    requires Fastest(rs, x) == Ok(Some(p)) && p.amount == 1 && MakesOne(p.recipe, x) && v > 0
    ensures Resolve(rs, x, v, map[x := v]) == Ok(Resolution(map[x := 0], v, p.recipe))
  {
    assert Applications(v, 1) == v;
    RevApplyOneTimes(p.recipe, x, v, v);
  }

  /** With one key, the first pass resolves its demand and the second finds nothing left. */
  lemma RelaxOne(rs: seq<Recipe>, x: Item, v: int, p: Producer, fuel: nat)
    requires Fastest(rs, x) == Ok(Some(p)) && p.amount == 1 && MakesOne(p.recipe, x) && v > 0 && fuel >= 2
    ensures Relax(rs, [x], fuel, map[x := v], 0) == Ok(v * p.recipe.time)
  {
    var keys := [x];
    var d0: State := map[x := 0];
    var h := v * p.recipe.time;
    ResolveOne(rs, x, v, p);
    assert d0.Keys == map[x := v].Keys;
    assert PassFrom(rs, keys, 1, d0, h, true) == Ok(PassOutcome(d0, keys, h, true));
    assert PassFrom(rs, keys, 0, map[x := v], 0, false) == Ok(PassOutcome(d0, keys, h, true));
    assert PassFrom(rs, keys, 1, d0, h, false) == Ok(PassOutcome(d0, keys, h, false));
    assert PassFrom(rs, keys, 0, d0, h, false) == Ok(PassOutcome(d0, keys, h, false));
    assert Relax(rs, keys, fuel - 1, d0, h) == Ok(h);
  }

  /**
   * A state short of a single-item goal of `g` by `g - l`, with the fastest
   * producer making one per application at time `t`: two passes of the
   * relaxation give `(g - l) * t`.
   */
  lemma SingleDemand(c: Crafting, x: Item, g: int, p: Producer, s: State, fuel: nat)
    requires ToMap(c.goal) == map[x := g] && GoalState(c) == map[x := g] && DiffKeys(c) == [x]
    requires Fastest(c.recipes, x) == Ok(Some(p)) && p.amount == 1 && MakesOne(p.recipe, x)
    requires !HoldsDuplicate(s) && Held(s, x) < g && fuel >= 2
    ensures HeuristicValue(c, s, fuel) == Ok(Finite((g - Held(s, x)) * p.recipe.time))
  {
    var v := g - Held(s, x);
    assert !GoalMet(ToMap(c.goal), s) by {
      assert x in ToMap(c.goal);
    }
    var m := Missing(s, GoalState(c));
    assert m.Keys == {x} && m[x] == v;
    assert m == map[x := v];
    RelaxOne(c.recipes, x, v, p, fuel);
  }

  /** A state none of whose items is a singleton holds no duplicated singleton. */
  lemma NoSingletonHeld(s: State)
    requires forall k | k in s :: k in {"wood", "axe", "log", "x"}
    ensures !HoldsDuplicate(s)
  {
    forall j | 0 <= j < |Singletons| ensures Singletons[j] !in s {
      assert Singletons[j] !in {"wood", "axe", "log", "x"};
    }
  }

  /** Expanding along a single successor edge is considering that edge. */
  lemma ExpandOne(c: Crafting, current: State, e: Succ, f: Frontier, relaxFuel: nat)
    requires current in f.costs && ConsiderStep(c, current, e, f, relaxFuel).Ok?
    ensures ExpandFrom(c, current, [e], 0, f, relaxFuel) == ConsiderStep(c, current, e, f, relaxFuel)
  {
    var f1 := ConsiderStep(c, current, e, f, relaxFuel).value;
    assert ExpandFrom(c, current, [e], 1, f1, relaxFuel) == Ok(f1);
  }

  /** Expanding along two successor edges is considering the first and then the second. */
  lemma ExpandTwo(c: Crafting, current: State, e1: Succ, e2: Succ, f: Frontier, relaxFuel: nat)
    requires current in f.costs && ConsiderStep(c, current, e1, f, relaxFuel).Ok?
    requires ConsiderStep(c, current, e2, ConsiderStep(c, current, e1, f, relaxFuel).value, relaxFuel).Ok?
    ensures ExpandFrom(c, current, [e1, e2], 0, f, relaxFuel)
      == ConsiderStep(c, current, e2, ConsiderStep(c, current, e1, f, relaxFuel).value, relaxFuel)
  {
    var f1 := ConsiderStep(c, current, e1, f, relaxFuel).value;
    var f2 := ConsiderStep(c, current, e2, f1, relaxFuel).value;
    assert [e1, e2][1] == e2;
    assert ExpandFrom(c, current, [e1, e2], 2, f2, relaxFuel) == Ok(f2);
  }

  /** A new state reached along `e` is recorded at its cost through `current` and queued at that plus its estimate. */
  lemma ConsiderNew(c: Crafting, current: State, e: Succ, f: Frontier, relaxFuel: nat, h: Estimate)
    requires current in f.costs && e.next !in f.costs && HeuristicValue(c, e.next, relaxFuel) == Ok(h)
    ensures ConsiderStep(c, current, e, f, relaxFuel) ==
      Ok(Frontier(f.costs[e.next := f.costs[current] + e.cost], f.links[e.next := From(current, e.name)],
                  f.queue + [Entry(Plus(f.costs[current] + e.cost, h), e.next)]))
  {
    ConsiderStepCases(c, current, e, f, relaxFuel);
  }

  /** A new state reached along `e` and queued at `k` onto an empty queue is the only entry queued. */
  lemma ConsiderFirst(c: Crafting, current: State, e: Succ, costs: map<State, nat>, links: map<State, Link>,
                      relaxFuel: nat, h: Estimate, k: Estimate)
    requires current in costs && e.next !in costs && HeuristicValue(c, e.next, relaxFuel) == Ok(h)
    requires Plus(costs[current] + e.cost, h) == k
    ensures ConsiderStep(c, current, e, Frontier(costs, links, []), relaxFuel) ==
      Ok(Frontier(costs[e.next := costs[current] + e.cost], links[e.next := From(current, e.name)], [Entry(k, e.next)]))
  {
    ConsiderNew(c, current, e, Frontier(costs, links, []), relaxFuel, h);
    assert [] + [Entry(k, e.next)] == [Entry(k, e.next)];
  }

  /** A new state reached along `e` is recorded through `current` and queued at `k`, after the entries already queued. */
  lemma ConsiderQueued(c: Crafting, current: State, e: Succ, f: Frontier, relaxFuel: nat, h: Estimate, k: Estimate, q: seq<Entry>)
    requires current in f.costs && e.next !in f.costs && HeuristicValue(c, e.next, relaxFuel) == Ok(h)
    requires Plus(f.costs[current] + e.cost, h) == k && q == f.queue + [Entry(k, e.next)]
    ensures ConsiderStep(c, current, e, f, relaxFuel) ==
      Ok(Frontier(f.costs[e.next := f.costs[current] + e.cost], f.links[e.next := From(current, e.name)], q))
  {
    ConsiderNew(c, current, e, f, relaxFuel, h);
  }

  /** Applying a recipe that consumes nothing and makes one `x` adds one `x`, creating the key when absent. */
  lemma ApplyMakesOne(r: Recipe, x: Item, s: State)
    requires MakesOne(r, x)
    ensures Apply(r, s) == s[x := Held(s, x) + 1]
  {
    assert AfterConsume(r, s) == s;
    assert Produced(r) == map[x := 1];
  }

  /** One iteration that pops the first least entry, a non-goal state, and expands it. */
  lemma AdvanceGo(c: Crafting, goal: map<Item, int>, q: seq<Entry>, costs: map<State, nat>, links: map<State, Link>,
                  relaxFuel: nat, m: nat, f: Frontier)
    requires Queued(q, costs) && q != [] && m == FirstMin(q) && !GoalMet(goal, q[m].state)
    requires ExpandFrom(c, q[m].state, Graph(c.recipes, q[m].state), 0, Frontier(costs, links, q[..m] + q[m + 1..]), relaxFuel) == Ok(f)
    ensures Advance(c, goal, q, costs, links, relaxFuel) == Go(f)
  {
    AdvanceCases(c, goal, q, costs, links, relaxFuel);
  }

  /** A loop with budget left that pops a non-goal state and expands it goes on from the expanded maps. */
  lemma RunGo(c: Crafting, goal: map<Item, int>, q: seq<Entry>, costs: map<State, nat>, links: map<State, Link>,
              budget: nat, relaxFuel: nat, m: nat, q': seq<Entry>, costs': map<State, nat>, links': map<State, Link>)
    requires Queued(q, costs) && q != [] && budget > 0 && m == FirstMin(q) && !GoalMet(goal, q[m].state)
    requires ExpandFrom(c, q[m].state, Graph(c.recipes, q[m].state), 0, Frontier(costs, links, q[..m] + q[m + 1..]), relaxFuel)
      == Ok(Frontier(costs', links', q'))
    ensures Queued(q', costs')
    ensures Run(c, goal, q, costs, links, budget, relaxFuel) == Run(c, goal, q', costs', links', budget - 1, relaxFuel)
  {
    AdvanceGo(c, goal, q, costs, links, relaxFuel, m, Frontier(costs', links', q'));
    RunAdvances(c, goal, q, costs, links, budget, relaxFuel);
  }

  /** A loop with budget left whose first least entry is a goal state stops with that state and the maps. */
  lemma RunPopsGoal(c: Crafting, goal: map<Item, int>, q: seq<Entry>, costs: map<State, nat>, links: map<State, Link>,
                    budget: nat, relaxFuel: nat, m: nat)
    requires Queued(q, costs) && q != [] && budget > 0 && m == FirstMin(q) && GoalMet(goal, q[m].state)
    ensures Run(c, goal, q, costs, links, budget, relaxFuel) == GoalPopped(q[m].state, costs, links)
  {
    AdvanceCases(c, goal, q, costs, links, relaxFuel);
    RunAdvances(c, goal, q, costs, links, budget, relaxFuel);
  }

  // ---------------------------------------------------------------------------
  // Collecting wood

  /** One recipe, "get_wood", makes one wood in one time unit. */
  function GetWood(): Recipe {
    Recipe("get_wood", map[], map[], [], Some(map["wood" := 1]), 1)
  }

  /** The rule set: wood is the only item, the goal is three wood. */
  function Wood(): Crafting {
    Crafting(["wood"], [("wood", 3)], [GetWood()])
  }

  function W(n: int): State {
    map["wood" := n]
  }

  /** get_wood is the fastest, and only, producer of wood. */
  lemma WoodFastest(c: Crafting)
    requires c == Wood()
    ensures Fastest(c.recipes, "wood") == Ok(Some(Producer(GetWood(), 1)))
  {
    var p := Producer(GetWood(), 1);
    assert FastestFrom(c.recipes, "wood", 1, Some(p)) == Ok(Some(p));
  }

  /** Holding `n` wood scores the remaining `3 - n` applications of get_wood. */
  lemma WoodEstimate(c: Crafting, rf: nat, n: nat)
    requires c == Wood() && rf >= 2 && n <= 3
    ensures HeuristicValue(c, W(n), rf) == Ok(Finite(3 - n))
  {
    SingleItemTargets("wood", 3, c.recipes);
    assert W(n).Keys == {"wood"} && Held(W(n), "wood") == n;
    if n < 3 {
      WoodFastest(c);
      NoSingletonHeld(W(n));
      SingleDemand(c, "wood", 3, Producer(GetWood(), 1), W(n), rf);
    } else {
      assert GoalMet(ToMap(c.goal), W(n));
    }
  }

  /** From `n` wood the only successor is get_wood, leading to `n + 1` wood. */
  lemma WoodSuccessors(c: Crafting, n: int)
    requires c == Wood()
    ensures Graph(c.recipes, W(n)) == [Succ("get_wood", W(n + 1), 1)]
  {
    assert Applicable(GetWood(), W(n));
    assert Apply(GetWood(), W(n)) == W(n + 1);
    assert Graph(c.recipes[1..], W(n)) == [];
  }

  /** Considering get_wood at `n < 3` wood records `n + 1` wood at cost `n + 1` and queues it at priority 3. */
  lemma WoodConsider(c: Crafting, rf: nat, n: nat, costs: map<State, nat>, links: map<State, Link>)
    requires c == Wood() && rf >= 2
    requires n < 3 && W(n) in costs && costs[W(n)] == n && W(n + 1) !in costs
    ensures ConsiderStep(c, W(n), Succ("get_wood", W(n + 1), 1), Frontier(costs, links, []), rf) ==
      Ok(Frontier(costs[W(n + 1) := n + 1], links[W(n + 1) := From(W(n), "get_wood")], [Entry(Finite(3), W(n + 1))]))
  {
    WoodEstimate(c, rf, n + 1);
    ConsiderFirst(c, W(n), Succ("get_wood", W(n + 1), 1), costs, links, rf, Finite(2 - n), Finite(3));
  }

  /** A queue holding only `n < 3` wood pops that state, which is short of the goal, and leaves nothing queued. */
  lemma WoodPops(n: nat, pr: Estimate, costs: map<State, nat>)
    requires n < 3 && W(n) in costs
    ensures var q := [Entry(pr, W(n))];
      Queued(q, costs) && FirstMin(q) == 0 && q[..0] + q[1..] == [] && !GoalMet(W(3), q[0].state)
  {
    var q := [Entry(pr, W(n))];
    assert FirstMin(q) == 0;
    assert q[..0] + q[1..] == [];
    assert !GoalMet(W(3), W(n)) by {
      assert W(n)["wood"] < W(3)["wood"];
    }
  }

  /** The costs and links recorded once `n` wood has been reached. */
  function WoodCosts(n: nat): map<State, nat>
    decreases n
  {
    if n == 0 then map[W(0) := 0] else WoodCosts(n - 1)[W(n) := n]
  }

  function WoodLinks(n: nat): map<State, Link>
    decreases n
  {
    if n == 0 then map[W(0) := Root] else WoodLinks(n - 1)[W(n) := From(W(n - 1), "get_wood")]
  }

  /** The recorded states hold at most `n` wood, and `n` wood is recorded at cost `n`. */
  lemma {:induction false} WoodRecorded(n: nat)
    ensures forall x | x in WoodCosts(n) :: "wood" in x && x["wood"] <= n
    ensures W(n) in WoodCosts(n) && WoodCosts(n)[W(n)] == n
    decreases n
  {
    if n > 0 {
      WoodRecorded(n - 1);
    }
  }

  /** Each count up to `n` links back to the count below it by get_wood, and no wood is the root. */
  lemma {:induction false} WoodLinked(n: nat)
    ensures forall i | 0 <= i <= n :: W(i) in WoodLinks(n) && WoodLinks(n)[W(i)] == if i == 0 then Root else From(W(i - 1), "get_wood")
    decreases n
  {
    if n > 0 {
      WoodLinked(n - 1);
      forall i | 0 <= i < n ensures W(i) != W(n) {
        assert W(i)["wood"] != W(n)["wood"];
      }
    }
  }

  /** The maps and queue once `n` wood has been reached, queued at priority 3. */
  function WoodFrontier(n: nat): Frontier {
    Frontier(WoodCosts(n), WoodLinks(n), [Entry(Finite(3), W(n))])
  }

  /** Expanding `n < 3` wood: its one successor reaches `n + 1` wood, recorded at cost `n + 1` and queued at priority 3. */
  lemma WoodExpand(c: Crafting, rf: nat, n: nat)
    requires c == Wood() && rf >= 2 && n < 3
    ensures W(n) in WoodCosts(n)
    ensures ExpandFrom(c, W(n), Graph(c.recipes, W(n)), 0, Frontier(WoodCosts(n), WoodLinks(n), []), rf) == Ok(WoodFrontier(n + 1))
  {
    var costs, links := WoodCosts(n), WoodLinks(n);
    WoodRecorded(n);
    assert W(n + 1) !in costs by {
      assert W(n + 1)["wood"] > n;
    }
    WoodSuccessors(c, n);
    WoodConsider(c, rf, n, costs, links);
    ExpandOne(c, W(n), Succ("get_wood", W(n + 1), 1), Frontier(costs, links, []), rf);
  }

  /** With `n < 3` wood queued alone and its expansion as above, one iteration leaves `n + 1` wood queued alone. */
  lemma WoodStep(c: Crafting, rf: nat, n: nat, pr: Estimate, budget: nat)
    requires n < 3 && budget > 0 && W(n) in WoodCosts(n)
    requires ExpandFrom(c, W(n), Graph(c.recipes, W(n)), 0, Frontier(WoodCosts(n), WoodLinks(n), []), rf) == Ok(WoodFrontier(n + 1))
    ensures Queued([Entry(pr, W(n))], WoodCosts(n)) && Queued(WoodFrontier(n + 1).queue, WoodCosts(n + 1))
    ensures Run(c, W(3), [Entry(pr, W(n))], WoodCosts(n), WoodLinks(n), budget, rf)
      == Run(c, W(3), WoodFrontier(n + 1).queue, WoodCosts(n + 1), WoodLinks(n + 1), budget - 1, rf)
  {
    var q := [Entry(pr, W(n))];
    WoodPops(n, pr, WoodCosts(n));
    AdvanceGo(c, W(3), q, WoodCosts(n), WoodLinks(n), rf, 0, WoodFrontier(n + 1));
    RunAdvances(c, W(3), q, WoodCosts(n), WoodLinks(n), budget, rf);
  }

  /** With three wood queued, the next iteration pops the goal. */
  lemma WoodDone(c: Crafting, rf: nat, pr: Estimate, budget: nat)
    requires budget > 0
    ensures Queued([Entry(pr, W(3))], WoodCosts(3))
    ensures Run(c, W(3), [Entry(pr, W(3))], WoodCosts(3), WoodLinks(3), budget, rf) == GoalPopped(W(3), WoodCosts(3), WoodLinks(3))
  {
    var q := [Entry(pr, W(3))];
    WoodRecorded(3);
    assert FirstMin(q) == 0;
    RunAdvances(c, W(3), q, WoodCosts(3), WoodLinks(3), budget, rf);
    AdvanceCases(c, W(3), q, WoodCosts(3), WoodLinks(3), rf);
  }

  /** The plan the wood rule set calls for: get_wood three times. */
  function WoodPlan(): seq<(State, string)> {
    [(W(1), "get_wood"), (W(2), "get_wood"), (W(3), "get_wood")]
  }

  /** The only outcome reporting the goal popped with the wood maps is the plan collecting three wood, at cost 3. */
  lemma WoodReported(out: Outcome)
    requires Reports(W(0), out, GoalPopped(W(3), WoodCosts(3), WoodLinks(3)))
    ensures out == Plan(WoodPlan(), 3)
  {
    WoodLinked(3);
    var links := WoodLinks(3);
    assert out.Plan?;
    assert Last(W(0), out.steps) == W(3);
    assert Last(W(0), WoodPlan()) == W(3);
    assert W(0) in links && links[W(0)] == Root by {
      assert forall k | 1 <= k <= 3 :: W(k)["wood"] != W(0)["wood"];
    }
    assert FollowsLinks(links, W(0), WoodPlan());
    FollowsLinksUnique(links, W(0), out.steps, WoodPlan());
  }

  /** The expansions of no, one and two wood, as `WoodExpand` states them. */
  ghost predicate WoodExpands(c: Crafting, rf: nat) {
    forall n: nat | n < 3 :: W(n) in WoodCosts(n) &&
      ExpandFrom(c, W(n), Graph(c.recipes, W(n)), 0, Frontier(WoodCosts(n), WoodLinks(n), []), rf) == Ok(WoodFrontier(n + 1))
  }

  /** With those expansions, the loop from `n` wood queued at priority `pr` pops three wood within `4 - n` iterations. */
  lemma {:induction false} WoodRun(c: Crafting, rf: nat, n: nat, pr: Estimate, budget: nat)
    requires WoodExpands(c, rf) && n <= 3 && budget >= 4 - n
    ensures Queued([Entry(pr, W(n))], WoodCosts(n))
    ensures Run(c, W(3), [Entry(pr, W(n))], WoodCosts(n), WoodLinks(n), budget, rf) == GoalPopped(W(3), WoodCosts(3), WoodLinks(3))
    decreases 3 - n
  {
    if n == 3 {
      WoodDone(c, rf, pr, budget);
    } else {
      WoodStep(c, rf, n, pr, budget);
      WoodRun(c, rf, n + 1, Finite(3), budget - 1);
    }
  }

  /**
   * A search of the wood rule set from no wood, with at least four
   * iterations and two relaxation passes, returns get_wood three times at
   * cost 3: the outcome `Search` reports is this plan.
   */
  lemma WoodSearch(c: Crafting, fuel: nat, rf: nat, out: Outcome)
    requires c == Wood() && fuel >= 4 && rf >= 2
    requires Reports(W(0), out, Run(c, ToMap(c.goal), [Entry(Finite(0), W(0))], map[W(0) := 0], map[W(0) := Root], fuel, rf))
    ensures out == Plan(WoodPlan(), 3)
  {
    SingleItemTargets("wood", 3, c.recipes);
    forall n: nat | n < 3 ensures W(n) in WoodCosts(n) &&
      ExpandFrom(c, W(n), Graph(c.recipes, W(n)), 0, Frontier(WoodCosts(n), WoodLinks(n), []), rf) == Ok(WoodFrontier(n + 1))
    {
      WoodExpand(c, rf, n);
    }
    WoodRun(c, rf, 0, Finite(0), fuel);
    assert WoodCosts(0) == map[W(0) := 0] && WoodLinks(0) == map[W(0) := Root];
    WoodReported(out);
  }

  // ---------------------------------------------------------------------------
  // An axe that gates chopping

  /** "make_axe" makes one axe in two time units. */
  function MakeAxe(): Recipe {
    Recipe("make_axe", map[], map[], [], Some(map["axe" := 1]), 2)
  }

  /** "chop" needs an axe, which it keeps, and makes one log in one time unit. */
  function Chop(): Recipe {
    Recipe("chop", map["axe" := 1], map[], [], Some(map["log" := 1]), 1)
  }

  /** The rule set: log is the declared item, the goal is two logs. */
  function Axes(): Crafting {
    Crafting(["log"], [("log", 2)], [MakeAxe(), Chop()])
  }

  function Empty(): State { map[] }
  function Axe1(): State { map["axe" := 1] }
  function Axe2(): State { map["axe" := 2] }
  function Axe1Log(l: int): State { map["axe" := 1, "log" := l] }
  function Axe2Log1(): State { map["axe" := 2, "log" := 1] }

  /** chop is the fastest, and only, producer of logs. */
  lemma ChopFastest(c: Crafting)
    requires c == Axes()
    ensures Fastest(c.recipes, "log") == Ok(Some(Producer(Chop(), 1)))
  {
    var p := Producer(Chop(), 1);
    assert FastestFrom(c.recipes, "log", 2, Some(p)) == Ok(Some(p));
    assert FastestFrom(c.recipes, "log", 1, None) == Ok(Some(p));
  }

  /** A state of axes and at most two logs scores one chop per missing log; the axe it may lack costs nothing. */
  lemma AxeEstimate(c: Crafting, rf: nat, s: State)
    requires c == Axes() && rf >= 2
    requires forall k | k in s :: k == "axe" || k == "log"
    requires 0 <= Held(s, "log") <= 2
    ensures HeuristicValue(c, s, rf) == Ok(Finite(2 - Held(s, "log")))
  {
    SingleItemTargets("log", 2, c.recipes);
    if Held(s, "log") < 2 {
      ChopFastest(c);
      NoSingletonHeld(s);
      SingleDemand(c, "log", 2, Producer(Chop(), 1), s, rf);
    } else {
      assert GoalMet(ToMap(c.goal), s);
    }
  }

  /** With nothing held only make_axe applies. */
  lemma EmptySuccessors(c: Crafting)
    requires c == Axes()
    ensures Graph(c.recipes, Empty()) == [Succ("make_axe", Axe1(), 2)]
  {
    assert !Applicable(Chop(), Empty()) by {
      assert "axe" in Chop().needs;
    }
    assert Graph(c.recipes[1..][1..], Empty()) == [];
    ApplyMakesOne(MakeAxe(), "axe", Empty());
    assert Empty()["axe" := 1] == Axe1();
  }

  /** Two recipes that both apply yield their two successors, in order. */
  lemma GraphPair(r1: Recipe, r2: Recipe, s: State)
    requires Applicable(r1, s) && Applicable(r2, s)
    ensures Graph([r1, r2], s) == [SuccOf(r1, s), SuccOf(r2, s)]
  {
    assert [r1, r2][1..] == [r2] && [r2][1..] == [];
  }

  /** Holding one axe, chop applies: it consumes nothing and its only need is the axe. */
  lemma ChopApplies(s: State)
    requires "axe" in s && s["axe"] == 1
    ensures Applicable(Chop(), s)
  {
    assert Chop().consumes == map[] && Chop().needs == map["axe" := 1];
  }

  /** From one axe, make_axe leads to a second axe at time 2. */
  lemma MakeAxeFrom(s: State)
    requires "axe" in s && s["axe"] == 1
    ensures Applicable(MakeAxe(), s) && SuccOf(MakeAxe(), s) == Succ("make_axe", s["axe" := 2], 2)
  {
    ApplyMakesOne(MakeAxe(), "axe", s);
    assert Held(s, "axe") + 1 == 2;
  }

  /** From one axe, chop applies and leads to one more log at time 1. */
  lemma ChopFrom(s: State)
    requires "axe" in s && s["axe"] == 1
    ensures Applicable(Chop(), s) && SuccOf(Chop(), s) == Succ("chop", s["log" := Held(s, "log") + 1], 1)
  {
    ChopApplies(s);
    ApplyMakesOne(Chop(), "log", s);
  }

  /** With one axe both recipes apply: a second axe, or one more log. */
  lemma AxeSuccessors(c: Crafting, s: State)
    requires c == Axes() && "axe" in s && s["axe"] == 1
    ensures Graph(c.recipes, s) == [Succ("make_axe", s["axe" := 2], 2), Succ("chop", s["log" := Held(s, "log") + 1], 1)]
  {
    assert c.recipes == [MakeAxe(), Chop()];
    MakeAxeFrom(s);
    ChopFrom(s);
    GraphPair(MakeAxe(), Chop(), s);
  }

  /** The successors and estimates of the axe rule set at the states the search expands or queues. */
  ghost predicate AxeKnown(c: Crafting, rf: nat) {
    && Graph(c.recipes, Empty()) == [Succ("make_axe", Axe1(), 2)]
    && Graph(c.recipes, Axe1()) == [Succ("make_axe", Axe2(), 2), Succ("chop", Axe1Log(1), 1)]
    && Graph(c.recipes, Axe1Log(1)) == [Succ("make_axe", Axe2Log1(), 2), Succ("chop", Axe1Log(2), 1)]
    && HeuristicValue(c, Axe1(), rf) == Ok(Finite(2))
    && HeuristicValue(c, Axe2(), rf) == Ok(Finite(2))
    && HeuristicValue(c, Axe1Log(1), rf) == Ok(Finite(1))
    && HeuristicValue(c, Axe2Log1(), rf) == Ok(Finite(1))
    && HeuristicValue(c, Axe1Log(2), rf) == Ok(Finite(0))
  }

  /** One more axe or one more log, from one axe or from an axe and a log. */
  lemma AxeSteps()
    ensures Axe1()["axe" := 2] == Axe2() && Axe1()["log" := Held(Axe1(), "log") + 1] == Axe1Log(1)
    ensures Axe1Log(1)["axe" := 2] == Axe2Log1() && Axe1Log(1)["log" := Held(Axe1Log(1), "log") + 1] == Axe1Log(2)
  {
  }

  /** The successors of one axe. */
  lemma AxeGraph1(c: Crafting)
    requires c == Axes()
    ensures Graph(c.recipes, Axe1()) == [Succ("make_axe", Axe2(), 2), Succ("chop", Axe1Log(1), 1)]
  {
    AxeSteps();
    AxeSuccessors(c, Axe1());
  }

  /** The successors of an axe and a log. */
  lemma AxeGraph2(c: Crafting)
    requires c == Axes()
    ensures Graph(c.recipes, Axe1Log(1)) == [Succ("make_axe", Axe2Log1(), 2), Succ("chop", Axe1Log(2), 1)]
  {
    AxeSteps();
    AxeSuccessors(c, Axe1Log(1));
  }

  /** One axe and no log: two chops short of the goal. */
  lemma AxeScoreOne(c: Crafting, rf: nat)
    requires c == Axes() && rf >= 2
    ensures HeuristicValue(c, Axe1(), rf) == Ok(Finite(2))
  {
    assert Axe1().Keys == {"axe"};
    AxeEstimate(c, rf, Axe1());
  }

  /** Two axes and no log: the spare axe is not a singleton here, so still two chops short. */
  lemma AxeScoreTwo(c: Crafting, rf: nat)
    requires c == Axes() && rf >= 2
    ensures HeuristicValue(c, Axe2(), rf) == Ok(Finite(2))
  {
    assert Axe2().Keys == {"axe"};
    AxeEstimate(c, rf, Axe2());
  }

  /** One axe and one log: one chop short. */
  lemma AxeScoreLog(c: Crafting, rf: nat)
    requires c == Axes() && rf >= 2
    ensures HeuristicValue(c, Axe1Log(1), rf) == Ok(Finite(1))
  {
    assert Axe1Log(1).Keys == {"axe", "log"} && Held(Axe1Log(1), "log") == 1;
    AxeEstimate(c, rf, Axe1Log(1));
  }

  /** The estimates at the states that the third expansion queues. */
  lemma AxeScoresHigh(c: Crafting, rf: nat)
    requires c == Axes() && rf >= 2
    ensures HeuristicValue(c, Axe2Log1(), rf) == Ok(Finite(1))
    ensures HeuristicValue(c, Axe1Log(2), rf) == Ok(Finite(0))
  {
    AxeEstimate(c, rf, Axe2Log1());
    AxeEstimate(c, rf, Axe1Log(2));
  }

  /** Everything the three expansions need to know of the axe rule set. */
  lemma AxeScores(c: Crafting, rf: nat)
    requires c == Axes() && rf >= 2
    ensures AxeKnown(c, rf)
  {
    EmptySuccessors(c);
    AxeGraph1(c);
    AxeGraph2(c);
    AxeScoreOne(c, rf);
    AxeScoreTwo(c, rf);
    AxeScoreLog(c, rf);
    AxeScoresHigh(c, rf);
  }

  /** The recorded costs and links after the first, second and third iteration. */
  function AxeCosts1(): map<State, nat> { map[Empty() := 0, Axe1() := 2] }
  function AxeCosts2(): map<State, nat> { AxeCosts1()[Axe2() := 4][Axe1Log(1) := 3] }
  function AxeCosts3(): map<State, nat> { AxeCosts2()[Axe2Log1() := 5][Axe1Log(2) := 4] }
  function AxeLinks1(): map<State, Link> { map[Empty() := Root, Axe1() := From(Empty(), "make_axe")] }
  function AxeLinks2(): map<State, Link> { AxeLinks1()[Axe2() := From(Axe1(), "make_axe")][Axe1Log(1) := From(Axe1(), "chop")] }
  function AxeLinks3(): map<State, Link> { AxeLinks2()[Axe2Log1() := From(Axe1Log(1), "make_axe")][Axe1Log(2) := From(Axe1Log(1), "chop")] }

  /** The queues after the first, second and third iteration. */
  function AxeQueue1(): seq<Entry> { [Entry(Finite(4), Axe1())] }
  function AxeQueue2(): seq<Entry> { [Entry(Finite(6), Axe2()), Entry(Finite(4), Axe1Log(1))] }
  function AxeQueue3(): seq<Entry> { [Entry(Finite(6), Axe2()), Entry(Finite(6), Axe2Log1()), Entry(Finite(4), Axe1Log(2))] }

  /** The six states of the search are pairwise distinct. */
  lemma AxeStatesDistinct()
    ensures "axe" !in Empty() && "log" !in Empty() && "log" !in Axe1() && "log" !in Axe2()
    ensures Axe1()["axe"] != Axe2()["axe"] && Axe1Log(1)["axe"] != Axe2Log1()["axe"]
    ensures Axe1Log(1)["log"] != Axe1Log(2)["log"] && Axe2Log1()["axe"] != Axe1Log(2)["axe"]
  {
  }

  /** The first expansion: make_axe reaches an axe at cost 2, queued at priority 4. */
  lemma AxeExpand1(c: Crafting, rf: nat)
    requires AxeKnown(c, rf)
    ensures ExpandFrom(c, Empty(), Graph(c.recipes, Empty()), 0, Frontier(map[Empty() := 0], map[Empty() := Root], []), rf)
      == Ok(Frontier(AxeCosts1(), AxeLinks1(), AxeQueue1()))
  {
    var e := Succ("make_axe", Axe1(), 2);
    var f := Frontier(map[Empty() := 0], map[Empty() := Root], []);
    AxeStatesDistinct();
    ConsiderQueued(c, Empty(), e, f, rf, Finite(2), Finite(4), AxeQueue1());
    assert f.costs[Empty()] + e.cost == 2;
    assert f.costs[Axe1() := 2] == AxeCosts1();
    assert f.links[Axe1() := From(Empty(), "make_axe")] == AxeLinks1();
    assert ConsiderStep(c, Empty(), e, f, rf) == Ok(Frontier(AxeCosts1(), AxeLinks1(), AxeQueue1()));
    ExpandOne(c, Empty(), e, f, rf);
    assert ExpandFrom(c, Empty(), [e], 0, f, rf) == Ok(Frontier(AxeCosts1(), AxeLinks1(), AxeQueue1()));
  }

  /** The frontier between the two successors of the second expansion: two axes recorded at cost 4, queued at priority 6. */
  function AxeHalf2(): Frontier {
    Frontier(AxeCosts1()[Axe2() := 4], AxeLinks1()[Axe2() := From(Axe1(), "make_axe")], [Entry(Finite(6), Axe2())])
  }

  /** make_axe from one axe records two axes at cost 4, queued at priority 6. */
  lemma AxeConsider2(c: Crafting, rf: nat)
    requires HeuristicValue(c, Axe2(), rf) == Ok(Finite(2))
    ensures Axe1() in AxeCosts1()
    ensures ConsiderStep(c, Axe1(), Succ("make_axe", Axe2(), 2), Frontier(AxeCosts1(), AxeLinks1(), []), rf) == Ok(AxeHalf2())
  {
    AxeStatesDistinct();
    assert AxeCosts1()[Axe1()] + 2 == 4;
    ConsiderQueued(c, Axe1(), Succ("make_axe", Axe2(), 2), Frontier(AxeCosts1(), AxeLinks1(), []), rf, Finite(2), Finite(6), [Entry(Finite(6), Axe2())]);
  }

  /** chop from one axe then records an axe and a log at cost 3, queued at priority 4. */
  lemma AxeChop2(c: Crafting, rf: nat)
    requires HeuristicValue(c, Axe1Log(1), rf) == Ok(Finite(1))
    ensures Axe1() in AxeHalf2().costs
    ensures ConsiderStep(c, Axe1(), Succ("chop", Axe1Log(1), 1), AxeHalf2(), rf) == Ok(Frontier(AxeCosts2(), AxeLinks2(), AxeQueue2()))
  {
    AxeStatesDistinct();
    assert AxeHalf2().costs[Axe1()] + 1 == 3;
    assert AxeHalf2().costs[Axe1Log(1) := 3] == AxeCosts2();
    assert AxeHalf2().links[Axe1Log(1) := From(Axe1(), "chop")] == AxeLinks2();
    ConsiderQueued(c, Axe1(), Succ("chop", Axe1Log(1), 1), AxeHalf2(), rf, Finite(1), Finite(4), AxeQueue2());
  }

  /** The second expansion: make_axe reaches two axes at cost 4 (priority 6), chop a log at cost 3 (priority 4). */
  lemma AxeExpand2(c: Crafting, rf: nat)
    requires AxeKnown(c, rf)
    ensures Axe1() in AxeCosts1()
    ensures ExpandFrom(c, Axe1(), Graph(c.recipes, Axe1()), 0, Frontier(AxeCosts1(), AxeLinks1(), []), rf)
      == Ok(Frontier(AxeCosts2(), AxeLinks2(), AxeQueue2()))
  {
    AxeConsider2(c, rf);
    AxeChop2(c, rf);
    ExpandTwo(c, Axe1(), Succ("make_axe", Axe2(), 2), Succ("chop", Axe1Log(1), 1), Frontier(AxeCosts1(), AxeLinks1(), []), rf);
  }

  /** The frontier between the two successors of the third expansion: two axes and a log recorded at cost 5, queued at priority 6. */
  function AxeHalf3(): Frontier {
    Frontier(AxeCosts2()[Axe2Log1() := 5], AxeLinks2()[Axe2Log1() := From(Axe1Log(1), "make_axe")],
             [Entry(Finite(6), Axe2()), Entry(Finite(6), Axe2Log1())])
  }

  /** make_axe from an axe and a log records two axes and a log at cost 5, queued at priority 6. */
  lemma AxeConsider3(c: Crafting, rf: nat)
    requires HeuristicValue(c, Axe2Log1(), rf) == Ok(Finite(1))
    ensures Axe1Log(1) in AxeCosts2()
    ensures ConsiderStep(c, Axe1Log(1), Succ("make_axe", Axe2Log1(), 2), Frontier(AxeCosts2(), AxeLinks2(), [Entry(Finite(6), Axe2())]), rf)
      == Ok(AxeHalf3())
  {
    AxeStatesDistinct();
    assert AxeCosts2()[Axe1Log(1)] + 2 == 5;
    ConsiderQueued(c, Axe1Log(1), Succ("make_axe", Axe2Log1(), 2), Frontier(AxeCosts2(), AxeLinks2(), [Entry(Finite(6), Axe2())]), rf,
                   Finite(1), Finite(6), AxeHalf3().queue);
  }

  /** chop from an axe and a log then records an axe and two logs at cost 4, queued at priority 4. */
  lemma AxeChop3(c: Crafting, rf: nat)
    requires HeuristicValue(c, Axe1Log(2), rf) == Ok(Finite(0))
    ensures Axe1Log(1) in AxeHalf3().costs
    ensures ConsiderStep(c, Axe1Log(1), Succ("chop", Axe1Log(2), 1), AxeHalf3(), rf) == Ok(Frontier(AxeCosts3(), AxeLinks3(), AxeQueue3()))
  {
    AxeStatesDistinct();
    assert AxeHalf3().costs[Axe1Log(1)] + 1 == 4;
    assert AxeHalf3().costs[Axe1Log(2) := 4] == AxeCosts3();
    assert AxeHalf3().links[Axe1Log(2) := From(Axe1Log(1), "chop")] == AxeLinks3();
    ConsiderQueued(c, Axe1Log(1), Succ("chop", Axe1Log(2), 1), AxeHalf3(), rf, Finite(0), Finite(4), AxeQueue3());
  }

  /** The third expansion: make_axe reaches two axes and a log at cost 5 (priority 6), chop two logs at cost 4 (priority 4). */
  lemma AxeExpand3(c: Crafting, rf: nat)
    requires AxeKnown(c, rf)
    ensures Axe1Log(1) in AxeCosts2()
    ensures ExpandFrom(c, Axe1Log(1), Graph(c.recipes, Axe1Log(1)), 0, Frontier(AxeCosts2(), AxeLinks2(), [Entry(Finite(6), Axe2())]), rf)
      == Ok(Frontier(AxeCosts3(), AxeLinks3(), AxeQueue3()))
  {
    AxeConsider3(c, rf);
    AxeChop3(c, rf);
    ExpandTwo(c, Axe1Log(1), Succ("make_axe", Axe2Log1(), 2), Succ("chop", Axe1Log(2), 1),
              Frontier(AxeCosts2(), AxeLinks2(), [Entry(Finite(6), Axe2())]), rf);
  }

  /** The state expanded by the first, second and third iteration, and the frontiers before and after. */
  function AxeExpanded(i: nat): State {
    if i == 0 then Empty() else if i == 1 then Axe1() else Axe1Log(1)
  }

  function AxeBefore(i: nat): Frontier {
    if i == 0 then Frontier(map[Empty() := 0], map[Empty() := Root], [])
    else if i == 1 then Frontier(AxeCosts1(), AxeLinks1(), [])
    else Frontier(AxeCosts2(), AxeLinks2(), [Entry(Finite(6), Axe2())])
  }

  function AxeAfter(i: nat): Frontier {
    if i == 0 then Frontier(AxeCosts1(), AxeLinks1(), AxeQueue1())
    else if i == 1 then Frontier(AxeCosts2(), AxeLinks2(), AxeQueue2())
    else Frontier(AxeCosts3(), AxeLinks3(), AxeQueue3())
  }

  /** The three expansions, as `AxeExpand1`, `AxeExpand2` and `AxeExpand3` state them. */
  ghost predicate AxeExpands(c: Crafting, rf: nat) {
    forall i: nat | i < 3 :: AxeExpanded(i) in AxeBefore(i).costs &&
      ExpandFrom(c, AxeExpanded(i), Graph(c.recipes, AxeExpanded(i)), 0, AxeBefore(i), rf) == Ok(AxeAfter(i))
  }

  /** Four iterations in a row: three that go on, then one that stops. */
  lemma RunFour(c: Crafting, goal: map<Item, int>, q: seq<Entry>, costs: map<State, nat>, links: map<State, Link>,
                budget: nat, relaxFuel: nat, f1: Frontier, f2: Frontier, f3: Frontier, h: Halt)
    requires Queued(q, costs) && q != [] && budget >= 4
    requires Advance(c, goal, q, costs, links, relaxFuel) == Go(f1) && f1.queue != []
    requires Queued(f1.queue, f1.costs) && Advance(c, goal, f1.queue, f1.costs, f1.links, relaxFuel) == Go(f2) && f2.queue != []
    requires Queued(f2.queue, f2.costs) && Advance(c, goal, f2.queue, f2.costs, f2.links, relaxFuel) == Go(f3) && f3.queue != []
    requires Queued(f3.queue, f3.costs) && Advance(c, goal, f3.queue, f3.costs, f3.links, relaxFuel) == Stop(h)
    ensures Run(c, goal, q, costs, links, budget, relaxFuel) == h
  {
    RunThrough(c, goal, q, costs, links, budget, relaxFuel, f1);
    RunThrough(c, goal, f1.queue, f1.costs, f1.links, budget - 1, relaxFuel, f2);
    RunThrough(c, goal, f2.queue, f2.costs, f2.links, budget - 2, relaxFuel, f3);
    RunAdvances(c, goal, f3.queue, f3.costs, f3.links, budget - 3, relaxFuel);
  }

  /** An iteration that goes on leaves the rest of the loop to the expanded maps, with one iteration less. */
  lemma RunThrough(c: Crafting, goal: map<Item, int>, q: seq<Entry>, costs: map<State, nat>, links: map<State, Link>,
                   budget: nat, relaxFuel: nat, f: Frontier)
    requires Queued(q, costs) && q != [] && budget > 0
    requires Advance(c, goal, q, costs, links, relaxFuel) == Go(f)
    ensures Run(c, goal, q, costs, links, budget, relaxFuel) == Run(c, goal, f.queue, f.costs, f.links, budget - 1, relaxFuel)
  {
    RunAdvances(c, goal, q, costs, links, budget, relaxFuel);
  }

  /** The initial queue holds only the empty state, which is recorded and not a goal state. */
  lemma InitialPops()
    ensures Queued([Entry(Finite(0), Empty())], map[Empty() := 0]) && FirstMin([Entry(Finite(0), Empty())]) == 0
    ensures [Entry(Finite(0), Empty())][0].state == Empty() && [Entry(Finite(0), Empty())][..0] + [Entry(Finite(0), Empty())][1..] == []
    ensures !GoalMet(map["log" := 2], Empty())
  {
    assert "log" in map["log" := 2];
  }

  /** The first iteration pops the empty state and queues one axe. */
  lemma AxeIteration1(c: Crafting, rf: nat)
    requires AxeExpands(c, rf)
    ensures Queued([Entry(Finite(0), Empty())], map[Empty() := 0])
    ensures Advance(c, map["log" := 2], [Entry(Finite(0), Empty())], map[Empty() := 0], map[Empty() := Root], rf) == Go(AxeAfter(0))
  {
    assert ExpandFrom(c, AxeExpanded(0), Graph(c.recipes, AxeExpanded(0)), 0, AxeBefore(0), rf) == Ok(AxeAfter(0));
    assert AxeExpanded(0) == Empty() && AxeBefore(0) == Frontier(map[Empty() := 0], map[Empty() := Root], []);
    InitialPops();
    AdvanceGo(c, map["log" := 2], [Entry(Finite(0), Empty())], map[Empty() := 0], map[Empty() := Root], rf, 0, AxeAfter(0));
  }

  /** The queue after the first iteration holds only the axe, which is recorded and not a goal state. */
  lemma AxeQueue1Pops()
    ensures Queued(AxeQueue1(), AxeCosts1()) && FirstMin(AxeQueue1()) == 0
    ensures AxeQueue1()[0].state == Axe1() && AxeQueue1()[..0] + AxeQueue1()[1..] == []
    ensures !GoalMet(map["log" := 2], Axe1())
  {
    assert Axe1() in AxeCosts1();
    assert "log" in map["log" := 2];
  }

  /** The second iteration pops the axe and queues two axes, then an axe and a log. */
  lemma AxeIteration2(c: Crafting, rf: nat)
    requires AxeExpands(c, rf)
    ensures Queued(AxeAfter(0).queue, AxeAfter(0).costs)
    ensures Advance(c, map["log" := 2], AxeAfter(0).queue, AxeAfter(0).costs, AxeAfter(0).links, rf) == Go(AxeAfter(1))
  {
    assert ExpandFrom(c, AxeExpanded(1), Graph(c.recipes, AxeExpanded(1)), 0, AxeBefore(1), rf) == Ok(AxeAfter(1));
    assert AxeExpanded(1) == Axe1() && AxeBefore(1) == Frontier(AxeCosts1(), AxeLinks1(), []);
    assert AxeAfter(0) == Frontier(AxeCosts1(), AxeLinks1(), AxeQueue1());
    AxeQueue1Pops();
    AdvanceGo(c, map["log" := 2], AxeQueue1(), AxeCosts1(), AxeLinks1(), rf, 0, AxeAfter(1));
  }

  /** The queue after the second iteration pops the axe with one log, queued last at the least priority, which is not a goal state. */
  lemma AxeQueue2Pops()
    ensures Queued(AxeQueue2(), AxeCosts2()) && FirstMin(AxeQueue2()) == 1
    ensures AxeQueue2()[1].state == Axe1Log(1) && AxeQueue2()[..1] + AxeQueue2()[2..] == [Entry(Finite(6), Axe2())]
    ensures !GoalMet(map["log" := 2], Axe1Log(1))
  {
    assert Axe2() in AxeCosts2() && Axe1Log(1) in AxeCosts2();
    assert "log" in map["log" := 2];
  }

  /** The third iteration pops the axe with one log, queued last at the least priority, and queues two more states. */
  lemma AxeIteration3(c: Crafting, rf: nat)
    requires AxeExpands(c, rf)
    ensures Queued(AxeAfter(1).queue, AxeAfter(1).costs)
    ensures Advance(c, map["log" := 2], AxeAfter(1).queue, AxeAfter(1).costs, AxeAfter(1).links, rf) == Go(AxeAfter(2))
  {
    assert ExpandFrom(c, AxeExpanded(2), Graph(c.recipes, AxeExpanded(2)), 0, AxeBefore(2), rf) == Ok(AxeAfter(2));
    assert AxeExpanded(2) == Axe1Log(1) && AxeBefore(2) == Frontier(AxeCosts2(), AxeLinks2(), [Entry(Finite(6), Axe2())]);
    assert AxeAfter(1) == Frontier(AxeCosts2(), AxeLinks2(), AxeQueue2());
    AxeQueue2Pops();
    AdvanceGo(c, map["log" := 2], AxeQueue2(), AxeCosts2(), AxeLinks2(), rf, 1, AxeAfter(2));
  }

  /** The fourth iteration pops the axe with two logs, the goal, queued last at the least priority. */
  lemma AxeIteration4(c: Crafting, rf: nat)
    ensures Queued(AxeAfter(2).queue, AxeAfter(2).costs)
    ensures Advance(c, map["log" := 2], AxeAfter(2).queue, AxeAfter(2).costs, AxeAfter(2).links, rf)
      == Stop(GoalPopped(Axe1Log(2), AxeCosts3(), AxeLinks3()))
  {
    var q := AxeQueue3();
    assert AxeAfter(2) == Frontier(AxeCosts3(), AxeLinks3(), q);
    assert FirstMin(q) == 2;
    assert Queued(q, AxeCosts3());
    AdvanceCases(c, map["log" := 2], q, AxeCosts3(), AxeLinks3(), rf);
  }

  /** With the three expansions, the loop from nothing pops two logs within four iterations. */
  lemma AxeLoop(c: Crafting, rf: nat, fuel: nat)
    requires AxeExpands(c, rf) && fuel >= 4
    ensures Queued([Entry(Finite(0), Empty())], map[Empty() := 0])
    ensures Run(c, map["log" := 2], [Entry(Finite(0), Empty())], map[Empty() := 0], map[Empty() := Root], fuel, rf)
      == GoalPopped(Axe1Log(2), AxeCosts3(), AxeLinks3())
  {
    AxeIteration1(c, rf);
    AxeIteration2(c, rf);
    AxeIteration3(c, rf);
    AxeIteration4(c, rf);
    assert AxeAfter(0).queue != [] && AxeAfter(1).queue != [] && AxeAfter(2).queue != [];
    RunFour(c, map["log" := 2], [Entry(Finite(0), Empty())], map[Empty() := 0], map[Empty() := Root], fuel, rf,
            AxeAfter(0), AxeAfter(1), AxeAfter(2), GoalPopped(Axe1Log(2), AxeCosts3(), AxeLinks3()));
  }

  /** The plan the axe rule set calls for: one axe, then two chops. */
  function AxePlan(): seq<(State, string)> {
    [(Axe1(), "make_axe"), (Axe1Log(1), "chop"), (Axe1Log(2), "chop")]
  }

  /** The only outcome reporting the goal popped with the axe maps is one make_axe and two chops, at cost 4. */
  lemma AxeReported(out: Outcome)
    requires Reports(Empty(), out, GoalPopped(Axe1Log(2), AxeCosts3(), AxeLinks3()))
    ensures out == Plan(AxePlan(), 4)
  {
    var links := AxeLinks3();
    assert out.Plan?;
    AxeStatesDistinct();
    assert links[Empty()] == Root;
    assert links[Axe1()] == From(Empty(), "make_axe");
    assert links[Axe1Log(1)] == From(Axe1(), "chop");
    assert links[Axe1Log(2)] == From(Axe1Log(1), "chop");
    assert FollowsLinks(links, Empty(), AxePlan());
    FollowsLinksUnique(links, Empty(), out.steps, AxePlan());
  }

  /**
   * A search of the axe rule set from nothing, with at least four iterations
   * and two relaxation passes, makes the axe once and chops twice, at cost 4:
   * the axe gates chopping and is not consumed, so it is never made again.
   */
  lemma AxeSearch(c: Crafting, fuel: nat, rf: nat, out: Outcome)
    requires c == Axes() && fuel >= 4 && rf >= 2
    requires Reports(Empty(), out, Run(c, ToMap(c.goal), [Entry(Finite(0), Empty())], map[Empty() := 0], map[Empty() := Root], fuel, rf))
    ensures out == Plan(AxePlan(), 4)
  {
    SingleItemTargets("log", 2, c.recipes);
    AxeScores(c, rf);
    forall i: nat | i < 3 ensures AxeExpanded(i) in AxeBefore(i).costs &&
      ExpandFrom(c, AxeExpanded(i), Graph(c.recipes, AxeExpanded(i)), 0, AxeBefore(i), rf) == Ok(AxeAfter(i))
    {
      if i == 0 {
        AxeExpand1(c, rf);
      } else if i == 1 {
        AxeExpand2(c, rf);
      } else {
        AxeExpand3(c, rf);
      }
    }
    AxeLoop(c, rf, fuel);
    AxeReported(out);
  }

  // ---------------------------------------------------------------------------
  // A recipe of time 0

  /** "free" makes one `x` in no time. */
  function Free(): Recipe {
    Recipe("free", map[], map[], [], Some(map["x" := 1]), 0)
  }

  /**
   * With a 0-time producer the estimate is 0 although a demand remains:
   * holding no `x` toward a goal of one leaves a residual demand of 1, yet
   * every application adds no time. Positive times are therefore needed
   * for `HeuristicZeroIffNoDemand`.
   */
  lemma ZeroTimeHidesDemand(rf: nat)
    requires rf >= 2
    ensures var c := Crafting(["x"], [("x", 1)], [Free()]);
      && Missing(map["x" := 0], GoalState(c))["x"] == 1
      && HeuristicValue(c, map["x" := 0], rf) == Ok(Finite(0))
  {
    var c := Crafting(["x"], [("x", 1)], [Free()]);
    SingleItemTargets("x", 1, c.recipes);
    var p := Producer(Free(), 1);
    assert FastestFrom(c.recipes, "x", 1, Some(p)) == Ok(Some(p));
    var s: State := map["x" := 0];
    assert s.Keys == {"x"} && Held(s, "x") == 0;
    NoSingletonHeld(s);
    SingleDemand(c, "x", 1, p, s, rf);
  }
}
