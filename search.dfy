/**
 * The search engine: best-first search over inventory states with a
 * priority queue, a cost-so-far map and a predecessor map, followed by
 * reconstruction of the plan from the predecessor links.
 */
module Planner {
  import opened Wrappers
  import opened Inventory
  import opened Recipes
  import opened Goals
  import opened Successors
  import opened Heuristics

  /** A predecessor record: the sentinel of the initial state, or the state and action it was reached by. */
  datatype Link = Root | From(prev: State, action: string)

  /** A queue entry: priority (cost so far plus heuristic) and state. */
  datatype Entry = Entry(priority: Estimate, state: State)

  /**
   * What a search returns: a plan of (state, action) pairs from the first
   * action to the goal with its recorded cost, a failure once the queue is
   * empty or the iteration budget is spent, or the heuristic's failure.
   */
  datatype Outcome = Plan(steps: seq<(State, string)>, cost: nat) | Failed | Crashed(error: HeurError)

  /** The order on priorities: numbers below infinity. */
  predicate AtMost(a: Estimate, b: Estimate) {
    b.Infinite? || (a.Finite? && a.cost <= b.cost)
  }

  /** Cost so far plus heuristic; infinity absorbs. */
  function Plus(g: nat, h: Estimate): Estimate {
    if h.Finite? then Finite(g + h.cost) else Infinite
  }

  /** A successor of `p` named `a` leads to `x`, and its cost added to `gp` stays within `gx`. */
  ghost predicate EdgeFits(rs: seq<Recipe>, p: State, a: string, x: State, gp: nat, gx: nat) {
    exists e | e in Graph(rs, p) :: e.name == a && e.next == x && gp + e.cost <= gx
  }

  /**
   * The invariant of the search maps: the initial state keeps cost 0 and the
   * sentinel, every other recorded state has a predecessor, and each link
   * (p, a) of x is a successor edge of p whose cost fits between the
   * recorded costs of p and x.
   */
  ghost predicate Consistent(rs: seq<Recipe>, init: State, costs: map<State, nat>, links: map<State, Link>) {
    && init in costs && costs[init] == 0
    && links.Keys == costs.Keys
    && links[init] == Root
    && (forall x | x in links && links[x].Root? :: x == init)
    && (forall x | x in links && links[x].From? ::
          links[x].prev in costs && EdgeFits(rs, links[x].prev, links[x].action, x, costs[links[x].prev], costs[x]))
  }

  /** A sequence of (state, action) pairs that walks successor edges from `start`. */
  ghost predicate ValidPath(rs: seq<Recipe>, start: State, steps: seq<(State, string)>)
    decreases |steps|
  {
    steps == [] || (Step(rs, start, steps[0].1, steps[0].0) && ValidPath(rs, steps[0].0, steps[1..]))
  }

  /**
   * The path can be walked from `start` along successor edges whose times
   * add up to at most `t`.
   */
  ghost predicate WalkWithin(rs: seq<Recipe>, start: State, steps: seq<(State, string)>, t: int)
    decreases |steps|
  {
    if steps == [] then 0 <= t
    else exists e | e in Graph(rs, start) ::
      e.name == steps[0].1 && e.next == steps[0].0 && WalkWithin(rs, steps[0].0, steps[1..], t - e.cost)
  }

  /** A walk within some time is also within any larger time. */
  lemma {:induction false} WalkWithinLooser(rs: seq<Recipe>, start: State, steps: seq<(State, string)>, t: int, t': int)
    requires WalkWithin(rs, start, steps, t) && t <= t'
    ensures WalkWithin(rs, start, steps, t')
    decreases |steps|
  {
    if steps != [] {
      var e :| e in Graph(rs, start) && e.name == steps[0].1 && e.next == steps[0].0
               && WalkWithin(rs, steps[0].0, steps[1..], t - e.cost);
      WalkWithinLooser(rs, steps[0].0, steps[1..], t - e.cost, t' - e.cost);
    }
  }

  /**
   * Prepending a link that fits between the costs of its two ends: the walk
   * gains a step, its time budget grows by the cost difference, and with
   * positive times the predecessor is strictly cheaper.
   */
  lemma PrependLink(rs: seq<Recipe>, p: State, a: string, x: State, steps: seq<(State, string)>, gp: nat, gx: nat, t: int)
    requires PositiveTimes(rs) && EdgeFits(rs, p, a, x, gp, gx)
    requires WalkWithin(rs, x, steps, t - gx) && ValidPath(rs, x, steps)
    ensures WalkWithin(rs, p, [(x, a)] + steps, t - gp)
    ensures ValidPath(rs, p, [(x, a)] + steps)
    ensures Last(p, [(x, a)] + steps) == Last(x, steps)
    ensures gp < gx
  {
    var w :| w in Graph(rs, p) && w.name == a && w.next == x && gp + w.cost <= gx;
    assert w.cost > 0 by {
      GraphSound(rs, p);
      var r :| r in rs && Applicable(r, p) && w == SuccOf(r, p);
    }
    WalkWithinLooser(rs, x, steps, t - gx, t - gp - w.cost);
    var sp := [(x, a)] + steps;
    assert sp[0] == (x, a) && sp[1..] == steps;
    assert WalkWithin(rs, sp[0].0, sp[1..], t - gp - w.cost);
    assert Step(rs, p, a, x);
  }

  /** The state a path ends in. */
  function Last(start: State, steps: seq<(State, string)>): State {
    if steps == [] then start else steps[|steps| - 1].0
  }

  /** The position of the first entry of least priority. */
  function FirstMin(q: seq<Entry>): (m: nat)
    requires q != []
    ensures m < |q|
    ensures forall j | 0 <= j < |q| :: AtMost(q[m].priority, q[j].priority)
    ensures forall j | 0 <= j < m :: !AtMost(q[j].priority, q[m].priority)
  {
    if |q| == 1 then 0
    else
      var init := q[..|q| - 1];
      var m := FirstMin(init);
      assert forall j | 0 <= j < |init| :: init[j] == q[j];
      if AtMost(q[m].priority, q[|q| - 1].priority) then m else |q| - 1
  }

  /** Removes the first entry of least priority from the queue. */
  method PopMin(q: seq<Entry>) returns (e: Entry, rest: seq<Entry>)
    requires q != []
    ensures e == q[FirstMin(q)] && rest == q[..FirstMin(q)] + q[FirstMin(q) + 1..]
    ensures multiset(q) == multiset(rest) + multiset{e}
    ensures forall x | x in q :: AtMost(e.priority, x.priority)
  {
    var m := 0;
    for i := 1 to |q|
      invariant m == FirstMin(q[..i])
    {
      FirstMinExtend(q, i);
      if !AtMost(q[m].priority, q[i].priority) {
        m := i;
      }
    }
    assert q[..|q|] == q;
    e := q[m];
    rest := q[..m] + q[m + 1..];
    RemoveAt(q, m);
  }

  /** The first least entry of a longer prefix: the old one unless the new entry is strictly less. */
  lemma FirstMinExtend(q: seq<Entry>, i: nat)
    requires 0 < i < |q|
    ensures var m := FirstMin(q[..i]);
      m < i && FirstMin(q[..i + 1]) == if AtMost(q[m].priority, q[i].priority) then m else i
  {
    assert q[..i + 1][..i] == q[..i];
    var m := FirstMin(q[..i]);
    assert q[..i][m] == q[m];
  }

  /** Taking out the entry at `m` leaves the rest of the multiset. */
  lemma RemoveAt(q: seq<Entry>, m: nat)
    requires m < |q|
    ensures multiset(q) == multiset(q[..m] + q[m + 1..]) + multiset{q[m]}
  {
    assert q == q[..m] + [q[m]] + q[m + 1..];
  }

  /** An edge that fits between two costs still fits when the start gets cheaper. */
  lemma EdgeFitsLooser(rs: seq<Recipe>, p: State, a: string, x: State, gp: nat, gx: nat, gp': nat, gx': nat)
    requires EdgeFits(rs, p, a, x, gp, gx) && gp' <= gp && gx <= gx'
    ensures EdgeFits(rs, p, a, x, gp', gx')
  {
    var w :| w in Graph(rs, p) && w.name == a && w.next == x && gp + w.cost <= gx;
    assert gp' + w.cost <= gx';
  }

  /** Recording a strict improvement through a successor edge keeps the maps consistent. */
  lemma ConsistentAfterImprovement(rs: seq<Recipe>, init: State, costs: map<State, nat>, links: map<State, Link>,
                                   cur: State, e: Succ, newCost: nat)
    requires Consistent(rs, init, costs, links)
    requires cur in costs && e in Graph(rs, cur) && newCost == costs[cur] + e.cost
    requires e.next !in costs || newCost < costs[e.next]
    ensures Consistent(rs, init, costs[e.next := newCost], links[e.next := From(cur, e.name)])
  {
    var costs', links' := costs[e.next := newCost], links[e.next := From(cur, e.name)];
    assert e.next != init;
    assert cur != e.next;
    assert links'.Keys == links.Keys + {e.next} && costs'.Keys == costs.Keys + {e.next};
    forall x | x in links' && links'[x].Root? ensures x == init {
      assert x != e.next;
    }
    forall x | x in links' && links'[x].From?
      ensures links'[x].prev in costs' && EdgeFits(rs, links'[x].prev, links'[x].action, x, costs'[links'[x].prev], costs'[x])
    {
      if x == e.next {
        assert EdgeFits(rs, cur, e.name, x, costs'[cur], costs'[x]);
      } else {
        var p := links[x].prev;
        EdgeFitsLooser(rs, p, links[x].action, x, costs[p], costs[x], costs'[p], costs'[x]);
      }
    }
  }

  /** Every queued state has a recorded cost. */
  predicate Queued(q: seq<Entry>, costs: map<State, nat>) {
    forall x | x in q :: x.state in costs
  }

  /** The search maps are consistent and every queued state has a recorded cost. */
  ghost predicate Bookkeeping(rs: seq<Recipe>, init: State, costs: map<State, nat>, links: map<State, Link>, q: seq<Entry>) {
    Consistent(rs, init, costs, links) && Queued(q, costs)
  }

  /**
   * How the maps may evolve while a state is expanded: entries are only
   * appended to the queue, and recorded costs only appear or decrease.
   */
  ghost predicate Progress(costs: map<State, nat>, q: seq<Entry>, costs': map<State, nat>, q': seq<Entry>) {
    && |q| <= |q'| && q'[..|q|] == q
    && costs.Keys <= costs'.Keys && forall x | x in costs :: costs'[x] <= costs[x]
  }

  lemma ProgressTrans(c0: map<State, nat>, q0: seq<Entry>, c1: map<State, nat>, q1: seq<Entry>, c2: map<State, nat>, q2: seq<Entry>)
    requires Progress(c0, q0, c1, q1) && Progress(c1, q1, c2, q2)
    ensures Progress(c0, q0, c2, q2)
  {
    assert q2[..|q0|] == q2[..|q1|][..|q0|];
  }

  /**
   * Bounds established on recorded costs survive a step that only lowers
   * costs, and the step adds the bound of successor `n`.
   */
  lemma BoundsExtend(succs: seq<Succ>, bound: nat, n: nat, c1: map<State, nat>, q1: seq<Entry>, c2: map<State, nat>, q2: seq<Entry>)
    requires n < |succs| && Progress(c1, q1, c2, q2)
    requires forall j | 0 <= j < n :: succs[j].next in c1 && c1[succs[j].next] <= bound + succs[j].cost
    requires succs[n].next in c2 && c2[succs[n].next] <= bound + succs[n].cost
    ensures forall j | 0 <= j < n + 1 :: succs[j].next in c2 && c2[succs[j].next] <= bound + succs[j].cost
  {
  }

  /** The search maps: costs so far, predecessor links and the queue. */
  datatype Frontier = Frontier(costs: map<State, nat>, links: map<State, Link>, queue: seq<Entry>)

  /** Reaching `e.next` through `current` is new, or strictly cheaper than its recorded cost. */
  predicate Improves(costs: map<State, nat>, current: State, e: Succ)
    requires current in costs
  {
    e.next !in costs || costs[current] + e.cost < costs[e.next]
  }

  /**
   * One successor edge `e` of `current`: on an improvement, the cost through
   * `current` and the link from `current` are recorded for `e.next`, and
   * `e.next` is queued with that cost plus its heuristic value; otherwise
   * nothing changes. A failing heuristic stops the search.
   */
  function ConsiderStep(c: Crafting, current: State, e: Succ, f: Frontier, relaxFuel: nat): Result<Frontier, HeurError>
    requires current in f.costs
  {
    if !Improves(f.costs, current, e) then Ok(f)
    else
      var newCost := f.costs[current] + e.cost;
      match HeuristicValue(c, e.next, relaxFuel)
      case Err(err) => Err(err)
      case Ok(h) =>
        Ok(Frontier(f.costs[e.next := newCost], f.links[e.next := From(current, e.name)],
                    f.queue + [Entry(Plus(newCost, h), e.next)]))
  }

  /** The successors from index `i` on, considered in turn. */
  function ExpandFrom(c: Crafting, current: State, succs: seq<Succ>, i: nat, f: Frontier, relaxFuel: nat): Result<Frontier, HeurError>
    requires i <= |succs| && current in f.costs
    decreases |succs| - i
  {
    if i == |succs| then Ok(f)
    else match ConsiderStep(c, current, succs[i], f, relaxFuel)
      case Err(err) => Err(err)
      case Ok(f1) => ExpandFrom(c, current, succs, i + 1, f1, relaxFuel)
  }

  /** The compiled handling of one successor edge. */
  method Consider(c: Crafting, current: State, e: Succ, costs: map<State, nat>, links: map<State, Link>,
                  q: seq<Entry>, relaxFuel: nat)
    returns (costs': map<State, nat>, links': map<State, Link>, q': seq<Entry>, crash: Option<HeurError>)
    requires current in costs
    ensures var r := ConsiderStep(c, current, e, Frontier(costs, links, q), relaxFuel);
      && (crash.None? <==> r.Ok?)
      && (r.Err? ==> crash == Some(r.error))
      && (r.Ok? ==> Frontier(costs', links', q') == r.value)
    ensures crash.Some? ==> costs' == costs && links' == links && q' == q
    ensures !Improves(costs, current, e) ==> crash.None? && costs' == costs && links' == links && q' == q
    ensures Improves(costs, current, e) ==>
      var newCost := costs[current] + e.cost;
      var h := HeuristicValue(c, e.next, relaxFuel);
      && (crash.Some? <==> h.Err?)
      && (h.Ok? ==> && costs' == costs[e.next := newCost]
                    && links' == links[e.next := From(current, e.name)]
                    && q' == q + [Entry(Plus(newCost, h.value), e.next)])
  {
    costs', links', q', crash := costs, links, q, None;
    var newCost := costs[current] + e.cost;
    ConsiderStepCases(c, current, e, Frontier(costs, links, q), relaxFuel);
    if e.next !in costs || newCost < costs[e.next] {
      var h := Heuristic(c, e.next, relaxFuel);
      if h.Err? {
        return costs', links', q', Some(h.error);
      }
      q' := q + [Entry(Plus(newCost, h.value), e.next)];
      links' := links[e.next := From(current, e.name)];
      costs' := costs[e.next := newCost];
    }
  }

  /** The three outcomes of one step, spelled out. */
  lemma ConsiderStepCases(c: Crafting, current: State, e: Succ, f: Frontier, relaxFuel: nat)
    requires current in f.costs
    ensures !Improves(f.costs, current, e) ==> ConsiderStep(c, current, e, f, relaxFuel) == Ok(f)
    ensures Improves(f.costs, current, e) && HeuristicValue(c, e.next, relaxFuel).Err? ==>
      ConsiderStep(c, current, e, f, relaxFuel) == Err(HeuristicValue(c, e.next, relaxFuel).error)
    ensures Improves(f.costs, current, e) && HeuristicValue(c, e.next, relaxFuel).Ok? ==>
      var newCost := f.costs[current] + e.cost;
      ConsiderStep(c, current, e, f, relaxFuel) ==
        Ok(Frontier(f.costs[e.next := newCost], f.links[e.next := From(current, e.name)],
                    f.queue + [Entry(Plus(newCost, HeuristicValue(c, e.next, relaxFuel).value), e.next)]))
  {
  }

  /** A successful step keeps the search maps consistent. */
  lemma ConsiderStepConsistent(c: Crafting, init: State, current: State, e: Succ, f: Frontier, relaxFuel: nat)
    requires Consistent(c.recipes, init, f.costs, f.links) && current in f.costs && e in Graph(c.recipes, current)
    requires ConsiderStep(c, current, e, f, relaxFuel).Ok?
    ensures var g := ConsiderStep(c, current, e, f, relaxFuel).value; Consistent(c.recipes, init, g.costs, g.links)
  {
    ConsiderStepCases(c, current, e, f, relaxFuel);
    if Improves(f.costs, current, e) {
      var newCost := f.costs[current] + e.cost;
      ConsistentAfterImprovement(c.recipes, init, f.costs, f.links, current, e, newCost);
      var g := ConsiderStep(c, current, e, f, relaxFuel).value;
      assert g.costs == f.costs[e.next := newCost] && g.links == f.links[e.next := From(current, e.name)];
    }
  }

  /**
   * A successful step keeps every queued state recorded, only appends to the
   * queue, only lowers or adds costs, keeps the cost of `current` and
   * leaves `e.next` recorded within its cost through `current`.
   */
  lemma ConsiderStepProgress(c: Crafting, current: State, e: Succ, f: Frontier, relaxFuel: nat)
    requires Queued(f.queue, f.costs) && current in f.costs
    requires ConsiderStep(c, current, e, f, relaxFuel).Ok?
    ensures var g := ConsiderStep(c, current, e, f, relaxFuel).value;
      && Queued(g.queue, g.costs)
      && Progress(f.costs, f.queue, g.costs, g.queue)
      && current in g.costs && g.costs[current] == f.costs[current]
      && e.next in g.costs && g.costs[e.next] <= f.costs[current] + e.cost
  {
    ConsiderStepCases(c, current, e, f, relaxFuel);
    if Improves(f.costs, current, e) {
      var g := ConsiderStep(c, current, e, f, relaxFuel).value;
      assert g.queue[..|f.queue|] == f.queue;
    }
  }

  /**
   * Expanding `current`: every successor, in the order they are generated,
   * is considered in turn; afterwards each successor's recorded cost is at
   * most its cost through `current`, and no recorded cost has increased.
   */
  method Expand(c: Crafting, ghost init: State, current: State, costs: map<State, nat>, links: map<State, Link>,
                q: seq<Entry>, relaxFuel: nat)
    returns (costs': map<State, nat>, links': map<State, Link>, q': seq<Entry>, crash: Option<HeurError>)
    requires Bookkeeping(c.recipes, init, costs, links, q) && current in costs
    ensures var r := ExpandFrom(c, current, Graph(c.recipes, current), 0, Frontier(costs, links, q), relaxFuel);
      && (crash.None? <==> r.Ok?)
      && (r.Err? ==> crash == Some(r.error))
      && (r.Ok? ==> Frontier(costs', links', q') == r.value)
    ensures Bookkeeping(c.recipes, init, costs', links', q')
    ensures Progress(costs, q, costs', q')
    ensures current in costs' && costs'[current] == costs[current]
    ensures crash.None? ==>
      forall e | e in Graph(c.recipes, current) :: e.next in costs' && costs'[e.next] <= costs[current] + e.cost
    ensures crash.None? ==> NothingElse(Graph(c.recipes, current), Frontier(costs, links, q), Frontier(costs', links', q'))
    ensures crash.None? ==> QueuedAt(c, Graph(c.recipes, current), costs[current], |q|, q', relaxFuel)
  {
    var succs := Graph(c.recipes, current);
    ghost var f0 := Frontier(costs, links, q);
    costs', links', q', crash := costs, links, q, None;
    for i := 0 to |succs|
      invariant Bookkeeping(c.recipes, init, costs', links', q')
      invariant Progress(costs, q, costs', q')
      invariant current in costs' && costs'[current] == costs[current]
      invariant forall j | 0 <= j < i :: succs[j].next in costs' && costs'[succs[j].next] <= costs[current] + succs[j].cost
      invariant crash.None?
      invariant ExpandFrom(c, current, succs, 0, f0, relaxFuel) == ExpandFrom(c, current, succs, i, Frontier(costs', links', q'), relaxFuel)
    {
      ghost var f1 := Frontier(costs', links', q');
      costs', links', q', crash := Consider(c, current, succs[i], costs', links', q', relaxFuel);
      if crash.Some? {
        assert ExpandFrom(c, current, succs, i, f1, relaxFuel) == Err(crash.value);
        return;
      }
      ConsiderStepConsistent(c, init, current, succs[i], f1, relaxFuel);
      ConsiderStepProgress(c, current, succs[i], f1, relaxFuel);
      ProgressTrans(costs, q, f1.costs, f1.queue, costs', q');
      BoundsExtend(succs, costs[current], i, f1.costs, f1.queue, costs', q');
    }
    ExpandNothingElse(c, current, f0, relaxFuel);
    ExpandQueuedAt(c, current, f0, relaxFuel);
  }

  /** A state that no successor edge reaches keeps its presence, its recorded cost and its link. */
  ghost predicate NothingElse(succs: seq<Succ>, f: Frontier, g: Frontier) {
    forall x | (forall e | e in succs :: e.next != x) ::
      && (x in g.costs <==> x in f.costs)
      && (x in f.costs ==> g.costs[x] == f.costs[x])
      && (x in f.links ==> x in g.links && g.links[x] == f.links[x])
  }

  /**
   * Every queue entry from index `from` on is for the end of a successor edge,
   * at the edge's cost through a state of cost `g` plus the end's heuristic value.
   */
  ghost predicate QueuedAt(c: Crafting, succs: seq<Succ>, g: nat, from: nat, q: seq<Entry>, relaxFuel: nat) {
    forall n | from <= n < |q| :: QueuedFor(c, succs, g, q[n], relaxFuel)
  }

  /** `x` is queued for the end of a successor edge, at the edge's cost through a state of cost `g` plus the end's heuristic value. */
  ghost predicate QueuedFor(c: Crafting, succs: seq<Succ>, g: nat, x: Entry, relaxFuel: nat) {
    exists e | e in succs ::
      && x.state == e.next
      && HeuristicValue(c, e.next, relaxFuel).Ok?
      && x.priority == Plus(g + e.cost, HeuristicValue(c, e.next, relaxFuel).value)
  }

  /** A whole successful expansion changes nothing but the successor states. */
  lemma ExpandNothingElse(c: Crafting, current: State, f: Frontier, relaxFuel: nat)
    requires current in f.costs && ExpandFrom(c, current, Graph(c.recipes, current), 0, f, relaxFuel).Ok?
    ensures NothingElse(Graph(c.recipes, current), f, ExpandFrom(c, current, Graph(c.recipes, current), 0, f, relaxFuel).value)
  {
    var succs := Graph(c.recipes, current);
    var g := ExpandFrom(c, current, succs, 0, f, relaxFuel).value;
    forall x | (forall e | e in succs :: e.next != x)
      ensures && (x in g.costs <==> x in f.costs)
              && (x in f.costs ==> g.costs[x] == f.costs[x])
              && (x in f.links ==> x in g.links && g.links[x] == f.links[x])
    {
      forall j | 0 <= j < |succs| ensures succs[j].next != x {
        assert succs[j] in succs;
      }
      ExpandFromFrame(c, current, succs, 0, f, relaxFuel, x);
    }
  }

  /** A whole successful expansion queues only successor states, each at its cost through `current` plus its heuristic value. */
  lemma ExpandQueuedAt(c: Crafting, current: State, f: Frontier, relaxFuel: nat)
    requires current in f.costs && ExpandFrom(c, current, Graph(c.recipes, current), 0, f, relaxFuel).Ok?
    ensures QueuedAt(c, Graph(c.recipes, current), f.costs[current], |f.queue|,
                     ExpandFrom(c, current, Graph(c.recipes, current), 0, f, relaxFuel).value.queue, relaxFuel)
  {
    var succs := Graph(c.recipes, current);
    var g := ExpandFrom(c, current, succs, 0, f, relaxFuel).value;
    ExpandFromQueue(c, current, succs, 0, f, relaxFuel);
    forall n | |f.queue| <= n < |g.queue|
      ensures QueuedFor(c, succs, f.costs[current], g.queue[n], relaxFuel)
    {
      var j :| 0 <= j < |succs| && g.queue[n].state == succs[j].next
        && HeuristicValue(c, succs[j].next, relaxFuel).Ok?
        && g.queue[n].priority == Plus(f.costs[current] + succs[j].cost, HeuristicValue(c, succs[j].next, relaxFuel).value);
      var e := succs[j];
      assert e in succs && g.queue[n].state == e.next && HeuristicValue(c, e.next, relaxFuel).Ok?;
    }
  }

  /**
   * Frame of an expansion: a state that no remaining successor reaches keeps
   * its presence, its recorded cost and its link.
   */
  lemma {:induction false} ExpandFromFrame(c: Crafting, current: State, succs: seq<Succ>, i: nat, f: Frontier, relaxFuel: nat, x: State)
    requires i <= |succs| && current in f.costs && ExpandFrom(c, current, succs, i, f, relaxFuel).Ok?
    requires forall j | i <= j < |succs| :: succs[j].next != x
    ensures var g := ExpandFrom(c, current, succs, i, f, relaxFuel).value;
      && (x in g.costs <==> x in f.costs)
      && (x in f.costs ==> g.costs[x] == f.costs[x])
      && (x in f.links ==> x in g.links && g.links[x] == f.links[x])
    decreases |succs| - i
  {
    if i < |succs| {
      var f1 := ConsiderStep(c, current, succs[i], f, relaxFuel).value;
      ExpandFromFrame(c, current, succs, i + 1, f1, relaxFuel, x);
    }
  }

  /**
   * What an expansion queues: the old queue stays in front, and every entry
   * appended is a successor state whose priority is its new recorded cost
   * plus its heuristic value at the time it was queued.
   */
  lemma {:induction false} ExpandFromQueue(c: Crafting, current: State, succs: seq<Succ>, i: nat, f: Frontier, relaxFuel: nat)
    requires i <= |succs| && current in f.costs && ExpandFrom(c, current, succs, i, f, relaxFuel).Ok?
    ensures var g := ExpandFrom(c, current, succs, i, f, relaxFuel).value;
      && |f.queue| <= |g.queue| && g.queue[..|f.queue|] == f.queue
      && forall n | |f.queue| <= n < |g.queue| :: exists j | i <= j < |succs| ::
           && g.queue[n].state == succs[j].next
           && HeuristicValue(c, succs[j].next, relaxFuel).Ok?
           && g.queue[n].priority == Plus(f.costs[current] + succs[j].cost, HeuristicValue(c, succs[j].next, relaxFuel).value)
    decreases |succs| - i
  {
    if i < |succs| {
      var e := succs[i];
      ConsiderStepQueue(c, current, e, f, relaxFuel);
      var f1 := ConsiderStep(c, current, e, f, relaxFuel).value;
      ExpandFromQueue(c, current, succs, i + 1, f1, relaxFuel);
      var g := ExpandFrom(c, current, succs, i, f, relaxFuel).value;
      assert g == ExpandFrom(c, current, succs, i + 1, f1, relaxFuel).value;
      assert g.queue[..|f1.queue|][..|f.queue|] == g.queue[..|f.queue|];
      forall n | |f.queue| <= n < |g.queue|
        ensures exists j | i <= j < |succs| ::
          && g.queue[n].state == succs[j].next
          && HeuristicValue(c, succs[j].next, relaxFuel).Ok?
          && g.queue[n].priority == Plus(f.costs[current] + succs[j].cost, HeuristicValue(c, succs[j].next, relaxFuel).value)
      {
        if n < |f1.queue| {
          assert g.queue[n] == f1.queue[n];
          assert succs[i] == e;
        }
      }
    }
  }

  /**
   * What one considered edge queues: the old queue stays in front, and an
   * entry it appends is for the edge's end, at its cost through `current`
   * plus its heuristic value.
   */
  lemma ConsiderStepQueue(c: Crafting, current: State, e: Succ, f: Frontier, relaxFuel: nat)
    requires current in f.costs && ConsiderStep(c, current, e, f, relaxFuel).Ok?
    ensures var g := ConsiderStep(c, current, e, f, relaxFuel).value;
      && current in g.costs && g.costs[current] == f.costs[current]
      && |f.queue| <= |g.queue| && g.queue[..|f.queue|] == f.queue
      && forall n | |f.queue| <= n < |g.queue| ::
           && g.queue[n].state == e.next
           && HeuristicValue(c, e.next, relaxFuel).Ok?
           && g.queue[n].priority == Plus(f.costs[current] + e.cost, HeuristicValue(c, e.next, relaxFuel).value)
  {
    ConsiderStepCases(c, current, e, f, relaxFuel);
    if Improves(f.costs, current, e) {
      var g := ConsiderStep(c, current, e, f, relaxFuel).value;
      assert g.queue[..|f.queue|] == f.queue;
    }
  }

  /** An expansion keeps every queued state recorded. */
  lemma {:induction false} ExpandFromQueued(c: Crafting, current: State, succs: seq<Succ>, i: nat, f: Frontier, relaxFuel: nat)
    requires i <= |succs| && current in f.costs && Queued(f.queue, f.costs)
    requires ExpandFrom(c, current, succs, i, f, relaxFuel).Ok?
    ensures Queued(ExpandFrom(c, current, succs, i, f, relaxFuel).value.queue, ExpandFrom(c, current, succs, i, f, relaxFuel).value.costs)
    decreases |succs| - i
  {
    if i < |succs| {
      var f1 := ConsiderStep(c, current, succs[i], f, relaxFuel).value;
      ExpandFromQueued(c, current, succs, i + 1, f1, relaxFuel);
    }
  }

  /**
   * The state of the walk back from `goal`: `steps` leads from `cur` to
   * `goal` along successor edges, within the difference of their recorded
   * costs, and has at most that many steps.
   */
  ghost predicate Trail(rs: seq<Recipe>, costs: map<State, nat>, goal: State, cur: State, steps: seq<(State, string)>)
    requires goal in costs
  {
    && cur in costs
    && ValidPath(rs, cur, steps) && Last(cur, steps) == goal
    && costs[cur] + |steps| <= costs[goal]
    && WalkWithin(rs, cur, steps, costs[goal] - costs[cur])
  }

  /** Following the link of `cur` extends the trail by one step to a strictly cheaper state. */
  lemma TrailStep(rs: seq<Recipe>, init: State, costs: map<State, nat>, links: map<State, Link>, goal: State,
                  cur: State, steps: seq<(State, string)>)
    requires PositiveTimes(rs) && Consistent(rs, init, costs, links) && goal in costs
    requires Trail(rs, costs, goal, cur, steps) && links[cur].From?
    ensures links[cur].prev in costs && costs[links[cur].prev] < costs[cur]
    ensures Trail(rs, costs, goal, links[cur].prev, [(cur, links[cur].action)] + steps)
  {
    var p, a := links[cur].prev, links[cur].action;
    assert p in costs && EdgeFits(rs, p, a, cur, costs[p], costs[cur]);
    PrependLink(rs, p, a, cur, steps, costs[p], costs[cur], costs[goal]);
  }

  /** The trail that reaches the sentinel starts at the initial state. */
  lemma TrailAtRoot(rs: seq<Recipe>, init: State, costs: map<State, nat>, links: map<State, Link>, goal: State,
                    cur: State, steps: seq<(State, string)>)
    requires Consistent(rs, init, costs, links) && goal in costs
    requires Trail(rs, costs, goal, cur, steps) && links[cur].Root?
    ensures cur == init
    ensures ValidPath(rs, init, steps) && Last(init, steps) == goal
    ensures WalkWithin(rs, init, steps, costs[goal])
    ensures |steps| <= costs[goal]
  {
  }

  /** `x` is recorded with a link to `p` by action `a`. */
  predicate LinkedFrom(links: map<State, Link>, x: State, p: State, a: string) {
    x in links && links[x] == From(p, a)
  }

  /**
   * Each step of the path is recorded with a link to the state before it
   * (`start` for the first step) and the step's action.
   */
  ghost predicate FollowsLinks(links: map<State, Link>, start: State, steps: seq<(State, string)>) {
    && (steps != [] ==> LinkedFrom(links, steps[0].0, start, steps[0].1))
    && forall i | 0 < i < |steps| :: LinkedFrom(links, steps[i].0, steps[i - 1].0, steps[i].1)
  }

  /** A path that follows the links from `x` still does after prepending the link of `x`. */
  lemma FollowsLinksPrepend(links: map<State, Link>, x: State, steps: seq<(State, string)>)
    requires FollowsLinks(links, x, steps) && x in links && links[x].From?
    ensures FollowsLinks(links, links[x].prev, [(x, links[x].action)] + steps)
  {
    var sp := [(x, links[x].action)] + steps;
    forall i | 0 < i < |sp| ensures LinkedFrom(links, sp[i].0, sp[i - 1].0, sp[i].1) {
      assert sp[i] == steps[i - 1];
      if i > 1 {
        assert sp[i - 1] == steps[i - 2];
      }
    }
  }

  /** A non-empty walk along the links cannot end at a state whose link is the sentinel. */
  lemma LinkedWalkLeaves(links: map<State, Link>, x: State, steps: seq<(State, string)>)
    requires FollowsLinks(links, x, steps) && steps != []
    ensures Last(x, steps) in links && links[Last(x, steps)].From?
  {
    var n := |steps| - 1;
    if n > 0 {
      assert LinkedFrom(links, steps[n].0, steps[n - 1].0, steps[n].1);
    }
  }

  /**
   * The links determine the walk: two walks along them from the state that
   * holds the sentinel, ending at the same state, are the same walk.
   */
  lemma {:induction false} FollowsLinksUnique(links: map<State, Link>, init: State, s1: seq<(State, string)>, s2: seq<(State, string)>)
    requires init in links && links[init] == Root
    requires FollowsLinks(links, init, s1) && FollowsLinks(links, init, s2) && Last(init, s1) == Last(init, s2)
    ensures s1 == s2
    decreases |s1| + |s2|
  {
    if s1 != [] && s2 != [] {
      var n1, n2 := |s1| - 1, |s2| - 1;
      var g := s1[n1].0;
      var p1, p2 := s1[..n1], s2[..n2];
      assert LinkedFrom(links, g, Last(init, p1), s1[n1].1) by {
        if n1 > 0 { assert LinkedFrom(links, s1[n1].0, s1[n1 - 1].0, s1[n1].1); }
      }
      assert LinkedFrom(links, g, Last(init, p2), s2[n2].1) by {
        if n2 > 0 { assert LinkedFrom(links, s2[n2].0, s2[n2 - 1].0, s2[n2].1); }
      }
      assert FollowsLinks(links, init, p1) by {
        forall i | 0 < i < |p1| ensures LinkedFrom(links, p1[i].0, p1[i - 1].0, p1[i].1) {
          assert p1[i] == s1[i] && p1[i - 1] == s1[i - 1];
        }
      }
      assert FollowsLinks(links, init, p2) by {
        forall i | 0 < i < |p2| ensures LinkedFrom(links, p2[i].0, p2[i - 1].0, p2[i].1) {
          assert p2[i] == s2[i] && p2[i - 1] == s2[i - 1];
        }
      }
      FollowsLinksUnique(links, init, p1, p2);
      assert s1 == p1 + [s1[n1]] && s2 == p2 + [s2[n2]];
    } else {
      if s1 != [] { LinkedWalkLeaves(links, init, s1); }
      if s2 != [] { LinkedWalkLeaves(links, init, s2); }
    }
  }

  /**
   * Walks the predecessor links back from `goal` to the sentinel. With
   * positive recipe times every link leads to a strictly cheaper state, so
   * the walk ends, and it ends at the initial state.
   */
  method Reconstruct(rs: seq<Recipe>, ghost init: State, costs: map<State, nat>, links: map<State, Link>, goal: State)
    returns (steps: seq<(State, string)>)
    requires PositiveTimes(rs) && Consistent(rs, init, costs, links) && goal in costs
    ensures ValidPath(rs, init, steps) && Last(init, steps) == goal
    ensures WalkWithin(rs, init, steps, costs[goal])
    ensures |steps| <= costs[goal]
    ensures goal == init ==> steps == []
    ensures FollowsLinks(links, init, steps)
  {
    var cur := goal;
    steps := [];
    while links[cur] != Root
      invariant Trail(rs, costs, goal, cur, steps)
      invariant cur == goal ==> steps == []
      invariant FollowsLinks(links, cur, steps)
      decreases costs[cur]
    {
      TrailStep(rs, init, costs, links, goal, cur, steps);
      FollowsLinksPrepend(links, cur, steps);
      steps := [(cur, links[cur].action)] + steps;
      cur := links[cur].prev;
    }
    TrailAtRoot(rs, init, costs, links, goal, cur, steps);
  }

  /** Why the search loop stopped; at a popped goal, the maps at that moment. */
  datatype Halt =
    | QueueEmpty
    | BudgetSpent
    | HeuristicFailed(error: HeurError)
    | GoalPopped(goal: State, costs: map<State, nat>, links: map<State, Link>)

  /** What one iteration leads to: the loop stops, or goes on with new maps. */
  datatype Next = Stop(halt: Halt) | Go(frontier: Frontier)

  /**
   * One iteration on a non-empty queue: the first entry of least priority
   * is popped; a goal state stops the loop, and any other state is expanded.
   */
  function Advance(c: Crafting, goal: map<Item, int>, q: seq<Entry>, costs: map<State, nat>, links: map<State, Link>, relaxFuel: nat): (n: Next)
    requires Queued(q, costs) && q != []
    ensures n.Stop? && n.halt.GoalPopped? ==> n.halt.goal in n.halt.costs && GoalMet(goal, n.halt.goal)
    ensures n.Go? ==> Queued(n.frontier.queue, n.frontier.costs)
  {
    var m := FirstMin(q);
    var top, rest := q[m], q[..m] + q[m + 1..];
    if GoalMet(goal, top.state) then Stop(GoalPopped(top.state, costs, links))
    else
      assert Queued(rest, costs) by {
        assert forall x | x in rest :: x in q;
      }
      match ExpandFrom(c, top.state, Graph(c.recipes, top.state), 0, Frontier(costs, links, rest), relaxFuel)
      case Err(err) => Stop(HeuristicFailed(err))
      case Ok(f) =>
        ExpandFromQueued(c, top.state, Graph(c.recipes, top.state), 0, Frontier(costs, links, rest), relaxFuel);
        Go(f)
  }

  /**
   * The search loop from a queue and its maps with `budget` iterations
   * left: it stops when the queue is empty or the budget is spent, and
   * otherwise takes one more iteration.
   */
  function Run(c: Crafting, goal: map<Item, int>, q: seq<Entry>, costs: map<State, nat>, links: map<State, Link>, budget: nat, relaxFuel: nat): (h: Halt)
    requires Queued(q, costs)
    ensures h.GoalPopped? ==> h.goal in h.costs && GoalMet(goal, h.goal)
    decreases budget
  {
    if q == [] then QueueEmpty
    else if budget == 0 then BudgetSpent
    else match Advance(c, goal, q, costs, links, relaxFuel)
      case Stop(h) => h
      case Go(f) => Run(c, goal, f.queue, f.costs, f.links, budget - 1, relaxFuel)
  }

  /** The ways the loop stops before popping, spelled out. */
  lemma RunStops(c: Crafting, goal: map<Item, int>, q: seq<Entry>, costs: map<State, nat>, links: map<State, Link>, budget: nat, relaxFuel: nat)
    requires Queued(q, costs) && (q == [] || budget == 0)
    ensures Run(c, goal, q, costs, links, budget, relaxFuel) == if q == [] then QueueEmpty else BudgetSpent
  {
  }

  /** A loop with an entry queued and budget left takes one more iteration. */
  lemma RunAdvances(c: Crafting, goal: map<Item, int>, q: seq<Entry>, costs: map<State, nat>, links: map<State, Link>, budget: nat, relaxFuel: nat)
    requires Queued(q, costs) && q != [] && budget > 0
    ensures var n := Advance(c, goal, q, costs, links, relaxFuel);
      Run(c, goal, q, costs, links, budget, relaxFuel) ==
        if n.Stop? then n.halt else Run(c, goal, n.frontier.queue, n.frontier.costs, n.frontier.links, budget - 1, relaxFuel)
  {
  }

  /** One iteration of the loop, spelled out: popping a goal state stops, any other state is expanded. */
  lemma AdvanceCases(c: Crafting, goal: map<Item, int>, q: seq<Entry>, costs: map<State, nat>, links: map<State, Link>, relaxFuel: nat)
    requires Queued(q, costs) && q != []
    ensures var m := FirstMin(q);
      GoalMet(goal, q[m].state) ==> Advance(c, goal, q, costs, links, relaxFuel) == Stop(GoalPopped(q[m].state, costs, links))
    ensures var m := FirstMin(q);
      var rest := q[..m] + q[m + 1..];
      var r := ExpandFrom(c, q[m].state, Graph(c.recipes, q[m].state), 0, Frontier(costs, links, rest), relaxFuel);
      && Queued(rest, costs)
      && (!GoalMet(goal, q[m].state) && r.Err? ==> Advance(c, goal, q, costs, links, relaxFuel) == Stop(HeuristicFailed(r.error)))
      && (!GoalMet(goal, q[m].state) && r.Ok? ==> Advance(c, goal, q, costs, links, relaxFuel) == Go(r.value))
  {
    var m := FirstMin(q);
    var rest := q[..m] + q[m + 1..];
    assert forall x | x in rest :: x in q;
  }

  /**
   * How an outcome reports where the loop halted: a failure exactly when
   * the queue ran empty or the budget ran out, the heuristic's failure
   * with its error, and a plan exactly at a popped goal, with that goal's
   * recorded cost and the path its links spell out.
   */
  ghost predicate Reports(init: State, out: Outcome, h: Halt) {
    && (out.Failed? <==> h.QueueEmpty? || h.BudgetSpent?)
    && (out.Crashed? <==> h.HeuristicFailed?)
    && (out.Crashed? ==> out.error == h.error)
    && (out.Plan? ==> h.GoalPopped? && h.goal in h.costs && out.cost == h.costs[h.goal]
                      && Last(init, out.steps) == h.goal && FollowsLinks(h.links, init, out.steps))
  }

  /** A plan walks successor edges to a goal state within its cost. */
  ghost predicate Sound(rs: seq<Recipe>, goal: map<Item, int>, init: State, out: Outcome) {
    out.Plan? ==>
      && ValidPath(rs, init, out.steps) && GoalMet(goal, Last(init, out.steps))
      && WalkWithin(rs, init, out.steps, out.cost)
      && |out.steps| <= out.cost
  }

  /**
   * One iteration of the search loop on a non-empty queue: the first entry
   * of least priority is popped; a goal state ends the search with the
   * reconstructed plan and its recorded cost, a failing heuristic ends it
   * with that failure, and otherwise the state is expanded and the loop
   * goes on with one iteration less.
   */
  method Iterate(c: Crafting, goal: map<Item, int>, init: State, q: seq<Entry>, costs: map<State, nat>, links: map<State, Link>,
                 budget: nat, relaxFuel: nat, ghost h: Halt)
    returns (done: Option<Outcome>, q': seq<Entry>, costs': map<State, nat>, links': map<State, Link>, budget': nat)
    requires PositiveTimes(c.recipes) && Bookkeeping(c.recipes, init, costs, links, q) && q != [] && budget > 0
    requires h == Run(c, goal, q, costs, links, budget, relaxFuel)
    ensures done.None? ==> Bookkeeping(c.recipes, init, costs', links', q')
    ensures budget' == budget - 1
    ensures done.None? ==> h == Run(c, goal, q', costs', links', budget', relaxFuel)
    ensures done.Some? ==> !done.value.Failed? && Reports(init, done.value, h) && Sound(c.recipes, goal, init, done.value)
  {
    RunAdvances(c, goal, q, costs, links, budget, relaxFuel);
    AdvanceCases(c, goal, q, costs, links, relaxFuel);
    var top, rest := PopMin(q);
    var current := top.state;
    var atGoal := IsGoal(goal, current);
    if atGoal {
      var steps := Reconstruct(c.recipes, init, costs, links, current);
      return Some(Plan(steps, costs[current])), rest, costs, links, budget - 1;
    }
    var crash;
    costs', links', q', crash := Expand(c, init, current, costs, links, rest, relaxFuel);
    if crash.Some? {
      return Some(Crashed(crash.value)), q', costs', links', budget - 1;
    }
    done, budget' := None, budget - 1;
  }

  /**
   * The loop of the best-first search from a queue and its maps: it runs
   * while the queue is non-empty and the iteration budget lasts, and ends
   * with a plan or the heuristic's failure when an iteration does; it ends
   * with a failure when the loop condition fails.
   */
  method SearchFrom(c: Crafting, goal: map<Item, int>, init: State, q0: seq<Entry>, costs0: map<State, nat>, links0: map<State, Link>,
                    fuel: nat, relaxFuel: nat)
    returns (out: Outcome)
    requires PositiveTimes(c.recipes) && Bookkeeping(c.recipes, init, costs0, links0, q0)
    ensures Reports(init, out, Run(c, goal, q0, costs0, links0, fuel, relaxFuel))
    ensures Sound(c.recipes, goal, init, out)
  {
    var q, costs, links := q0, costs0, links0;
    var budget: nat := fuel;
    ghost var h0 := Run(c, goal, q, costs, links, fuel, relaxFuel);
    var done: Option<Outcome> := None;
    while done.None? && q != [] && budget > 0
      invariant done.None? ==> Bookkeeping(c.recipes, init, costs, links, q)
      invariant done.None? ==> h0 == Run(c, goal, q, costs, links, budget, relaxFuel)
      invariant done.Some? ==> !done.value.Failed? && Reports(init, done.value, h0) && Sound(c.recipes, goal, init, done.value)
      decreases budget, if done.None? then 1 else 0
    {
      var q', costs', links', budget';
      done, q', costs', links', budget' := Iterate(c, goal, init, q, costs, links, budget, relaxFuel, h0);
      if done.None? {
        q, costs, links, budget := q', costs', links', budget';
      }
    }
    if done.Some? {
      return done.value;
    }
    RunStops(c, goal, q, costs, links, budget, relaxFuel);
    return Failed;
  }

  /**
   * The best-first search: the initial state is queued with priority 0,
   * cost 0 and the sentinel link, and the loop runs from there.
   */
  method Search(c: Crafting, init: State, fuel: nat, relaxFuel: nat) returns (out: Outcome)
    requires PositiveTimes(c.recipes)
    ensures out.Plan? ==> ValidPath(c.recipes, init, out.steps) && GoalMet(ToMap(c.goal), Last(init, out.steps))
    ensures out.Plan? ==> WalkWithin(c.recipes, init, out.steps, out.cost)
    ensures out.Plan? ==> |out.steps| <= out.cost
    ensures GoalMet(ToMap(c.goal), init) && fuel > 0 ==> out == Plan([], 0)
    ensures var h := Run(c, ToMap(c.goal), [Entry(Finite(0), init)], map[init := 0], map[init := Root], fuel, relaxFuel);
      && (out.Failed? <==> h.QueueEmpty? || h.BudgetSpent?)
      && (out.Crashed? <==> h.HeuristicFailed?)
      && (out.Crashed? ==> out.error == h.error)
      && (out.Plan? ==> h.GoalPopped? && out.cost == h.costs[h.goal] && Last(init, out.steps) == h.goal
                        && FollowsLinks(h.links, init, out.steps))
    ensures Reports(init, out, Run(c, ToMap(c.goal), [Entry(Finite(0), init)], map[init := 0], map[init := Root], fuel, relaxFuel))
  {
    var goal := ToMap(c.goal);
    var q, costs, links := [Entry(Finite(0), init)], map[init := 0], map[init := Root];
    out := SearchFrom(c, goal, init, q, costs, links, fuel, relaxFuel);
    if GoalMet(goal, init) && fuel > 0 {
      InitialGoal(c, goal, init, fuel, relaxFuel);
    }
  }

  /** A goal-meeting initial state is popped in the first iteration. */
  lemma InitialGoal(c: Crafting, goal: map<Item, int>, init: State, fuel: nat, relaxFuel: nat)
    requires GoalMet(goal, init) && fuel > 0
    ensures Run(c, goal, [Entry(Finite(0), init)], map[init := 0], map[init := Root], fuel, relaxFuel)
              == GoalPopped(init, map[init := 0], map[init := Root])
  {
    var q := [Entry(Finite(0), init)];
    assert FirstMin(q) == 0;
    AdvanceCases(c, goal, q, map[init := 0], map[init := Root], relaxFuel);
    RunAdvances(c, goal, q, map[init := 0], map[init := Root], fuel, relaxFuel);
  }

  /**
   * Starting from a non-negative state with recipes that produce
   * non-negative amounts, every state on a valid path is non-negative.
   */
  lemma {:induction false} PathStaysNonNegative(rs: seq<Recipe>, start: State, steps: seq<(State, string)>)
    requires NonNegative(start) && NonNegativeYields(rs) && ValidPath(rs, start, steps)
    ensures forall i | 0 <= i < |steps| :: NonNegative(steps[i].0)
    decreases |steps|
  {
    if steps != [] {
      StepIsApplication(rs, start, steps[0].1, steps[0].0);
      var j :| 0 <= j < |rs| && rs[j].name == steps[0].1 && Applicable(rs[j], start) && Apply(rs[j], start) == steps[0].0;
      assert rs[j] in rs;
      ApplyPreservesNonNegative(rs[j], start);
      PathStaysNonNegative(rs, steps[0].0, steps[1..]);
      forall i | 0 <= i < |steps| ensures NonNegative(steps[i].0) {
        if i > 0 {
          assert steps[i] == steps[1..][i - 1];
        }
      }
    }
  }
}
