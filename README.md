# Crafting planner core in Dafny

This project models the search engine of a crafting planner, the core of `src/craft_planner.py`. Given a rule set of items, a goal and recipes, a best-first search finds a sequence of recipe applications that turns an initial inventory into one meeting the goal. Each recipe has a gate of required items, consumed items, produced items and a time.

The model follows the source's structure:

- `Inventory`: an inventory state is a partial map from item names to integers. State equality is map equality. `Copy` is the key-by-key copy of `State.copy`. `Dedup` gives the key order of a dictionary built by inserting names in sequence. `ToMap` turns a declared list of item amounts into a dictionary, as loading a JSON object does.
- `Recipes`: the recipe compiler.
  - `Check` is the applicability test (`make_checker`). It is proved equal to the predicate `Applicable`.
  - `Effect` is the forward effect (`make_effector`), proved equal to the function `Apply`.
  - `RevEffect` is the reverse step used by the heuristic (`make_rev_effector`), proved equal to `RevApply`. It returns `None` where the source raises a `KeyError`.
  - Lemmas give the per-key meaning of `Apply`, its frame, its preservation of non-negative inventories, and the round trip `RevApply(r, Apply(r, s))`.
- `Goals`: the goal predicate `GoalMet` and the compiled early-return test `IsGoal` (`make_goal_checker`). The goal dictionary is `Inventory.ToMap` of the declared goal list.
- `Successors`: `Graph`, the list of successors in recipe order, with soundness, completeness and concatenation lemmas.
- `Heuristics`: the heuristic.
  - The bare pruning rule `heur` is `Heur`.
  - `get_missing` is `GetMissing`.
  - `fastest_rule` is `FastestRule`: the first recipe of minimum time, failing on a recipe without a Produces field.
  - One demand is resolved by `ResolveDemand`: the ceiling of the demand over the produced amount, in reverse steps.
  - One relaxation pass is `RunPass`, the repeat-until-idle loop is `RelaxLoop`, and the whole heuristic is `Heuristic`.
  - The residual dictionary is an insertion-ordered map, so a pass visits its keys in a recorded key order. A reverse step may insert consumed items as new keys, in the order the recipe's Consumes field lists them (`consumeOrder`). If that happens before the last key of a pass, the dictionary iteration raises at its next step (`ResizedDuringPass`). If it happens at the last key, the pass ends normally and the next pass visits the new keys after the old ones (`LastKeyInsertionVisitedNextPass`).
  - The ways the source raises are modelled as a `HeurError` result: a recipe without Produces, a division by zero, an unknown product, and a dictionary resized during iteration.
- `Planner`: `Search`.
  - It uses a queue of (priority, state) entries with `PopMin`, a cost-so-far map, and a predecessor map whose initial entry is a sentinel.
  - `Consider` and `Expand` handle successors; `Reconstruct` rebuilds the plan; `Iterate` is one turn of the search loop and `SearchFrom` the loop itself.
  - The functions `ConsiderStep`, `ExpandFrom`, `Advance` and `Run` state what one edge, one expansion, one iteration and the whole loop do. The methods are proved equal to them.
  - The invariant `Consistent` ties the maps together: every predecessor link is a successor edge whose time fits between the recorded costs of its two ends.
  - A returned plan is a valid path from the initial state to a goal state. Its edge times add up to at most the reported cost.

- `WorkedPlans`: two small rule sets run through the whole search loop, iteration by iteration.
  - One recipe makes a wood at time 1; from no wood toward three wood, the search returns three `get_wood` steps at cost 3 (`WoodSearch`).
  - `make_axe` makes an axe at time 2, and `chop` needs an axe, which it keeps, to make a log at time 1. From nothing toward two logs, the search returns `make_axe` and then two `chop` steps at cost 4 (`AxeSearch`). The axe gates chopping and is never made again.
  - A single recipe of time 0 makes the heuristic estimate 0 for a state still one item short of the goal (`ZeroTimeHidesDemand`).

These behaviours of the code are easy to miss, and the model keeps them:

- A consumed item that is not a key of the state fails the check even when the consumed amount is 0.
- A required item passes when its quantity is anything but 0, including a negative quantity; it need not be positive.
- The heuristic tests the goal first and prunes duplicated singletons second, so a goal state holding two benches scores 0 (`HeuristicAtGoal`).
- Negative residual demands are kept as they are, not clamped to 0.
- The heuristic can raise instead of always returning a number or infinity.
  - A positive residual demand for an item that no recipe produces makes it divide by zero (`NoProducerDividesByZero`, `UnproducibleGoalDividesByZero`). A recipe without a Produces field that comes first in the scan raises `MissingProduces` instead.
  - In a search this gives `Crashed(DivisionByZero(..))`, not `Failed`, once the heuristic of a successor reaches such a demand. That successor must be neither a goal state nor a holder of a duplicated singleton, and no other failure, such as `MissingProduces`, may come first.
  - A state that already holds the item in full never divides by it. For example, with goal `{x:1, y:2}`, one recipe producing `y` and initial state `{x:1, y:0}`, nothing divides by zero and a plan can be found.
- The relaxation loop has no bound on its number of passes. The model bounds it with a fuel parameter, and `OutOfFuel` stands for the source's non-termination.

## Model

| member | source | states |
|---|---|---|
| Inventory.Copy | src/craft_planner.py:36-39 | the copy equals the original state, key for key |
| Inventory.Dedup | src/craft_planner.py:190-191 | the key order of the target dictionary holds exactly the inserted names, each once |
| Inventory.DedupKeepsFirstOrder | src/craft_planner.py:190-191 | the dictionary's keys come in the order of their first insertions |
| Inventory.ToMapKeys | src/craft_planner.py:191 | the dictionary built from a declared list has exactly the listed items as keys |
| Inventory.ToMapLastWins | src/craft_planner.py:283 | an item declared more than once holds the amount of its last declaration |
| Recipes.Check | src/craft_planner.py:50-67 | the check is true exactly when every consumed item is a key with at least the consumed amount and every required item is a key with a non-zero quantity |
| Recipes.Effect | src/craft_planner.py:118-136 | the effect on a copy equals `Apply`: consumed amounts come off existing keys, produced amounts are added and create absent keys |
| Recipes.TakeOffLoop | src/craft_planner.py:123-126 | the forward effect's first loop takes each consumed amount off the keys present; absent consumed items stay absent and no key is added |
| Recipes.AddOnLoop | src/craft_planner.py:129-134 | the forward effect's second loop adds every produced amount, creating absent keys at that amount |
| Recipes.AddBackLoop | src/craft_planner.py:99-104 | the first reverse loop adds every consumed amount back, creating absent keys |
| Recipes.TakeBackLoop | src/craft_planner.py:106-108 | the second reverse loop subtracts every produced amount, and fails exactly when a produced item is not a key |
| Recipes.RevEffect | src/craft_planner.py:95-109 | the reverse effector equals `RevApply`: consumption added back, then production taken off, with failure on an absent product |
| Recipes.ApplyFrame | src/craft_planner.py:118-136 | an item that is neither consumed nor produced keeps its presence and its quantity |
| Recipes.ApplyAt | src/craft_planner.py:123-134 | per key: a consumed key drops by its amount; an absent consumed item stays absent; a produced item rises by its amount, starting from 0 when absent |
| Recipes.ApplyPreservesNonNegative | src/craft_planner.py:118-136 | a checked effect of a recipe with non-negative yields keeps every quantity non-negative |
| Recipes.RevApplyUndoesApply | src/craft_planner.py:95-136 | when every consumed item is a key, the reverse step undoes the forward step, except that newly created products remain as keys holding 0 |
| Recipes.RevApplyRestores | src/craft_planner.py:95-136 | with every consumed and produced item already a key, the reverse step restores the original state exactly |
| Goals.IsGoal | src/craft_planner.py:145-153 | the goal test is true exactly when every goal item is a key of the state with at least the goal amount |
| Goals.AbsentGoalItemFails | src/craft_planner.py:147-152 | a goal item missing from the state defeats the goal, even with goal amount 0 |
| Successors.Graph | src/craft_planner.py:158-164 | at most one successor per recipe |
| Successors.GraphSound | src/craft_planner.py:162-164 | every successor is the name, effect and time of an applicable recipe |
| Successors.GraphComplete | src/craft_planner.py:162-164 | every applicable recipe yields its successor |
| Successors.GraphAppend | src/craft_planner.py:162-164 | successors follow recipe order: the successors of a concatenation are the concatenated successors |
| Successors.GraphSingle | src/craft_planner.py:162-164 | a single recipe yields its own successor if and only if its check passes |
| Successors.StepIsApplication | src/craft_planner.py:158-164 | a search step named `a` from `p` to `x` exists exactly when some applicable recipe named `a` turns `p` into `x` |
| Heuristics.DuplicateFrom | src/craft_planner.py:185-189 | the scan of the singleton list finds a duplicate exactly when some listed singleton is held at least twice |
| Heuristics.Heur | src/craft_planner.py:173-179 | the bare pruning rule is infinity exactly on states holding two or more of a singleton, and 0 otherwise |
| Heuristics.DiffKeysEnumerate | src/craft_planner.py:190-192 | the residual map's iteration order lists each of its keys exactly once, and nothing else |
| Heuristics.GetMissing | src/craft_planner.py:166-171 | each target amount is reduced by the holding for target keys present in the state; keys stay the same |
| Heuristics.FastestRule | src/craft_planner.py:210-221 | the compiled scan returns what the scan function `Fastest` specifies |
| Heuristics.ScanStep | src/craft_planner.py:214-220 | one more scanned recipe keeps the running minimum the first fastest producer seen so far |
| Heuristics.FastestFromSpec | src/craft_planner.py:214-220 | from a correct partial scan, the scan fails exactly at the first recipe without Produces and otherwise ends in a correct complete scan |
| Heuristics.FastestIsFirstMinimum | src/craft_planner.py:210-221 | the scan fails iff some recipe lacks Produces, naming the first one; otherwise it finds no producer iff none produces the item, and else the minimum-time producer, the first-declared on ties, with its produced amount |
| Heuristics.Applications | src/craft_planner.py:201 | for a positive produced amount the number of applications is the least `n` with `n * p >= v`; for a negative one the loop runs 0 times |
| Heuristics.ResolveDemand | src/craft_planner.py:199-203 | resolving one demand equals `Resolve`, and the time added is applications times the chosen recipe's time |
| Heuristics.RevApplyShift | src/craft_planner.py:99-108 | one reverse step shifts each item by its consumed amount minus its produced amount |
| Heuristics.RevApplyTimesShift | src/craft_planner.py:201-202 | `n` reverse steps shift each item by `n` times consumed minus produced |
| Heuristics.RevApplyTimesKeys | src/craft_planner.py:99-104 | reverse steps only add keys, namely the consumed items, once at least one step is taken |
| Heuristics.ResolveCoversDemand | src/craft_planner.py:199-203 | for a positive demand, a resolution uses the fastest producer and shifts the demand by applications times consumed minus produced; when the produced amount is positive, it applies the producer just enough times to cover the demand and leaves no positive demand for the item unless the producer consumes it |
| Heuristics.InsertedInOrder | src/craft_planner.py:99-104 | the keys a resolution inserts follow the declared order of the recipe's consumed items, each once |
| Heuristics.RunPass | src/craft_planner.py:195-203 | one compiled pass equals `PassFrom`: keys in the recorded order, values read when reached, a resize before the last key fails, and keys added at the last key join the key order |
| Heuristics.PassFromKeys | src/craft_planner.py:196-203 | a pass keeps the key set and key order, unless its last key's resolution inserts a recipe's consumed items, which are appended in their declared order |
| Heuristics.PassKeysEnumerate | src/craft_planner.py:194-203 | the key order handed to the next pass lists every key of the residual map exactly once |
| Heuristics.RelaxLoop | src/craft_planner.py:194-205 | the compiled loop equals `Relax` within the pass budget, each pass running over the key order the previous one left |
| Heuristics.Heuristic | src/craft_planner.py:180-208 | the compiled heuristic equals `HeuristicValue`: goal test, pruning, then relaxation |
| Heuristics.HeuristicAtGoal | src/craft_planner.py:183-184 | a goal state scores 0, whatever it holds |
| Heuristics.HeuristicInfiniteIffDuplicate | src/craft_planner.py:183-189 | the heuristic is infinity exactly on non-goal states holding two or more of a singleton |
| Heuristics.PassFromGrows | src/craft_planner.py:196-203 | a pass only adds time, and a recorded positive demand stays recorded |
| Heuristics.PassFromIdle | src/craft_planner.py:195-205 | a pass meeting no positive demand changes nothing, and a pass reporting no progress met only non-positive demands |
| Heuristics.PassFromAddsTime | src/craft_planner.py:197-203 | with positive times and non-negative yields, a pass that resolves a demand adds a positive time |
| Heuristics.RelaxGrows | src/craft_planner.py:194-205 | the relaxation only adds time to its starting total |
| Heuristics.RelaxZeroIffIdle | src/craft_planner.py:194-205 | with positive times and non-negative yields, a relaxation from 0 that succeeds ends at 0 exactly when no listed key starts with positive demand |
| Heuristics.HeuristicZeroIffNoDemand | src/craft_planner.py:190-208 | with positive times and non-negative yields, away from the goal and from duplicates, a successful heuristic is 0 exactly when no residual demand is positive |
| Heuristics.NoProducerFrom | src/craft_planner.py:214-221 | a scan over recipes none of which produces the item finds no producer |
| Heuristics.NoProducerDividesByZero | src/craft_planner.py:199-201 | when every recipe has a Produces field and none produces the item, a positive demand for it fails with a division by zero |
| Heuristics.SingleItemTargets | src/craft_planner.py:190-191 | with one declared item and a goal for it, the goal dictionary, the key order and the relaxation target hold just that item |
| Heuristics.UnproducibleGoalDividesByZero | src/craft_planner.py:180-208 | with one item, a goal of one and no recipes, the heuristic of a state holding none fails with a division by zero |
| Heuristics.ChainFirstPass | src/craft_planner.py:196-203 | a pass whose last key's resolution inserts a consumed item ends normally, with the new key appended to the key order |
| Heuristics.ChainSecondPass | src/craft_planner.py:196-203 | the next pass resolves the inserted key |
| Heuristics.LastKeyInsertionVisitedNextPass | src/craft_planner.py:180-208 | a key inserted at the last key of a pass is resolved by the next pass, giving an estimate of 2 on the two-recipe chain |
| Planner.FirstMin | src/craft_planner.py:244 | the chosen position holds a least priority, and no earlier entry has that least priority |
| Planner.PopMin | src/craft_planner.py:244 | the popped entry is the first one of least priority, and the rest is the queue without it, as a multiset too |
| Planner.ConsistentAfterImprovement | src/craft_planner.py:265-273 | recording a strictly better cost and its predecessor edge keeps the search maps consistent |
| Planner.Consider | src/craft_planner.py:265-273 | on a new or strictly cheaper successor, its cost through the current state and its link are recorded and it is queued at that cost plus its heuristic value; otherwise nothing changes; a failing heuristic changes nothing and is reported |
| Planner.ConsiderStepConsistent | src/craft_planner.py:265-273 | considering a successor edge keeps the search maps consistent |
| Planner.ConsiderStepProgress | src/craft_planner.py:265-273 | considering an edge only appends to the queue, only lowers or adds costs, keeps the current state's cost and leaves the successor within its cost through the current state |
| Planner.ConsiderStepQueue | src/craft_planner.py:268-271 | an entry appended for an edge is for its end, at the cost through the current state plus the end's heuristic value |
| Planner.Expand | src/craft_planner.py:265-273 | the expansion equals considering every successor in recipe order, stopping at a failing heuristic; it keeps the maps consistent, lowers no cost, changes no state that is not a successor, and queues only successors at their cost through the current state plus their heuristic value |
| Planner.ExpandFromFrame | src/craft_planner.py:265-273 | a state that no remaining successor reaches keeps its presence, cost and link |
| Planner.ExpandFromQueue | src/craft_planner.py:265-273 | the old queue stays in front, and every appended entry is a successor at its new cost plus its heuristic value |
| Planner.ExpandFromQueued | src/craft_planner.py:265-273 | every queued state has a recorded cost after an expansion |
| Planner.ExpandNothingElse | src/craft_planner.py:265-273 | a whole expansion changes nothing but successor states |
| Planner.ExpandQueuedAt | src/craft_planner.py:265-273 | a whole expansion queues only successor states, each at its cost through the current state plus its heuristic value |
| Planner.PrependLink | src/craft_planner.py:253-257 | prepending a recorded link extends a valid walk by one edge to a strictly cheaper state |
| Planner.TrailStep | src/craft_planner.py:253-257 | following a link keeps the walk valid and within the recorded cost difference, and strictly lowers the current cost |
| Planner.TrailAtRoot | src/craft_planner.py:253-259 | the walk that reaches the sentinel starts at the initial state |
| Planner.FollowsLinksPrepend | src/craft_planner.py:253-257 | prepending the link of the walk's first state keeps the walk following the recorded links |
| Planner.Reconstruct | src/craft_planner.py:252-259 | the reconstructed plan follows the recorded links back from the goal to the initial state; it is a valid path walkable within the goal's recorded cost, and empty for the initial state |
| Planner.Advance | src/craft_planner.py:243-273 | an iteration stops on a popped goal state, else expands it, keeping every queued state recorded |
| Planner.Run | src/craft_planner.py:243-279 | the loop stops when the queue is empty or the budget is spent; a popped goal state it stops at meets the goal and has a recorded cost |
| Planner.InitialGoal | src/craft_planner.py:236-249 | a goal-meeting initial state is popped in the first iteration, with cost 0 and the sentinel link |
| Planner.Iterate | src/craft_planner.py:244-273 | one iteration equals one step of `Run`: a popped goal gives the reconstructed plan at its recorded cost, a failing heuristic gives its failure, and otherwise the loop goes on with the expanded maps and one iteration less |
| Planner.SearchFrom | src/craft_planner.py:243-279 | the loop's outcome is what `Run` says: a failure exactly when the queue empties or the budget runs out, the heuristic's failure, or the plan to the popped goal, which is a valid path within its cost |
| Planner.Search | src/craft_planner.py:224-279 | from the initial state queued at priority 0: a failure exactly when the queue empties or the budget runs out, and a plan is a valid path to a goal state following the recorded links, whose edge times add up to at most the reported cost; an initial goal state gives the empty plan at cost 0 |
| Planner.PathStaysNonNegative | src/craft_planner.py:50-136 | along any valid path from a non-negative state, with non-negative yields, every state stays non-negative |
| WorkedPlans.SingleDemand | src/craft_planner.py:180-208 | for a one-item goal whose fastest producer consumes nothing and makes one item per application, a non-goal state without duplicates is estimated at its shortfall times that producer's time |
| WorkedPlans.AxeEstimate | src/craft_planner.py:180-208 | on the axe rule set, each missing log costs one chop; a missing axe costs nothing, because the relaxation ignores a producer's required items |
| WorkedPlans.AxeSuccessors | src/craft_planner.py:158-164 | holding one axe, both recipes apply, in declaration order: a second axe at time 2, or one more log at time 1 |
| WorkedPlans.WoodSearch | src/craft_planner.py:224-279 | with the single recipe making one wood at time 1, a search from no wood toward three wood with at least four iterations returns three `get_wood` steps at cost 3 |
| WorkedPlans.AxeSearch | src/craft_planner.py:224-279 | with `make_axe` and the axe-gated `chop`, a search from nothing toward two logs with at least four iterations returns `make_axe` and two `chop` steps at cost 4 |
| WorkedPlans.ZeroTimeHidesDemand | src/craft_planner.py:180-208 | with a single 0-time producer, a state one item short of the goal is estimated at 0 while its residual demand is 1 |

## Left out

- Loading the rule set from JSON, the `__main__` driver and building the initial state from the item list (lines 281-333) are not modelled. `Search` takes the rule set and the initial state as parameters.
- Printing (lines 41-42, 277-278, 286-293, 324-333) is not modelled, because it is output only.
- Wall-clock time (lines 226, 243, 251) is replaced by an iteration budget `fuel`, because clocks are outside the model. The globals `game_time` and `compute_time` (lines 222-223, 248-251) are not modelled; the cost is returned in `Plan` instead.
- `make_checker_for_heur` (lines 71-88) is not modelled, because its result is never used.
- Search: the `State` hashing and ordering methods (lines 20-34) are not modelled. States are compared by map equality, so the insertion-order sensitivity of `OrderedDict` equality is not captured.
- FirstMin, PopMin: they take the first queued entry among those of least priority. The heap orders entries by the pair of priority and state, so it breaks such ties by comparing states (lines 26-27), which is not modelled.
- Search: on HeurError it returns `Crashed`; in the source that exception propagates out of `search`.
- Search: in-place updates of the shared maps are modelled by passing values.
- Search: it requires positive recipe times, which the rule set is meant to have. The model's reconstruction uses the recorded cost as its termination measure, which each link strictly lowers only when times are positive. The source's walk back also ends with 0-time recipes, because a link is rewritten only on a strictly lower cost, so no cycle of links forms; the model does not cover such rule sets.
- Search: it does not state that the reported cost equals the time of the returned path. The cost recorded for the goal can exceed the path's time when a predecessor's cost improves after the link was recorded; the model proves only the bound.
- Heuristic: the float `ceil(1.0 * d / p)` is modelled as exact integer ceiling division, so float rounding of large amounts is not captured.
- Heuristic: `inf` is modelled as the `Infinite` estimate.
- Heuristic: the source mutates the residual dictionary in place; the model passes values. The model reports a resize once the resolution that added keys has finished, which is when the source's iteration takes its next step and raises.
- Heuristic: the order of a recipe's Consumes field is the separate list `consumeOrder`. That it lists every consumed item (`OrderCoversConsumes`) is a premise of `PassKeysEnumerate` and is not enforced by the recipe type.
- RelaxLoop: non-termination is modelled as `OutOfFuel` after `fuel` passes.
- Reconstruct: the source appends and then reverses; the model prepends.
- RelaxZeroIffIdle, HeuristicZeroIffNoDemand: proved only for rule sets with positive times and non-negative yields, which the source does not enforce. With a 0-time producer the estimate can be 0 while a demand remains (`ZeroTimeHidesDemand`).
- ResolveCoversDemand: covers the demand only when the producer's produced amount is positive. With a negative produced amount the source's loop at line 201 runs 0 times and the demand stays; the lemma then states only the exact shift.
- NoProducerDividesByZero: stated for rule sets in which every recipe has a Produces field. Otherwise the producer scan raises a missing-key error first (`FastestIsFirstMinimum`).
