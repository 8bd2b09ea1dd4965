/** The successor generator: every applicable recipe, in declaration order. */
module Successors {
  import opened Inventory
  import opened Recipes

  /** One yielded successor: action name, resulting state and cost. */
  datatype Succ = Succ(name: string, next: State, cost: nat)

  /** The successor a recipe yields from `s`. */
  function SuccOf(r: Recipe, s: State): Succ {
    Succ(r.name, Apply(r, s), r.time)
  }

  /**
   * The successors of `s`: one per recipe whose check passes, in the order
   * of the recipe list; the effect is taken only of those recipes.
   */
  function Graph(rs: seq<Recipe>, s: State): (g: seq<Succ>)
    ensures |g| <= |rs|
  {
    if rs == [] then []
    else
      var rest := Graph(rs[1..], s);
      if Applicable(rs[0], s) then [SuccOf(rs[0], s)] + rest else rest
  }

  /** Every yielded successor comes from an applicable recipe. */
  lemma {:induction false} GraphSound(rs: seq<Recipe>, s: State)
    ensures forall e | e in Graph(rs, s) :: exists r | r in rs :: Applicable(r, s) && e == SuccOf(r, s)
  {
    if rs != [] {
      GraphSound(rs[1..], s);
      assert forall r | r in rs[1..] :: r in rs;
    }
  }

  /** Declaration order: the successors of a concatenation concatenate. */
  lemma {:induction false} GraphAppend(rs1: seq<Recipe>, rs2: seq<Recipe>, s: State)
    ensures Graph(rs1 + rs2, s) == Graph(rs1, s) + Graph(rs2, s)
  {
    if rs1 != [] {
      assert (rs1 + rs2)[1..] == rs1[1..] + rs2;
      GraphAppend(rs1[1..], rs2, s);
    } else {
      assert rs1 + rs2 == rs2;
    }
  }

  /** A single recipe yields exactly its own successor when, and only when, its check passes. */
  lemma GraphSingle(r: Recipe, s: State)
    ensures Graph([r], s) == if Applicable(r, s) then [SuccOf(r, s)] else []
  {
    assert [r][1..] == [];
  }

  /** Every applicable recipe is yielded. */
  lemma {:induction false} GraphComplete(rs: seq<Recipe>, s: State, i: nat)
    requires i < |rs| && Applicable(rs[i], s)
    ensures SuccOf(rs[i], s) in Graph(rs, s)
  {
    if i > 0 {
      GraphComplete(rs[1..], s, i - 1);
    }
  }

  /** A step of the search graph: some yielded successor of `p` is named `a` and leads to `x`. */
  ghost predicate Step(rs: seq<Recipe>, p: State, a: string, x: State) {
    exists e | e in Graph(rs, p) :: e.name == a && e.next == x
  }

  /** A step is exactly the effect of an applicable recipe of that name. */
  lemma StepIsApplication(rs: seq<Recipe>, p: State, a: string, x: State)
    ensures Step(rs, p, a, x) <==>
      exists i | 0 <= i < |rs| :: rs[i].name == a && Applicable(rs[i], p) && Apply(rs[i], p) == x
  {
    if exists i | 0 <= i < |rs| :: rs[i].name == a && Applicable(rs[i], p) && Apply(rs[i], p) == x {
      var i :| 0 <= i < |rs| && rs[i].name == a && Applicable(rs[i], p) && Apply(rs[i], p) == x;
      GraphComplete(rs, p, i);
    }
    if Step(rs, p, a, x) {
      GraphSound(rs, p);
      var e :| e in Graph(rs, p) && e.name == a && e.next == x;
      var r :| r in rs && Applicable(r, p) && e == SuccOf(r, p);
      var i :| 0 <= i < |rs| && rs[i] == r;
    }
  }
}
