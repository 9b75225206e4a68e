/**
 An Iteration over a fixed array, entered with a fresh item: every element is presented once,
 in order, each pass's child values are collected, and the run leaves to the downstream.
 */
module CanvasIteration {
  import opened Prelude
  import opened CanvasModel
  import opened CanvasRuns
  import opened CanvasContainer

  /** Nothing inside the container fails or is cancelled, and the array does not change. */
  ghost predicate Steady(g: Graph, o: Oracle, k: Cycle, arr: seq<Value>) {
    && Lookup(g, k.it).kind.Iteration?
    && (forall p: nat, x {:trigger o.answer(p, x)} :: x in Inside(k) ==> !o.answer(p, x).fails)
    && (forall p: nat {:trigger o.answer(p, k.item)} ::
          !o.answer(p, k.item).raises && !o.answer(p, k.item).cancelLate && o.answer(p, k.item).items == Some(arr))
  }

  /** The components of the container refer to what ran before it or earlier in the same pass. */
  predicate InputsAvailable(g: Graph, k: Cycle, done: seq<Id>) {
    && InputsIn(g, done, k.it)
    && InputsIn(g, done + [k.it], k.item)
    && forall j :: 0 <= j < |k.body| ==> InputsIn(g, done + [k.it, k.item] + k.body[..j], k.body[j])
  }

  predicate NoErrors(k: Cycle, s: RunState) {
    forall x :: x in Inside(k) ==> x !in s.errs
  }

  /** Output `name` of the Iteration refers to a child of it. */
  predicate Referenced(g: Graph, k: Cycle, name: string) {
    var kind := Lookup(g, k.it).kind;
    kind.Iteration? && name in kind.collects && Lookup(g, kind.collects[name].0).parent == Some(k.it)
  }

  /** The child's current value for output `name`. */
  function ChildValue(g: Graph, k: Cycle, s: RunState, name: string): Value
    requires Referenced(g, k, name)
  {
    var (cid, out) := Lookup(g, k.it).kind.collects[name];
    Output(s, cid, out)
  }

  /** The container is about to be entered: `it` waits, its item and results are fresh. */
  ghost predicate Entering(g: Graph, k: Cycle, s: RunState) {
    && Ready(s) && s.status.Running? && Known(g, s.path)
    && Tokens(k, s.path, s.idx) == [k.it] && Counter(s, k.item) == 0 && NoErrors(k, s)
    && InputsAvailable(g, k, s.path[..s.idx])
    && forall name :: Referenced(g, k, name) ==> AsList(Output(s, k.it, name)) == []
  }

  /** From `s0` on, no batch schedules `it` again. */
  ghost predicate NeverReentered(g: Graph, o: Oracle, k: Cycle, s0: RunState)
    requires Ready(s0) && LegalOrder(o)
  {
    forall t: nat {:trigger After(g, o, s0, t)} ::
      var s := After(g, o, s0, t);
      s.status.Running? ==> k.it !in Batch(g, o, s).path[|Pruned(g, s).path|..]
  }

  // ---------------------------------------------------------------- what invoking the token does

  lemma SteadyInvoke(g: Graph, o: Oracle, k: Cycle, arr: seq<Value>, s: RunState, p: nat)
    requires ChainContainer(g, k) && Steady(g, o, k, arr) && NoErrors(k, s)
    requires p < |s.path| && s.path[p] in Inside(k) && s.path[p] != k.item
    ensures var r := Invoke(g, o, s, p);
            NoErrors(k, r) && Counter(r, k.item) == Counter(s, k.item) && Outputs(r, k.it) == Outputs(s, k.it)
  {
    hide Edge;
    var x := s.path[p];
    assert !o.answer(p, x).fails;
    if x in k.body {
      var j :| 0 <= j < |k.body| && k.body[j] == x;
      assert ChainLink(g, k, j);
    }
  }

  /** The item, reached for pass `m`: it first collects the pass before, then presents element `m`, or ends. */
  lemma PresentItem(g: Graph, o: Oracle, k: Cycle, arr: seq<Value>, s: RunState, p: nat, m: nat)
    requires ChainContainer(g, k) && Steady(g, o, k, arr) && NoErrors(k, s)
    requires p < |s.path| && s.path[p] == k.item && Counter(s, k.item) == m <= |arr|
    ensures var r := Invoke(g, o, s, p);
            && NoErrors(k, r)
            && Counter(r, k.item) == (if m < |arr| then m + 1 else -1)
            && (m < |arr| ==> Output(r, k.item, "item") == arr[m] && Output(r, k.item, "index") == Number(m))
            && Outputs(r, k.it) == Outputs(s, k.it) + (if m > 0 then Collation(g, s, k.it) else map[])
  {
    hide Edge, Collation, ChainLink;
    assert !o.answer(p, k.item).fails && !o.answer(p, k.item).raises && o.answer(p, k.item).items == Some(arr) && !o.answer(p, k.item).cancelLate;
    assert Outputs(s, k.it) + map[] == Outputs(s, k.it);
  }

  lemma CollationAt(g: Graph, k: Cycle, s: RunState, name: string)
    requires Referenced(g, k, name)
    ensures name in Collation(g, s, k.it)
    ensures Collation(g, s, k.it)[name] == Items(AsList(Output(s, k.it, name)) + [ChildValue(g, k, s, name)])
  {
  }

  lemma SameChildValue(g: Graph, k: Cycle, a: RunState, b: RunState, name: string)
    requires ChainContainer(g, k) && SameInside(k, a, b) && Referenced(g, k, name)
    ensures ChildValue(g, k, a, name) == ChildValue(g, k, b, name)
    ensures Output(a, k.it, name) == Output(b, k.it, name)
  {
    hide Edge;
    var cid := Lookup(g, k.it).kind.collects[name].0;
    assert cid in g && g[cid].parent == Some(k.it);
    assert cid in Inside(k) && k.it in Inside(k);
    assert Outputs(a, cid) == Outputs(b, cid) && Outputs(a, k.it) == Outputs(b, k.it);
  }

  lemma SameErrors(k: Cycle, a: RunState, b: RunState)
    requires SameInside(k, a, b)
    ensures NoErrors(k, a) <==> NoErrors(k, b)
  {
  }

  // ---------------------------------------------------------------- one batch of a steady iteration

  lemma TokenSurvives(g: Graph, k: Cycle, s: RunState, x: Id)
    requires Ready(s) && Tokens(k, s.path, s.idx) == [x] && InputsIn(g, s.path[..s.idx], x)
    ensures Keep(Pruned(g, s).path[s.idx..], Inside(k)) == [x]
  {
    PruneToken(g, k, s.path[..s.idx], s.path[s.idx..]);
  }

  /** A batch with the token on `it` or in the body moves it one place and leaves results alone. */
  lemma MoveOn(g: Graph, o: Oracle, k: Cycle, arr: seq<Value>, s: RunState, x: Id)
    requires WellFormed(g) && LegalOracle(g, o) && ChainContainer(g, k) && Steady(g, o, k, arr)
    requires Ready(s) && s.status.Running? && Known(g, s.path) && NoErrors(k, s)
    requires x in Inside(k) && x != k.item && Tokens(k, s.path, s.idx) == [x] && InputsIn(g, s.path[..s.idx], x)
    requires k.it !in Batch(g, o, s).path[|Pruned(g, s).path|..]
    ensures var b := Batch(g, o, s);
            && Tokens(k, b.path, |Pruned(g, s).path|) == [NextOf(k, x)]
            && Counter(b, k.item) == Counter(s, k.item) && NoErrors(k, b)
            && Outputs(b, k.it) == Outputs(s, k.it)
            && x in Pruned(g, s).path
  {
    TokenSurvives(g, k, s, x);
    var p, before := BatchWithToken(g, o, k, s, x);
    hide ChainContainer, Edge, WellFormed, Steady, Invoke, Keep, LegalOrder;
    SameErrors(k, Pruned(g, s), before);
    SteadyInvoke(g, o, k, arr, before, p);
    SameErrors(k, Invoke(g, o, before, p), Invoked(g, o, s));
    RoutingKeeps(g, o, s);
    assert Outputs(Pruned(g, s), k.it) == Outputs(before, k.it);
    assert Outputs(Invoke(g, o, before, p), k.it) == Outputs(Invoked(g, o, s), k.it);
  }

  lemma RoutingKeeps(g: Graph, o: Oracle, s: RunState)
    requires LegalOrder(o) && Ready(s)
    ensures var b := Batch(g, o, s); var i := Invoked(g, o, s); b.errs == i.errs && b.outs == i.outs
    ensures Pruned(g, s).errs == s.errs && Pruned(g, s).outs == s.outs && Pruned(g, s).counter == s.counter
  {
  }

  /** The item's outputs show element `m` and its index. */
  predicate Presented(k: Cycle, s: RunState, arr: seq<Value>, m: nat)
    requires m < |arr|
  {
    Output(s, k.item, "item") == arr[m] && Output(s, k.item, "index") == Number(m)
  }

  /** Each result of the Iteration was extended by the child's value, unless this is the first pass. */
  ghost predicate Extended(g: Graph, k: Cycle, s: RunState, q: RunState, m: nat) {
    forall name :: Referenced(g, k, name) ==>
      Output(q, k.it, name) ==
        (if m == 0 then Output(s, k.it, name) else Items(AsList(Output(s, k.it, name)) + [ChildValue(g, k, s, name)]))
  }

  lemma ItemIsIterationItem(g: Graph, o: Oracle, k: Cycle, arr: seq<Value>)
    requires WellFormed(g) && ChainContainer(g, k) && Steady(g, o, k, arr)
    ensures k.item in g && g[k.item].kind.IterationItem?
  {
  }

  /** A batch with the token on the item: the finished pass is collected, then element `m` is
      presented and the body entered, or the container is left for its downstream. */
  lemma Present(g: Graph, o: Oracle, k: Cycle, arr: seq<Value>, s: RunState, m: nat)
    requires WellFormed(g) && LegalOracle(g, o) && ChainContainer(g, k) && Steady(g, o, k, arr)
    requires Ready(s) && s.status.Running? && Known(g, s.path) && NoErrors(k, s)
    requires Tokens(k, s.path, s.idx) == [k.item] && InputsIn(g, s.path[..s.idx], k.item)
    requires Counter(s, k.item) == m <= |arr|
    requires k.it !in Batch(g, o, s).path[|Pruned(g, s).path|..]
    ensures var b := Batch(g, o, s); var end := |Pruned(g, s).path|;
            && Tokens(k, b.path, end) == (if m < |arr| then [k.body[0]] else [])
            && Counter(b, k.item) == (if m < |arr| then m + 1 else -1)
            && NoErrors(k, b) && k.item in Pruned(g, s).path
            && (m < |arr| ==> Presented(k, b, arr, m))
            && Extended(g, k, s, b, m)
            && (m == |arr| ==> end > 0 && forall d :: d in g[k.it].downstream ==> d in b.path[end - 1..])
  {
    hide Edge, WellFormed, Steady, Invoke, Keep, LegalOrder, RoutesDeclared, ChainLink, Collation, Extended, Referenced, Batch,
         Pruned, Invoked, Known;
    TokenSurvives(g, k, s, k.item);
    var p, before := BatchWithToken(g, o, k, s, k.item);
    NextDiffers(k, k.item);
    RoutingKeeps(g, o, s);
    ItemIsIterationItem(g, o, k, arr);
    assert before.path[p] == k.item;
    var ran := Invoked(g, o, s);
    var t := Invoke(g, o, before, p);
    PresentResults(g, o, k, arr, s, p, before, m);
    SameErrors(k, Pruned(g, s), before);
    PresentItem(g, o, k, arr, before, p, m);
    SameErrors(k, t, ran);
    assert Outputs(t, k.item) == Outputs(ran, k.item);
    assert m < |arr| ==> Presented(k, t, arr, m);
  }

  lemma PresentResults(g: Graph, o: Oracle, k: Cycle, arr: seq<Value>, s: RunState, p: nat, before: RunState, m: nat)
    requires LegalOrder(o) && Ready(s) && ChainContainer(g, k) && Steady(g, o, k, arr) && NoErrors(k, s)
    requires TokenMoves(g, o, k, s, k.item, p, before) && Counter(s, k.item) == m <= |arr|
    ensures Extended(g, k, s, Batch(g, o, s), m)
  {
    hide Edge, Invoke, Keep, ChainLink, Collation, Steady, TokenMoves, Batch, Pruned, ChainContainer;
    forall name | Referenced(g, k, name)
      ensures Output(Batch(g, o, s), k.it, name) ==
                (if m == 0 then Output(s, k.it, name)
                 else Items(AsList(Output(s, k.it, name)) + [ChildValue(g, k, s, name)]))
    {
      PresentResult(g, o, k, arr, s, p, before, m, name);
    }
  }

  lemma PresentResult(g: Graph, o: Oracle, k: Cycle, arr: seq<Value>, s: RunState, p: nat, before: RunState, m: nat, name: string)
    requires LegalOrder(o) && Ready(s) && ChainContainer(g, k) && Steady(g, o, k, arr) && NoErrors(k, s)
    requires TokenMoves(g, o, k, s, k.item, p, before) && Counter(s, k.item) == m <= |arr| && Referenced(g, k, name)
    ensures Output(Batch(g, o, s), k.it, name) ==
              (if m == 0 then Output(s, k.it, name)
               else Items(AsList(Output(s, k.it, name)) + [ChildValue(g, k, s, name)]))
  {
    var s1 := Pruned(g, s);
    RoutingKeeps(g, o, s);
    assert before.path[p] == k.item;
    var ran := Invoked(g, o, s);
    var t := Invoke(g, o, before, p);
    assert SameInside(k, s1, before) && SameInside(k, t, ran);
    assert ChildValue(g, k, s1, name) == ChildValue(g, k, s, name);
    assert Output(s1, k.it, name) == Output(s, k.it, name);
    hide Edge, Invoke, Keep, ChainLink, Collation, Steady, TokenMoves, Batch, Pruned, Invoked;
    SameErrors(k, s1, before);
    PresentItem(g, o, k, arr, before, p, m);
    SameChildValue(g, k, s1, before, name);
    SameChildValue(g, k, t, ran, name);
    CollationAt(g, k, before, name);
  }

  // ---------------------------------------------------------------- the whole iteration

  /** The batch count at which the item waits for pass `m`, counted from the entry. */
  function Turn(k: Cycle, m: nat): (t: nat)
    ensures t > 0
  {
    if m == 0 then 1 else Turn(k, m - 1) + |k.body| + 1
  }

  /** The components that must have run before place `r` of pass `m`. */
  predicate Visited(k: Cycle, done: seq<Id>, m: nat, r: nat) {
    && k.it in done
    && (m > 0 || r > 0 ==> k.item in done)
    && forall j :: 0 <= j < |k.body| && (m > 0 || j + 1 < r) ==> k.body[j] in done
  }

  /** The results collected after `c` passes: the child's value whenever the item was reached again. */
  ghost function Results(g: Graph, o: Oracle, k: Cycle, s0: RunState, name: string, c: nat): (vs: seq<Value>)
    requires Ready(s0) && LegalOrder(o) && Referenced(g, k, name)
    ensures |vs| == c
    ensures forall j :: 0 <= j < c ==> vs[j] == ChildValue(g, k, After(g, o, s0, Turn(k, j + 1)), name)
  {
    if c == 0 then [] else Results(g, o, k, s0, name, c - 1) + [ChildValue(g, k, After(g, o, s0, Turn(k, c)), name)]
  }

  /** Passes whose results are in, when the token waits at place `r` of pass `m`. */
  function CollectedAt(m: nat, r: nat): nat {
    if r > 0 then m else if m > 0 then m - 1 else 0
  }

  /** The token waits at place `r` of pass `m`. */
  ghost predicate Shape(g: Graph, k: Cycle, s0: RunState, s: RunState, m: nat, r: nat)
    requires Ready(s0) && Ready(s) && r <= |k.body|
  {
    && Known(g, s.path) && s0.idx <= s.idx && s0.path[..s0.idx] <= s.path
    && Tokens(k, s.path, s.idx) == [At(k, r)]
    && Counter(s, k.item) == m + (if r > 0 then 1 else 0)
    && NoErrors(k, s)
    && Visited(k, s.path[..s.idx], m, r)
  }

  ghost predicate Collects(g: Graph, o: Oracle, k: Cycle, s0: RunState, s: RunState, c: nat)
    requires Ready(s0) && LegalOrder(o)
  {
    forall name :: Referenced(g, k, name) ==>
      && AsList(Output(s, k.it, name)) == Results(g, o, k, s0, name, c)
      && (c > 0 ==> Output(s, k.it, name).Items?)
  }

  lemma InputsAt(g: Graph, k: Cycle, done0: seq<Id>, done: seq<Id>, m: nat, r: nat)
    requires InputsAvailable(g, k, done0) && (forall x :: x in done0 ==> x in done)
    requires r <= |k.body| && Visited(k, done, m, r)
    ensures InputsIn(g, done, At(k, r))
  {
    if r > 0 {
      assert InputsIn(g, done0 + [k.it, k.item] + k.body[..r - 1], k.body[r - 1]);
      forall x | x in k.body[..r - 1]
        ensures x in done
      {
        var j :| 0 <= j < r - 1 && k.body[j] == x;
      }
    }
  }

  lemma PrefixMembers(a: seq<Id>, i: nat, b: seq<Id>, j: nat)
    requires i <= |a| && i <= j <= |b| && a[..i] <= b
    ensures forall x :: x in a[..i] ==> x in b[..j]
  {
    forall x | x in a[..i]
      ensures x in b[..j]
    {
      var q :| 0 <= q < i && a[..i][q] == x;
      assert b[..j][q] == x;
    }
  }

  /** The frame of one batch that moved the token from `x`. */
  lemma ShapeFrame(g: Graph, o: Oracle, k: Cycle, s0: RunState, s: RunState, m: nat, r: nat, m': nat, r': nat)
    requires WellFormed(g) && LegalOracle(g, o) && Ready(s0) && Ready(s) && Distinct(k)
    requires s.status.Running? && Step(g, o, s).status.Running?
    requires r <= |k.body| && r' <= |k.body| && Shape(g, k, s0, s, m, r) && At(k, r) in Pruned(g, s).path
    requires if r < |k.body| then m' == m && r' == r + 1 else m' == m + 1 && r' == 0
    ensures var q := Step(g, o, s);
            && Known(g, q.path) && s0.idx <= q.idx && s0.path[..s0.idx] <= q.path
            && Visited(k, q.path[..q.idx], m', r')
  {
    hide Step, Batch, Pruned, WellFormed, LegalOrder, Visited, Tokens, NoErrors;
    var q := Step(g, o, s);
    RunningStep(g, o, s);
    BatchEdges(g, o, s);
    assert q.path[..q.idx] == Pruned(g, s).path;
    assert s0.path[..s0.idx] <= s.path[..s.idx] <= q.path;
    PrefixMembers(s.path, s.idx, q.path, q.idx);
    VisitedMore(k, s.path[..s.idx], q.path[..q.idx], m, r, m', r');
  }

  lemma VisitedMore(k: Cycle, a: seq<Id>, b: seq<Id>, m: nat, r: nat, m': nat, r': nat)
    requires r <= |k.body| && Visited(k, a, m, r) && (forall x :: x in a ==> x in b) && At(k, r) in b
    requires if r < |k.body| then m' == m && r' == r + 1 else m' == m + 1 && r' == 0
    ensures Visited(k, b, m', r')
  {
    forall j | 0 <= j < |k.body| && (m' > 0 || j + 1 < r')
      ensures k.body[j] in b
    {
      if j + 1 == r {
        assert k.body[j] == At(k, r);
      }
    }
  }

  ghost predicate Setting(g: Graph, o: Oracle, k: Cycle, arr: seq<Value>, s0: RunState) {
    && WellFormed(g) && LegalOracle(g, o) && ChainContainer(g, k) && Steady(g, o, k, arr)
    && Entering(g, k, s0) && NeverReentered(g, o, k, s0)
  }

  /** What a batch leaves, read off the state the run goes on with. */
  lemma StepIsBatch(g: Graph, o: Oracle, k: Cycle, s: RunState)
    requires LegalOrder(o) && Ready(s) && s.status.Running? && Step(g, o, s).status.Running?
    ensures var q := Step(g, o, s); var b := Batch(g, o, s);
            && Tokens(k, q.path, q.idx) == Tokens(k, b.path, |Pruned(g, s).path|)
            && Counter(q, k.item) == Counter(b, k.item)
            && (NoErrors(k, b) ==> NoErrors(k, q))
            && q.outs == b.outs
  {
  }

  lemma ReadyAt(g: Graph, k: Cycle, s0: RunState, s: RunState, m: nat, r: nat)
    requires Ready(s0) && Ready(s) && r <= |k.body| && Shape(g, k, s0, s, m, r)
    requires InputsAvailable(g, k, s0.path[..s0.idx])
    ensures InputsIn(g, s.path[..s.idx], At(k, r))
  {
    assert s0.path[..s0.idx] <= s.path;
    PrefixMembers(s0.path, s0.idx, s.path, s.idx);
    InputsAt(g, k, s0.path[..s0.idx], s.path[..s.idx], m, r);
  }

  /** The entry: after one batch the item waits for its first pass. */
  lemma EnterContainer(g: Graph, o: Oracle, k: Cycle, arr: seq<Value>, s0: RunState)
    requires WellFormed(g) && LegalOracle(g, o) && ChainContainer(g, k) && Steady(g, o, k, arr) && Entering(g, k, s0)
    requires k.it !in Batch(g, o, s0).path[|Pruned(g, s0).path|..] && Step(g, o, s0).status.Running?
    ensures Shape(g, k, s0, Step(g, o, s0), 0, 0) && Collects(g, o, k, s0, Step(g, o, s0), 0)
  {
    var s := Step(g, o, s0);
    EnterBatch(g, o, k, arr, s0);
    EnterFrame(g, o, k, s0);
    hide Step, Batch, Pruned, WellFormed, LegalOracle, Known, Steady, ChainContainer, Keep, InputsAvailable, NoErrors;
    forall name | Referenced(g, k, name)
      ensures AsList(Output(s, k.it, name)) == Results(g, o, k, s0, name, 0)
    {
      assert Output(s, k.it, name) == Output(s0, k.it, name);
    }
  }

  lemma EnterBatch(g: Graph, o: Oracle, k: Cycle, arr: seq<Value>, s0: RunState)
    requires WellFormed(g) && LegalOracle(g, o) && ChainContainer(g, k) && Steady(g, o, k, arr) && Entering(g, k, s0)
    requires k.it !in Batch(g, o, s0).path[|Pruned(g, s0).path|..] && Step(g, o, s0).status.Running?
    ensures var s := Step(g, o, s0);
            && Tokens(k, s.path, s.idx) == [k.item] && Counter(s, k.item) == 0 && NoErrors(k, s)
            && Outputs(s, k.it) == Outputs(s0, k.it) && k.it in Pruned(g, s0).path
  {
    MoveOn(g, o, k, arr, s0, k.it);
    hide Step, Batch, Pruned, WellFormed, Known, Steady, ChainContainer, Keep, InputsAvailable, NoErrors, Tokens;
    StepIsBatch(g, o, k, s0);
  }

  lemma EnterFrame(g: Graph, o: Oracle, k: Cycle, s0: RunState)
    requires WellFormed(g) && LegalOracle(g, o) && Ready(s0) && s0.status.Running? && Known(g, s0.path)
    requires Step(g, o, s0).status.Running? && k.it in Pruned(g, s0).path
    ensures var s := Step(g, o, s0);
            && Known(g, s.path) && s0.idx <= s.idx && s0.path[..s0.idx] <= s.path
            && Visited(k, s.path[..s.idx], 0, 0)
  {
    RunningStep(g, o, s0);
    BatchEdges(g, o, s0);
    assert Step(g, o, s0).path[..Step(g, o, s0).idx] == Pruned(g, s0).path;
  }

  /** A batch in the body of pass `m`. */
  lemma AdvanceBody(g: Graph, o: Oracle, k: Cycle, arr: seq<Value>, s0: RunState, s: RunState, m: nat, r: nat)
    requires WellFormed(g) && LegalOracle(g, o) && ChainContainer(g, k) && Steady(g, o, k, arr) && Ready(s0)
    requires InputsAvailable(g, k, s0.path[..s0.idx]) && 0 < r <= |k.body|
    requires Ready(s) && s.status.Running? && Step(g, o, s).status.Running?
    requires Shape(g, k, s0, s, m, r) && Collects(g, o, k, s0, s, m)
    requires k.it !in Batch(g, o, s).path[|Pruned(g, s).path|..]
    ensures if r < |k.body| then Shape(g, k, s0, Step(g, o, s), m, r + 1) else Shape(g, k, s0, Step(g, o, s), m + 1, 0)
    ensures Collects(g, o, k, s0, Step(g, o, s), m)
  {
    hide Batch, Step, WellFormed, LegalOracle, Known, Steady, ChainContainer, Keep, InputsAvailable, Tokens, NoErrors, Pruned;
    OracleHasOrder(g, o);
    ChainIsDistinct(g, k);
    BodyBatch(g, o, k, arr, s0, s, m, r);
    ShapeFrame(g, o, k, s0, s, m, r, if r < |k.body| then m else m + 1, if r < |k.body| then r + 1 else 0);
    SameOutputsCollect(g, o, k, s0, s, Step(g, o, s), m);
  }

  lemma BodyBatch(g: Graph, o: Oracle, k: Cycle, arr: seq<Value>, s0: RunState, s: RunState, m: nat, r: nat)
    requires WellFormed(g) && LegalOracle(g, o) && ChainContainer(g, k) && Steady(g, o, k, arr) && Ready(s0)
    requires InputsAvailable(g, k, s0.path[..s0.idx]) && 0 < r <= |k.body|
    requires Ready(s) && s.status.Running? && Step(g, o, s).status.Running?
    requires Shape(g, k, s0, s, m, r)
    requires k.it !in Batch(g, o, s).path[|Pruned(g, s).path|..]
    ensures var q := Step(g, o, s);
            && Tokens(k, q.path, q.idx) == [if r < |k.body| then At(k, r + 1) else k.item]
            && Counter(q, k.item) == Counter(s, k.item) && NoErrors(k, q)
            && Outputs(q, k.it) == Outputs(s, k.it) && At(k, r) in Pruned(g, s).path
  {
    NextAt(k, r);
    ReadyAt(g, k, s0, s, m, r);
    AtIsNotItem(k, r);
    hide WellFormed, Known, Steady, ChainContainer, Keep, InputsAvailable, NoErrors, Tokens, Visited, Step, Batch, Pruned;
    MoveOn(g, o, k, arr, s, At(k, r));
    StepIsBatch(g, o, k, s);
  }

  lemma AtIsNotItem(k: Cycle, r: nat)
    requires Distinct(k) && 0 < r <= |k.body|
    ensures At(k, r) != k.item
  {
  }

  lemma SameOutputsCollect(g: Graph, o: Oracle, k: Cycle, s0: RunState, a: RunState, b: RunState, c: nat)
    requires Ready(s0) && LegalOrder(o) && Collects(g, o, k, s0, a, c) && Outputs(a, k.it) == Outputs(b, k.it)
    ensures Collects(g, o, k, s0, b, c)
  {
    forall name | Referenced(g, k, name)
      ensures Output(b, k.it, name) == Output(a, k.it, name)
    {
    }
  }

  /** A batch that runs the item for pass `m`, with elements left. */
  lemma AdvanceItem(g: Graph, o: Oracle, k: Cycle, arr: seq<Value>, s0: RunState, s: RunState, m: nat)
    requires WellFormed(g) && LegalOracle(g, o) && ChainContainer(g, k) && Steady(g, o, k, arr) && Ready(s0)
    requires InputsAvailable(g, k, s0.path[..s0.idx]) && m < |arr|
    requires Ready(s) && s.status.Running? && Step(g, o, s).status.Running?
    requires Shape(g, k, s0, s, m, 0) && Collects(g, o, k, s0, s, CollectedAt(m, 0))
    requires s == After(g, o, s0, Turn(k, m))
    requires k.it !in Batch(g, o, s).path[|Pruned(g, s).path|..]
    ensures Shape(g, k, s0, Step(g, o, s), m, 1) && Collects(g, o, k, s0, Step(g, o, s), m)
    ensures Presented(k, Step(g, o, s), arr, m)
  {
    ItemBatch(g, o, k, arr, s0, s, m);
    ChainIsDistinct(g, k);
    assert Distinct(k);
    hide Batch, Step, WellFormed, LegalOracle, Known, Steady, ChainContainer, Keep, InputsAvailable, Tokens, NoErrors, Turn;
    ShapeFrame(g, o, k, s0, s, m, 0, m, 1);
    ResultsGrow(g, o, k, s0, s, Step(g, o, s), m);
  }

  lemma ResultsGrow(g: Graph, o: Oracle, k: Cycle, s0: RunState, s: RunState, q: RunState, m: nat)
    requires Ready(s0) && LegalOrder(o) && Collects(g, o, k, s0, s, CollectedAt(m, 0)) && Extended(g, k, s, q, m)
    requires s == After(g, o, s0, Turn(k, m))
    ensures Collects(g, o, k, s0, q, m)
  {
    hide Step, Turn, ChildValue, After;
  }

  lemma ItemBatch(g: Graph, o: Oracle, k: Cycle, arr: seq<Value>, s0: RunState, s: RunState, m: nat)
    requires WellFormed(g) && LegalOracle(g, o) && ChainContainer(g, k) && Steady(g, o, k, arr) && Ready(s0)
    requires InputsAvailable(g, k, s0.path[..s0.idx]) && m < |arr|
    requires Ready(s) && s.status.Running? && Step(g, o, s).status.Running? && Shape(g, k, s0, s, m, 0)
    requires k.it !in Batch(g, o, s).path[|Pruned(g, s).path|..]
    ensures var q := Step(g, o, s);
            && Tokens(k, q.path, q.idx) == [At(k, 1)] && Counter(q, k.item) == m + 1 && NoErrors(k, q)
            && k.item in Pruned(g, s).path && Presented(k, q, arr, m) && Extended(g, k, s, q, m)
  {
    ChainIsDistinct(g, k);
    ReadyAt(g, k, s0, s, m, 0);
    assert At(k, 1) == k.body[0];
    hide WellFormed, Known, Steady, ChainContainer, Keep, InputsAvailable, NoErrors, Tokens, Visited, Step, Batch, Pruned, ChildValue, Presented, Extended;
    Present(g, o, k, arr, s, m);
    StepIsBatch(g, o, k, s);
    SameOutputs(g, k, arr, s, Batch(g, o, s), Step(g, o, s), m);
  }

  lemma SameOutputs(g: Graph, k: Cycle, arr: seq<Value>, s: RunState, a: RunState, b: RunState, m: nat)
    requires a.outs == b.outs && m <= |arr|
    ensures m < |arr| ==> (Presented(k, a, arr, m) <==> Presented(k, b, arr, m))
    ensures Extended(g, k, s, a, m) <==> Extended(g, k, s, b, m)
  {
    assert forall x :: Outputs(a, x) == Outputs(b, x);
    assert forall x, name :: Output(a, x, name) == Output(b, x, name);
  }

  /** The token waits at place `r` of pass `m`, the finished passes are collected, and right after
      the item ran the element of this pass is shown. */
  ghost predicate Placed(g: Graph, o: Oracle, k: Cycle, arr: seq<Value>, s0: RunState, s: RunState, m: nat, r: nat)
    requires Ready(s0) && Ready(s) && LegalOrder(o)
  {
    && r <= |k.body| && (m < |arr| || (m == |arr| && r == 0))
    && Shape(g, k, s0, s, m, r) && Collects(g, o, k, s0, s, CollectedAt(m, r))
    && (r == 1 ==> Presented(k, s, arr, m))
  }

  lemma NotReentered(g: Graph, o: Oracle, k: Cycle, s0: RunState, t: nat)
    requires Ready(s0) && LegalOrder(o) && NeverReentered(g, o, k, s0) && After(g, o, s0, t).status.Running?
    ensures k.it !in Batch(g, o, After(g, o, s0, t)).path[|Pruned(g, After(g, o, s0, t)).path|..]
  {
  }

  lemma EnteringReady(g: Graph, k: Cycle, s0: RunState)
    requires Entering(g, k, s0)
    ensures Ready(s0) && InputsAvailable(g, k, s0.path[..s0.idx])
  {
  }

  // ---------------------------------------------------------------- what can stop the run

  /** An entry of the batch outside the container holds an unhandled error. */
  ghost predicate FailsOutside(g: Graph, o: Oracle, k: Cycle, s: RunState)
    requires Ready(s) && LegalOrder(o)
  {
    exists p :: s.idx <= p < |Pruned(g, s).path| && Pruned(g, s).path[p] !in Inside(k) &&
      Unhandled(g, Invoked(g, o, s), Pruned(g, s).path[p])
  }

  ghost predicate FillUpPending(g: Graph, o: Oracle, s: RunState)
    requires Ready(s) && LegalOrder(o)
  {
    exists p :: |Pruned(g, s).path| <= p < |Batch(g, o, s).path| && Batch(g, o, s).path[p] in FillUps(g)
  }

  /** The next batch does not finish the run, and stops it only on a cancellation, on an unhandled error
      outside the container or on a pending fill-up. */
  ghost predicate GoesOnUnlessDisturbed(g: Graph, o: Oracle, k: Cycle, s: RunState)
    requires Ready(s) && LegalOrder(o)
  {
    match Step(g, o, s).status
    case Running => true
    case Finished => false
    case Canceled => o.cancel(s.idx)
    case Failed => FailsOutside(g, o, k, s)
    case Suspended => FillUpPending(g, o, s)
  }

  /** A batch that leaves the container with an entry pending, and without errors inside. */
  lemma TokenGoesOn(g: Graph, o: Oracle, k: Cycle, s: RunState)
    requires LegalOrder(o) && Ready(s) && s.status.Running?
    requires Tokens(k, Batch(g, o, s).path, |Pruned(g, s).path|) != [] && NoErrors(k, Batch(g, o, s))
    ensures GoesOnUnlessDisturbed(g, o, k, s)
  {
    hide Batch, Pruned, Invoked, FillUps;
    RoutingKeeps(g, o, s);
    StepCases(g, o, s);
    if !o.cancel(s.idx) {
      ErrorCutsBackTheBatch(g, o, s);
      if !Batch(g, o, s).status.Failed? {
        SuspendsOnPending(g, o, s);
      }
    }
  }

  lemma StepCases(g: Graph, o: Oracle, s: RunState)
    requires LegalOrder(o) && Ready(s) && s.status.Running?
    ensures var q := Step(g, o, s).status; var b := Batch(g, o, s);
            && (q.Canceled? <==> o.cancel(s.idx))
            && (!o.cancel(s.idx) ==> (q.Failed? <==> b.status.Failed?))
            && (q.Finished? ==> |b.path| == |Pruned(g, s).path|)
  {
    hide Batch, Pruned, FillUps, Keep;
    BatchRuns(g, o, s);
  }

  lemma BatchRuns(g: Graph, o: Oracle, s: RunState)
    requires LegalOrder(o) && Ready(s) && s.status.Running?
    ensures Batch(g, o, s).status.Running? || Batch(g, o, s).status.Failed?
  {
    hide RouteAll, InvokeAll, Prune;
  }

  lemma PlacedGoesOn(g: Graph, o: Oracle, k: Cycle, arr: seq<Value>, s0: RunState, s: RunState, m: nat, r: nat)
    requires WellFormed(g) && LegalOracle(g, o) && ChainContainer(g, k) && Steady(g, o, k, arr) && Ready(s0)
    requires InputsAvailable(g, k, s0.path[..s0.idx])
    requires Ready(s) && s.status.Running? && r <= |k.body| && m < |arr| && Shape(g, k, s0, s, m, r)
    requires k.it !in Batch(g, o, s).path[|Pruned(g, s).path|..]
    ensures GoesOnUnlessDisturbed(g, o, k, s)
  {
    hide Step, Batch, Pruned, WellFormed, Steady, ChainContainer, Keep, InputsAvailable, GoesOnUnlessDisturbed, Extended, Visited, LegalOracle,
         Tokens, NoErrors;
    OracleHasOrder(g, o);
    ChainIsDistinct(g, k);
    ReadyAt(g, k, s0, s, m, r);
    NextAt(k, r);
    if r == 0 {
      Present(g, o, k, arr, s, m);
    } else {
      AtIsNotItem(k, r);
      MoveOn(g, o, k, arr, s, At(k, r));
    }
    TokenGoesOn(g, o, k, s);
  }

  lemma EntryGoesOn(g: Graph, o: Oracle, k: Cycle, arr: seq<Value>, s0: RunState)
    requires WellFormed(g) && LegalOracle(g, o) && ChainContainer(g, k) && Steady(g, o, k, arr) && Entering(g, k, s0)
    requires k.it !in Batch(g, o, s0).path[|Pruned(g, s0).path|..]
    ensures GoesOnUnlessDisturbed(g, o, k, s0)
  {
    hide Step, Batch, Pruned, WellFormed, Steady, ChainContainer, Keep, GoesOnUnlessDisturbed, LegalOracle, Tokens, NoErrors;
    OracleHasOrder(g, o);
    ChainIsDistinct(g, k);
    MoveOn(g, o, k, arr, s0, k.it);
    TokenGoesOn(g, o, k, s0);
  }

  // ---------------------------------------------------------------- pass after pass

  lemma ProceedOne(g: Graph, o: Oracle, k: Cycle, arr: seq<Value>, s0: RunState, s: RunState, m: nat, r: nat)
    requires WellFormed(g) && LegalOracle(g, o) && ChainContainer(g, k) && Steady(g, o, k, arr) && Ready(s0)
    requires InputsAvailable(g, k, s0.path[..s0.idx])
    requires Ready(s) && s.status.Running? && Step(g, o, s).status.Running? && Placed(g, o, k, arr, s0, s, m, r)
    requires k.body != [] && m < |arr| && s == After(g, o, s0, Turn(k, m) + r)
    requires k.it !in Batch(g, o, s).path[|Pruned(g, s).path|..]
    ensures if r < |k.body| then Placed(g, o, k, arr, s0, Step(g, o, s), m, r + 1)
            else Placed(g, o, k, arr, s0, Step(g, o, s), m + 1, 0)
  {
    hide Step, Batch, Pruned, WellFormed, Steady, ChainContainer, Keep, InputsAvailable, Shape, Collects, Presented, After, Turn;
    if r == 0 {
      AdvanceItem(g, o, k, arr, s0, s, m);
    } else {
      AdvanceBody(g, o, k, arr, s0, s, m, r);
    }
  }

  lemma ProceedFirst(g: Graph, o: Oracle, k: Cycle, arr: seq<Value>, s0: RunState)
    requires Setting(g, o, k, arr, s0) && Step(g, o, s0).status.Running?
    ensures Placed(g, o, k, arr, s0, Step(g, o, s0), 0, 0)
  {
    assert After(g, o, s0, 0) == s0;
    assert k.it !in Batch(g, o, s0).path[|Pruned(g, s0).path|..];
    hide Step, Batch, Pruned, WellFormed, LegalOracle, Steady, ChainContainer, Keep, InputsAvailable, Shape, Collects;
    EnterContainer(g, o, k, arr, s0);
  }

  lemma ProceedAt(g: Graph, o: Oracle, k: Cycle, arr: seq<Value>, s0: RunState, t: nat, m: nat, r: nat)
    requires Setting(g, o, k, arr, s0) && m < |arr| && r <= |k.body| && t == Turn(k, m) + r
    requires After(g, o, s0, t).status.Running? ==> Placed(g, o, k, arr, s0, After(g, o, s0, t), m, r)
    ensures After(g, o, s0, t).status.Running? ==> GoesOnUnlessDisturbed(g, o, k, After(g, o, s0, t))
    ensures var q := After(g, o, s0, t + 1);
            q.status.Running? ==>
              if r < |k.body| then Placed(g, o, k, arr, s0, q, m, r + 1) else Placed(g, o, k, arr, s0, q, m + 1, 0)
  {
    hide Step, Batch, Pruned, WellFormed, Steady, ChainContainer, Placed, Entering, NeverReentered, InputsAvailable, After,
         GoesOnUnlessDisturbed;
    EnteringReady(g, k, s0);
    ChainIsDistinct(g, k);
    var s := After(g, o, s0, t);
    AfterSucc(g, o, s0, t);
    if !s.status.Running? {
      StoppedStays(g, o, s);
    } else {
      NotReentered(g, o, k, s0, t);
      PlacedShape(g, o, k, arr, s0, s, m, r);
      PlacedGoesOn(g, o, k, arr, s0, s, m, r);
      if Step(g, o, s).status.Running? {
        ProceedOne(g, o, k, arr, s0, s, m, r);
      }
    }
  }

  lemma PlacedShape(g: Graph, o: Oracle, k: Cycle, arr: seq<Value>, s0: RunState, s: RunState, m: nat, r: nat)
    requires Ready(s0) && Ready(s) && LegalOrder(o) && Placed(g, o, k, arr, s0, s, m, r)
    ensures r <= |k.body| && Shape(g, k, s0, s, m, r)
  {
  }

  /** The token is where the count of batches says, with the results of every finished pass. */
  lemma {:induction false} PlacedWhileRunning(g: Graph, o: Oracle, k: Cycle, arr: seq<Value>, s0: RunState, m: nat, r: nat)
    requires Setting(g, o, k, arr, s0) && r <= |k.body| && (m < |arr| || (m == |arr| && r == 0))
    ensures var s := After(g, o, s0, Turn(k, m) + r);
            s.status.Running? ==> Placed(g, o, k, arr, s0, s, m, r)
    decreases m, r
  {
    hide Placed, Step, After, WellFormed, LegalOracle, ChainContainer, Steady, Entering, NeverReentered;
    if m == 0 && r == 0 {
      FirstPlace(g, o, k, arr, s0);
    } else if r == 0 {
      PlacedWhileRunning(g, o, k, arr, s0, m - 1, |k.body|);
      ProceedAt(g, o, k, arr, s0, Turn(k, m) - 1, m - 1, |k.body|);
    } else {
      PlacedWhileRunning(g, o, k, arr, s0, m, r - 1);
      ProceedAt(g, o, k, arr, s0, Turn(k, m) + r - 1, m, r - 1);
    }
  }

  lemma FirstPlace(g: Graph, o: Oracle, k: Cycle, arr: seq<Value>, s0: RunState)
    requires Setting(g, o, k, arr, s0)
    ensures After(g, o, s0, 1).status.Running? ==> Placed(g, o, k, arr, s0, After(g, o, s0, 1), 0, 0)
  {
    hide After, Step, Placed, WellFormed, ChainContainer, Steady, NeverReentered;
    AfterSucc(g, o, s0, 0);
    if Step(g, o, s0).status.Running? {
      ProceedFirst(g, o, k, arr, s0);
    }
  }

  // ---------------------------------------------------------------- the run reaches the end of the array

  lemma {:induction false} PlaceOf(k: Cycle, n: nat, t: nat) returns (m: nat, r: nat)
    requires 0 < t < Turn(k, n)
    ensures m < n && r <= |k.body| && t == Turn(k, m) + r
    decreases n
  {
    if t < Turn(k, n - 1) {
      m, r := PlaceOf(k, n - 1, t);
    } else {
      m, r := n - 1, t - Turn(k, n - 1);
    }
  }

  /** Main result, progress: before all elements were shown, only a cancellation, an unhandled error of a
      component outside the container or a pending fill-up can stop the run. */
  lemma OnlyDisturbancesStopIt(g: Graph, o: Oracle, k: Cycle, arr: seq<Value>, s0: RunState, t: nat)
    requires Setting(g, o, k, arr, s0) && t < Turn(k, |arr|)
    ensures After(g, o, s0, t).status.Running? ==> GoesOnUnlessDisturbed(g, o, k, After(g, o, s0, t))
  {
    hide Placed, Step, After, WellFormed, RoutesDeclared, ChainContainer, Steady, GoesOnUnlessDisturbed, Turn, NeverReentered;
    EnteringReady(g, k, s0);
    if t == 0 {
      AfterSucc(g, o, s0, 0);
      if s0.status.Running? {
        NotReentered(g, o, k, s0, 0);
        EntryGoesOn(g, o, k, arr, s0);
      }
    } else {
      var m, r := PlaceOf(k, |arr|, t);
      PlacedWhileRunning(g, o, k, arr, s0, m, r);
      ProceedAt(g, o, k, arr, s0, t, m, r);
    }
  }

  lemma {:induction false} NeverFinishesEarly(g: Graph, o: Oracle, k: Cycle, arr: seq<Value>, s0: RunState, t: nat)
    requires Setting(g, o, k, arr, s0) && t <= Turn(k, |arr|)
    ensures !After(g, o, s0, t).status.Finished?
    decreases t
  {
    hide Step, WellFormed, RoutesDeclared, ChainContainer, Steady, Turn, NeverReentered, FailsOutside, FillUpPending;
    EnteringReady(g, k, s0);
    if t > 0 {
      NeverFinishesEarly(g, o, k, arr, s0, t - 1);
      OnlyDisturbancesStopIt(g, o, k, arr, s0, t - 1);
      AfterSucc(g, o, s0, t - 1);
      if !After(g, o, s0, t - 1).status.Running? {
        StoppedStays(g, o, After(g, o, s0, t - 1));
      }
    }
  }

  /** Main result: at every batch count up to the end of the array the run has not finished, and while it
      runs the token is at the place the count tells, with the results of every finished pass. */
  lemma IterationProceeds(g: Graph, o: Oracle, k: Cycle, arr: seq<Value>, s0: RunState, m: nat, r: nat)
    requires Setting(g, o, k, arr, s0) && r <= |k.body| && (m < |arr| || (m == |arr| && r == 0))
    ensures var s := After(g, o, s0, Turn(k, m) + r);
            !s.status.Finished? && (s.status.Running? ==> Placed(g, o, k, arr, s0, s, m, r))
  {
    hide Placed, Step, After, WellFormed, LegalOracle, ChainContainer, Steady, Entering, NeverReentered, Turn;
    if m < |arr| {
      TurnsGrow(k, m, |arr|);
    }
    PlacedWhileRunning(g, o, k, arr, s0, m, r);
    NeverFinishesEarly(g, o, k, arr, s0, Turn(k, m) + r);
  }

  lemma {:induction false} TurnsGrow(k: Cycle, m: nat, n: nat)
    requires m < n
    ensures Turn(k, m) + |k.body| + 1 <= Turn(k, n)
    decreases n
  {
    if m < n - 1 {
      TurnsGrow(k, m, n - 1);
    }
  }

  /** Main result, presenting: the item runs in batch Turn(m) + 1, for m = 0, 1, ..., and shows element m;
      the run does not finish before that. */
  lemma ElementsInOrder(g: Graph, o: Oracle, k: Cycle, arr: seq<Value>, s0: RunState, m: nat)
    requires Setting(g, o, k, arr, s0) && m < |arr|
    ensures After(g, o, s0, Turn(k, m)).status.Running? ==>
              Tokens(k, After(g, o, s0, Turn(k, m)).path, After(g, o, s0, Turn(k, m)).idx) == [k.item]
    ensures After(g, o, s0, Turn(k, m) + 1).status.Running? ==>
              Presented(k, After(g, o, s0, Turn(k, m) + 1), arr, m)
    ensures !After(g, o, s0, Turn(k, m) + 1).status.Finished?
  {
    hide Step, After, WellFormed, LegalOracle, ChainContainer, Steady, Entering, NeverReentered, Presented, Turn;
    EnteringReady(g, k, s0);
    ChainIsDistinct(g, k);
    TurnsGrow(k, m, |arr|);
    PlacedWhileRunning(g, o, k, arr, s0, m, 0);
    PlacedWhileRunning(g, o, k, arr, s0, m, 1);
    NeverFinishesEarly(g, o, k, arr, s0, Turn(k, m) + 1);
  }

  /** What the last batch of the iteration leaves: the container is left for its downstream, and output
      `name` holds one entry per element, entry j being the child's value when the item was reached
      after pass j. */
  ghost predicate Left(g: Graph, o: Oracle, k: Cycle, arr: seq<Value>, s0: RunState)
    requires Ready(s0) && LegalOrder(o)
  {
    var s := After(g, o, s0, Turn(k, |arr|)); var b := Batch(g, o, s); var end := |Pruned(g, s).path|;
    && Tokens(k, b.path, end) == [] && Counter(b, k.item) == -1 && NoErrors(k, b)
    && end > 0 && (forall d :: d in Lookup(g, k.it).downstream ==> d in b.path[end - 1..])
    && (arr != [] ==> forall name :: Referenced(g, k, name) ==>
          Output(b, k.it, name) == Items(Results(g, o, k, s0, name, |arr|)))
  }

  /** Main result, leaving: a run that is not disturbed before all elements were shown is not finished
      then, and its next batch leaves the container with all results. */
  lemma IterationLeaves(g: Graph, o: Oracle, k: Cycle, arr: seq<Value>, s0: RunState)
    requires Setting(g, o, k, arr, s0)
    ensures !After(g, o, s0, Turn(k, |arr|)).status.Finished?
    ensures After(g, o, s0, Turn(k, |arr|)).status.Running? ==> Left(g, o, k, arr, s0)
  {
    hide Step, After, WellFormed, LegalOrder, ChainContainer, Steady, Entering, NeverReentered, Shape, Batch, Pruned;
    var m := |arr|;
    EnteringReady(g, k, s0);
    ChainIsDistinct(g, k);
    NeverFinishesEarly(g, o, k, arr, s0, Turn(k, m));
    PlacedWhileRunning(g, o, k, arr, s0, m, 0);
    var s := After(g, o, s0, Turn(k, m));
    if s.status.Running? {
      NotReentered(g, o, k, s0, Turn(k, m));
      LeavingBatch(g, o, k, arr, s0, s);
      if m > 0 {
        ResultsComplete(g, o, k, s0, s, Batch(g, o, s), m);
      }
    }
  }

  lemma ResultsComplete(g: Graph, o: Oracle, k: Cycle, s0: RunState, s: RunState, b: RunState, m: nat)
    requires Ready(s0) && LegalOrder(o) && m > 0 && Collects(g, o, k, s0, s, m - 1) && Extended(g, k, s, b, m)
    requires s == After(g, o, s0, Turn(k, m))
    ensures forall name :: Referenced(g, k, name) ==> Output(b, k.it, name) == Items(Results(g, o, k, s0, name, m))
  {
    hide After, ChildValue, Turn;
  }

  lemma LeavingBatch(g: Graph, o: Oracle, k: Cycle, arr: seq<Value>, s0: RunState, s: RunState)
    requires WellFormed(g) && LegalOracle(g, o) && ChainContainer(g, k) && Steady(g, o, k, arr) && Ready(s0)
    requires InputsAvailable(g, k, s0.path[..s0.idx])
    requires Ready(s) && s.status.Running? && Shape(g, k, s0, s, |arr|, 0)
    requires k.it !in Batch(g, o, s).path[|Pruned(g, s).path|..]
    ensures var b := Batch(g, o, s); var end := |Pruned(g, s).path|;
            && Tokens(k, b.path, end) == [] && Counter(b, k.item) == -1 && NoErrors(k, b)
            && end > 0 && (forall d :: d in Lookup(g, k.it).downstream ==> d in b.path[end - 1..])
            && Extended(g, k, s, b, |arr|)
  {
    hide Step, WellFormed, Steady, Keep, Extended, Visited, InputsAvailable, Batch, Pruned, Tokens, NoErrors, ChainLink, Edge;
    assert k.it in g;
    hide ChainContainer;
    ReadyAt(g, k, s0, s, |arr|, 0);
    Present(g, o, k, arr, s, |arr|);
  }

  // ---------------------------------------------------------------- why the item must be fresh

  /** The item starts with element 0 exactly when its counter is 0; after a container was left the
      counter is -1, and entering it again first shows the last element, under index -1. */
  lemma FreshItemStartsAtZero(g: Graph, s: RunState, id: Id, a: Answer)
    requires !a.fails && !a.raises && !a.cancelLate && a.items.Some? && a.items.value != []
    requires Lookup(g, id).parent != Some(id) && -1 <= Counter(s, id) < |a.items.value|
    ensures var r := InvokeIterationItem(g, s, id, a); var arr := a.items.value;
            && (Output(r, id, "index") == Number(0) <==> Counter(s, id) == 0)
            && (Counter(s, id) == 0 ==> Output(r, id, "item") == arr[0])
            && (Counter(s, id) == -1 ==>
                  Output(r, id, "item") == arr[|arr| - 1] && Output(r, id, "index") == Number(-1) && Counter(r, id) == 0)
  {
    hide Collation;
  }

  /** A new run keeps the counters: what one run left at -1 is still -1 at the next launch. */
  lemma LaunchKeepsCounters(s: RunState, id: Id)
    ensures Counter(Launch(s), id) == Counter(s, id)
  {
    hide NamesFillUp;
  }
}
