/**
 Containers that do not do what they are for: an Iteration with an empty body, which ends the run after
 one element, an item used again, which starts with the last element, and an item whose failures start
 passes nobody counts, which never stops.
 */
module CanvasStalls {
  import opened Prelude
  import opened CanvasModel
  import opened CanvasRuns
  import opened CanvasContainer
  import opened CanvasIteration
  import opened CanvasEntry

  // ---------------------------------------------------------------- batches of one entry

  /** Exactly one entry is pending, and its inputs are there. */
  predicate Solo(g: Graph, s: RunState, x: Id) {
    && Ready(s) && s.status.Running? && |s.path| == s.idx + 1 && s.path[s.idx] == x
    && Kept(g, s.path[..s.idx], x)
  }

  lemma SoloBatch(g: Graph, o: Oracle, s: RunState, x: Id)
    requires LegalOrder(o) && Solo(g, s, x)
    ensures Pruned(g, s) == s && Batch(g, o, s) == Route(g, o, Invoke(g, o, s, s.idx), s.idx)
  {
    hide Kept, Route, Invoke;
    assert s.path[s.idx..] == [x] && [x][1..] == [];
    assert s.path[..s.idx] + [x] == s.path;
    assert Prune(g, s.path, []) == s.path && Prune(g, s.path[..s.idx], [x]) == Prune(g, s.path, []);
    var ps := o.order(s.idx, |s.path|);
    assert Permutes(ps, s.idx, |s.path|);
    assert ps == [s.idx] && ps[1..] == [];
    var t := Invoke(g, o, s, s.idx);
    assert InvokeAll(g, o, t, []) == t;
    assert RouteAll(g, o, Route(g, o, t, s.idx), s.idx + 1, s.idx + 1) == Route(g, o, t, s.idx);
  }

  /** A batch of one entry that does not fail and leaves no fill-up pending. */
  lemma SoloStep(g: Graph, o: Oracle, s: RunState, x: Id)
    requires LegalOrder(o) && Solo(g, s, x) && !o.cancel(s.idx)
    requires var b := Route(g, o, Invoke(g, o, s, s.idx), s.idx);
             !b.status.Failed? && forall d :: d in b.path[|s.path|..] ==> d !in FillUps(g)
    ensures var b := Route(g, o, Invoke(g, o, s, s.idx), s.idx);
            Step(g, o, s) == b.(idx := |s.path|, status := if |b.path| == |s.path| then Finished else Running)
  {
    hide Kept, Route, Invoke, FillUps, Prune;
    SoloBatch(g, o, s, x);
    KeepNone(Batch(g, o, s).path[|s.path|..], FillUps(g));
  }

  lemma ExtendOne(path: seq<Id>, d: Id)
    ensures ExtendPath(path, [d]) == AppendPath(path, d)
  {
    assert [d][1..] == [] && ExtendPath(AppendPath(path, d), []) == AppendPath(path, d);
  }

  // ---------------------------------------------------------------- an empty body

  /** An Iteration whose item has no successor. */
  predicate EmptyIteration(g: Graph, it: Id, item: Id) {
    && it in g && item in g && g[it].kind.Iteration? && g[it].kind.itStart == item
    && g[item].kind.IterationItem? && g[item].parent == Some(it) && g[item].downstream == []
  }

  /** The item of an empty Iteration is scheduled again exactly when another entry is last on the path. */
  lemma EmptyBodyReturns(g: Graph, o: Oracle, s: RunState, i: nat, it: Id, item: Id)
    requires EmptyIteration(g, it, item) && i < |s.path| && s.path[i] == item
    requires Counter(s, item) != -1 && !(item in s.errs && Goto(g[item]) != [])
    ensures Route(g, o, s, i).path == if s.path[|s.path| - 1] == item then s.path else s.path + [item]
  {
    assert Targets(g, s, item, o.answer(i, item)) == [item];
    ExtendOne(s.path, item);
  }

  /** The fresh Iteration `it` is the only entry pending, and the inputs of both components are there. */
  predicate EmptyEntering(g: Graph, s: RunState, it: Id, item: Id) {
    && Solo(g, s, it) && Kept(g, s.path, item)
    && Counter(s, item) == 0 && it !in s.errs && item !in s.errs
  }

  /** The next two batches are not canceled, and the two components do what they should over `arr`. */
  ghost predicate EmptyCalm(o: Oracle, s: RunState, it: Id, item: Id, arr: seq<Value>) {
    && !o.cancel(s.idx) && !o.cancel(s.idx + 1) && !o.answer(s.idx, it).fails
    && var a := o.answer(s.idx + 1, item); !a.fails && !a.raises && !a.cancelLate && a.items == Some(arr)
  }

  lemma EmptyEnters(g: Graph, o: Oracle, s: RunState, it: Id, item: Id, arr: seq<Value>)
    requires LegalOrder(o) && EmptyIteration(g, it, item) && EmptyEntering(g, s, it, item) && EmptyCalm(o, s, it, item, arr)
    ensures Step(g, o, s) == s.(path := s.path + [item], idx := s.idx + 1)
  {
    hide Kept, Step;
    var t := Invoke(g, o, s, s.idx);
    assert t == s;
    var b := Route(g, o, s, s.idx);
    assert Targets(g, s, it, o.answer(s.idx, it)) == [item];
    ExtendOne(s.path, item);
    assert b == s.(path := s.path + [item]);
    assert b.path[|s.path|..] == [item];
    SoloStep(g, o, s, it);
  }

  /** Main result: an Iteration with an empty body over a non-empty array ends the run. It shows element 0,
      and nothing after the Iteration is ever scheduled. */
  lemma EmptyBodyEndsTheRun(g: Graph, o: Oracle, s: RunState, it: Id, item: Id, arr: seq<Value>)
    requires LegalOrder(o) && EmptyIteration(g, it, item) && EmptyEntering(g, s, it, item) && EmptyCalm(o, s, it, item, arr)
    requires arr != []
    ensures var q := After(g, o, s, 2);
            && q.status.Finished? && q.path == s.path + [item]
            && Output(q, item, "item") == arr[0] && Output(q, item, "index") == Number(0) && Counter(q, item) == 1
  {
    hide Kept, Step;
    EmptyEnters(g, o, s, it, item, arr);
    AfterSucc(g, o, s, 0);
    AfterSucc(g, o, s, 1);
    var r := Step(g, o, s);
    assert r.path[..r.idx] == s.path && r.path[r.idx..] == [item];
    var t := Invoke(g, o, r, r.idx);
    assert t == InvokeIterationItem(g, r, item, o.answer(r.idx, item));
    EmptyBodyReturns(g, o, t, r.idx, it, item);
    var b := Route(g, o, t, r.idx);
    assert b.path[|r.path|..] == [];
    SoloStep(g, o, r, item);
  }

  /** Over an empty array it does what a full one does: the run goes on to the Iteration's downstream. */
  lemma EmptyBodyLeavesEmptyArray(g: Graph, o: Oracle, s: RunState, it: Id, item: Id)
    requires LegalOrder(o) && EmptyIteration(g, it, item) && EmptyEntering(g, s, it, item) && EmptyCalm(o, s, it, item, [])
    ensures Batch(g, o, After(g, o, s, 1)).path == ExtendPath(s.path + [item], g[it].downstream)
  {
    hide Kept, Step;
    EmptyEnters(g, o, s, it, item, []);
    AfterSucc(g, o, s, 0);
    var r := Step(g, o, s);
    assert r.path[..r.idx] == s.path;
    SoloBatch(g, o, r, item);
  }

  // ---------------------------------------------------------------- an item used again

  /** The states in which the item of Iteration `pid` is invoked, one after the other, over the array `arr`; in
      between anything may change but its index. It was left at -1 before. */
  ghost predicate UsedAgain(g: Graph, id: Id, pid: Id, arr: seq<Value>, states: nat -> RunState, answers: nat -> Answer) {
    && Lookup(g, id).parent == Some(pid) && pid != id && arr != []
    && Counter(states(0), id) == -1
    && (forall i: nat {:trigger answers(i)} ::
          !answers(i).fails && !answers(i).raises && !answers(i).cancelLate && answers(i).items == Some(arr))
    && forall i: nat :: KeepsCount(g, id, states, answers, i)
  }

  predicate KeepsCount(g: Graph, id: Id, states: nat -> RunState, answers: nat -> Answer, i: nat) {
    Counter(states(i + 1), id) == Counter(InvokeIterationItem(g, states(i), id, answers(i)), id)
  }

  lemma {:induction false} AgainCounts(g: Graph, id: Id, pid: Id, arr: seq<Value>, states: nat -> RunState, answers: nat -> Answer, i: nat)
    requires UsedAgain(g, id, pid, arr, states, answers) && i <= |arr| + 1
    ensures Counter(states(i), id) == i - 1
  {
    hide Collation;
    if i > 0 {
      AgainCounts(g, id, pid, arr, states, answers, i - 1);
      assert answers(i - 1).items == Some(arr);
      assert KeepsCount(g, id, states, answers, i - 1);
    }
  }

  /** The second use of an item makes one pass more than the array has elements: it presents the last element
      under index -1, then every element in order, and ends. Every pass but that first one is collected. */
  lemma SecondUseRepeatsTheLast(g: Graph, id: Id, pid: Id, arr: seq<Value>, states: nat -> RunState, answers: nat -> Answer, i: nat)
    requires UsedAgain(g, id, pid, arr, states, answers) && i <= |arr| + 1
    ensures var s := states(i); var r := InvokeIterationItem(g, s, id, answers(i));
            && (i <= |arr| ==> Output(r, id, "item") == (if i == 0 then arr[|arr| - 1] else arr[i - 1]) &&
                               Output(r, id, "index") == Number(i - 1) && Counter(r, id) == i)
            && (i == |arr| + 1 ==> Counter(r, id) == -1)
            && Outputs(r, pid) == Outputs(s, pid) + (if i >= 2 then Collation(g, s, pid) else map[])
  {
    hide Collation;
    AgainCounts(g, id, pid, arr, states, answers, i);
    assert answers(i).items == Some(arr);
    assert Outputs(states(i), pid) + map[] == Outputs(states(i), pid);
  }

  // ---------------------------------------------------------------- an item whose failures start passes

  /** The invocation goes wrong before the item counts, and that neither fails the run nor leaves the
      container: the exception is swallowed, or the error falls through. */
  predicate Uncounted(g: Graph, k: Cycle, a: Answer) {
    if FallsThrough(g, k) then a.fails || a.raises else Lookup(g, k.item).swallows && a.raises && !a.fails
  }

  /** The item goes wrong in this way every time and is not stopped; nothing else in the container errs and
      nothing cancels the run. */
  ghost predicate ItemNeverCounts(g: Graph, o: Oracle, k: Cycle) {
    && (forall i: nat :: !o.cancel(i))
    && (forall p: nat {:trigger o.answer(p, k.item)} :: Uncounted(g, k, o.answer(p, k.item)) && !o.answer(p, k.item).stop)
    && (forall p: nat, x {:trigger o.answer(p, x)} :: x in Inside(k) && x != k.item ==> !o.answer(p, x).fails)
  }

  /** Place `r` of a pass is the only entry pending; the item has not counted and only it holds an error. */
  ghost predicate Spinning(g: Graph, k: Cycle, done: seq<Id>, s: RunState, r: nat)
    requires r <= |k.body|
  {
    && Ready(s) && s.status.Running? && |s.path| == s.idx + 1 && s.path[s.idx] == At(k, r)
    && (forall x :: x in done ==> x in s.path[..s.idx])
    && Counter(s, k.item) == 0 && (forall x :: x in Inside(k) && x in s.errs ==> x == k.item && FallsThrough(g, k))
    && k.it in s.path[..s.idx] && (r > 0 ==> k.item in s.path[..s.idx])
    && forall j :: 0 <= j < r - 1 ==> k.body[j] in s.path[..s.idx]
  }

  lemma SpinReady(g: Graph, k: Cycle, done: seq<Id>, s: RunState, r: nat)
    requires r <= |k.body| && InputsAvailable(g, k, done) && Spinning(g, k, done, s, r)
    ensures Solo(g, s, At(k, r))
  {
    hide NamesFillUp;
    var before := s.path[..s.idx];
    if r > 0 {
      var known := done + [k.it, k.item] + k.body[..r - 1];
      assert InputsIn(g, known, k.body[r - 1]);
      forall x | x in known
        ensures x in before
      {
        if x in k.body[..r - 1] {
          var j :| 0 <= j < r - 1 && k.body[..r - 1][j] == x;
          assert k.body[j] in before;
        }
      }
    }
  }

  lemma SpinInvoke(g: Graph, o: Oracle, k: Cycle, done: seq<Id>, s: RunState, r: nat)
    requires ChainContainer(g, k) && ItemNeverCounts(g, o, k) && r <= |k.body| && Spinning(g, k, done, s, r)
    ensures var t := Invoke(g, o, s, s.idx);
            && Counter(t, k.item) == 0 && (forall x :: x in Inside(k) && x in t.errs ==> x == k.item && FallsThrough(g, k))
  {
    hide Edge, Collation;
    var x := At(k, r);
    assert x in Inside(k);
    if r > 0 {
      assert ChainLink(g, k, r - 1);
      assert x != k.item;
    }
    assert x == k.item ==> Uncounted(g, k, o.answer(s.idx, x));
    assert x != k.item ==> !o.answer(s.idx, x).fails;
  }

  lemma SpinRoute(g: Graph, o: Oracle, k: Cycle, t: RunState, i: nat, r: nat)
    requires ChainContainer(g, k) && ItemNeverCounts(g, o, k) && r <= |k.body|
    requires i == |t.path| - 1 && t.path[i] == At(k, r) && t.status.Running? && Counter(t, k.item) == 0
    requires forall x :: x in Inside(k) && x in t.errs ==> x == k.item && FallsThrough(g, k)
    ensures Route(g, o, t, i) == t.(path := t.path + [At(k, if r < |k.body| then r + 1 else 0)])
  {
    hide Edge, ChainLink;
    var x := At(k, r);
    NextAt(k, r);
    NextDiffers(k, x);
    TargetsInside(g, k, t, x, o.answer(i, x));
    assert x == k.item ==> !o.answer(i, x).stop;
    ExtendOne(t.path, NextOf(k, x));
  }

  lemma SpinStep(g: Graph, o: Oracle, k: Cycle, done: seq<Id>, s: RunState, r: nat)
    requires LegalOrder(o) && ChainContainer(g, k) && ItemNeverCounts(g, o, k)
    requires r <= |k.body| && InputsAvailable(g, k, done) && Spinning(g, k, done, s, r)
    ensures Spinning(g, k, done, Step(g, o, s), if r < |k.body| then r + 1 else 0)
  {
    hide Edge, ChainContainer, Invoke, Route, InputsAvailable, FillUps, Kept, Step;
    ChainIsDistinct(g, k);
    SpinReady(g, k, done, s, r);
    SpinInvoke(g, o, k, done, s, r);
    var t := Invoke(g, o, s, s.idx);
    SpinRoute(g, o, k, t, s.idx, r);
    var next := At(k, if r < |k.body| then r + 1 else 0);
    NoFillUpInside(g, k, next);
    var b := Route(g, o, t, s.idx);
    assert b.path[|s.path|..] == [next];
    SoloStep(g, o, s, At(k, r));
    var q := Step(g, o, s);
    assert q.path[..q.idx] == s.path == s.path[..s.idx] + [At(k, r)];
  }

  lemma NoFillUpInside(g: Graph, k: Cycle, x: Id)
    requires ChainContainer(g, k) && x in Inside(k)
    ensures x !in FillUps(g)
  {
    hide Edge;
    if x in k.body {
      var j :| 0 <= j < |k.body| && k.body[j] == x;
      assert ChainLink(g, k, j);
    }
  }

  lemma {:induction false} SpinAlways(g: Graph, o: Oracle, k: Cycle, done: seq<Id>, s: RunState, n: nat) returns (r: nat)
    requires LegalOrder(o) && ChainContainer(g, k) && ItemNeverCounts(g, o, k)
    requires InputsAvailable(g, k, done) && Spinning(g, k, done, s, 0)
    ensures r <= |k.body| && Spinning(g, k, done, After(g, o, s, n), r)
  {
    hide Edge, ChainContainer, InputsAvailable, Spinning, Step;
    SpinningReady(g, k, done, s, 0);
    r := 0;
    if n > 0 {
      r := SpinAlways(g, o, k, done, s, n - 1);
      SpinStep(g, o, k, done, After(g, o, s, n - 1), r);
      r := if r < |k.body| then r + 1 else 0;
    }
  }

  lemma SpinningReady(g: Graph, k: Cycle, done: seq<Id>, s: RunState, r: nat)
    requires r <= |k.body| && Spinning(g, k, done, s, r)
    ensures Ready(s) && s.status.Running?
  {
  }

  /** Main result: an item that always goes wrong before it counts, with a default value that hides it, keeps
      the run going for ever: the body is entered again and again and no pass is ever counted. */
  lemma UncountedPassesNeverStop(g: Graph, o: Oracle, k: Cycle, done: seq<Id>, s: RunState, n: nat)
    requires LegalOrder(o) && ChainContainer(g, k) && ItemNeverCounts(g, o, k)
    requires InputsAvailable(g, k, done) && Spinning(g, k, done, s, 0)
    ensures Ready(s) && After(g, o, s, n).status.Running? && Counter(After(g, o, s, n), k.item) == 0
  {
    SpinningReady(g, k, done, s, 0);
    hide Edge, ChainContainer, InputsAvailable, Step, After;
    var r := SpinAlways(g, o, k, done, s, n);
  }

  /** The graph with an item that swallows its exceptions, over an array that cannot be read. */
  const STUCK: Graph := GRAPH["item" := ITEM.(handler := Handler([], true), swallows := true)]

  const UNREADABLE := Oracle((p, id) => Answer(false, true, false, [], None, false, map[]), c => false, InTurn)

  lemma StuckEdges()
    ensures forall c, d {:trigger Edge(STUCK, c, d)} :: c in STUCK ==> (Edge(STUCK, c, d) <==> GraphEdge(c, d))
  {
  }

  lemma StuckIsEntered()
    ensures forall c, d {:trigger Edge(STUCK, c, d)} ::
              c in STUCK && c !in Inside(CYCLE) && d in Inside(CYCLE) && Edge(STUCK, c, d) ==> d == CYCLE.it
  {
    StuckEdges();
    hide Edge;
  }

  lemma StuckIsChained()
    ensures ChainContainer(STUCK, CYCLE)
  {
    hide Edge;
    StuckIsEntered();
    assert Inside(CYCLE) == {"loop", "item", "work"};
    assert STUCK["loop"] == ITERATION && STUCK["work"] == WORK && STUCK["item"].parent == Some("loop");
    assert forall j: nat :: j < |CYCLE.body| ==> ChainLink(STUCK, CYCLE, j);
  }

  /** Every item raises, everything else succeeds, nothing is canceled. */
  lemma UnreadableIsLegal(g: Graph, k: Cycle)
    ensures LegalOracle(g, UNREADABLE)
    ensures Hides(g, k) ==> ItemNeverCounts(g, UNREADABLE, k)
  {
    forall f: nat, t: nat | f <= t
      ensures Permutes(UNREADABLE.order(f, t), f, t)
    {
      assert UNREADABLE.order(f, t) == InTurn(f, t);
    }
  }
}
