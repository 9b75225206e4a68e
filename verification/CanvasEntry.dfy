/**
 When a container is entered once: a condition on the graph alone, and a graph that meets every
 hypothesis of the container and iteration theorems.
 */
module CanvasEntry {
  import opened Prelude
  import opened CanvasModel
  import opened CanvasRuns
  import opened CanvasContainer
  import opened CanvasIteration
  import opened CanvasProgress

  /** Only `x` leads to `y`, and it lists `y` at most once. */
  ghost predicate Leads(g: Graph, x: Id, y: Id) {
    && x in g && (g[x].kind.Begin? || g[x].kind.UserFillUp? || g[x].kind.Other?)
    && AtMostOnce(g[x].downstream, 0, y) && AtMostOnce(Goto(g[x]), 0, y)
    && forall c {:trigger Edge(g, c, y)} :: c in g && Edge(g, c, y) ==> c == x
  }

  /** Each stop is led to by the one before alone, and nothing leads back to the first. */
  ghost predicate SingleFile(g: Graph, stops: seq<Id>) {
    && stops != [] && (forall c {:trigger Edge(g, c, stops[0])} :: c in g ==> !Edge(g, c, stops[0]))
    && forall j :: 0 < j < |stops| ==> stops[j] != stops[0] && Leads(g, stops[j - 1], stops[j])
  }

  /** The components of `way`, in single file, are the only way into the container. */
  ghost predicate OneWayIn(g: Graph, k: Cycle, way: seq<Id>) {
    way != [] && SingleFile(g, way + [k.it])
  }

  lemma OnceAppend(a: seq<Id>, lo: nat, b: seq<Id>, x: Id)
    requires lo <= |a| && AtMostOnce(a, lo, x) && AtMostOnce(b, 0, x) && (x in a[lo..] ==> x !in b)
    ensures AtMostOnce(a + b, lo, x)
  {
  }

  lemma {:induction false} OncePruned(g: Graph, done: seq<Id>, rest: seq<Id>, lo: nat, x: Id)
    requires lo <= |done| && AtMostOnce(done + rest, lo, x)
    ensures AtMostOnce(Prune(g, done, rest), lo, x)
    decreases |rest|
  {
    hide Kept;
    if rest == [] {
      assert done + rest == done;
    } else if Kept(g, done, rest[0]) {
      assert done + [rest[0]] + rest[1..] == done + rest;
      OncePruned(g, done + [rest[0]], rest[1..], lo, x);
    } else {
      OnceWithout(done, rest, lo, x);
      OncePruned(g, done, rest[1..], lo, x);
    }
  }

  lemma OnceWithout(done: seq<Id>, rest: seq<Id>, lo: nat, x: Id)
    requires lo <= |done| && rest != [] && AtMostOnce(done + rest, lo, x)
    ensures AtMostOnce(done + rest[1..], lo, x)
  {
    var a, b := done + rest, done + rest[1..];
    forall i, j | lo <= i < j < |b|
      ensures !(b[i] == x && b[j] == x)
    {
      var i', j' := if i < |done| then i else i + 1, if j < |done| then j else j + 1;
      assert b[i] == a[i'] && b[j] == a[j'];
    }
  }

  lemma NoneIsOnce(ids: seq<Id>, x: Id)
    requires x !in ids
    ensures AtMostOnce(ids, 0, x)
  {
  }

  lemma {:induction false} OnceExtended(path: seq<Id>, ids: seq<Id>, lo: nat, x: Id)
    requires lo <= |path| && AtMostOnce(path, lo, x) && AtMostOnce(ids, 0, x) && (x in path[lo..] ==> x !in ids)
    ensures AtMostOnce(ExtendPath(path, ids), lo, x)
    decreases |ids|
  {
    if ids != [] {
      var next := AppendPath(path, ids[0]);
      if next != path {
        OnceAppend(path, lo, [ids[0]], x);
        assert next[lo..] == path[lo..] + [ids[0]];
      }
      OnceTail(ids, x);
      OnceExtended(next, ids[1..], lo, x);
    }
  }

  lemma OnceTail(ids: seq<Id>, x: Id)
    requires ids != [] && AtMostOnce(ids, 0, x)
    ensures AtMostOnce(ids[1..], 0, x) && (ids[0] == x ==> x !in ids[1..])
  {
    assert forall i :: 0 <= i < |ids| - 1 ==> ids[1..][i] == ids[i + 1];
  }

  /** A batch of which every entry is dropped ends the run. */
  lemma NothingPruned(g: Graph, o: Oracle, s: RunState)
    requires LegalOrder(o) && Ready(s) && s.status.Running?
    ensures |Pruned(g, s).path| == s.idx ==> !Step(g, o, s).status.Running?
  {
    hide Prune, Keep, FillUps;
  }

  lemma LaunchedPath(g: Graph, s0: RunState)
    requires Launched(g, s0)
    ensures Ready(s0) && s0.status.Running? && |s0.path| > 0
  {
  }

  /** Routing one entry schedules `y` at most once, and only if the entry is `x`. */
  lemma RouteOnce(g: Graph, o: Oracle, s: RunState, i: nat, lo: nat, x: Id, y: Id)
    requires WellFormed(g) && LegalOracle(g, o) && Leads(g, x, y) && Known(g, s.path)
    requires lo <= i < |s.path| && AtMostOnce(s.path, lo, y) && (s.path[i] == x ==> y !in s.path[lo..])
    ensures AtMostOnce(Route(g, o, s, i).path, lo, y) && Known(g, Route(g, o, s, i).path)
    ensures s.path[i] != x && y !in s.path[lo..] ==> y !in Route(g, o, s, i).path[lo..]
  {
    RouteEdges(g, o, s, i);
    hide Edge, WellFormed, AtMostOnce;
    var r := Route(g, o, s, i).path;
    if s.path[i] == x {
      var t := Targets(g, s, x, o.answer(i, x));
      OneIsOnce(StartOf(Parent(g, g[x]).kind), y);
      assert AtMostOnce(t, 0, y);
      OnceExtended(s.path, t, lo, y);
      OnceAppend(s.path, lo, Goto(g[x]), y);
    } else {
      var tail := r[|s.path|..];
      assert forall p :: 0 <= p < |tail| ==> tail[p] == r[|s.path| + p];
      NoneIsOnce(tail, y);
      OnceAppend(s.path, lo, tail, y);
      assert r == s.path + tail && r[lo..] == s.path[lo..] + tail;
    }
  }

  lemma OneIsOnce(d: Id, y: Id)
    ensures AtMostOnce([d], 0, y)
  {
  }

  lemma {:induction false} RouteAllOnce(g: Graph, o: Oracle, s: RunState, i: nat, end: nat, lo: nat, x: Id, y: Id)
    requires WellFormed(g) && LegalOracle(g, o) && Leads(g, x, y) && Known(g, s.path)
    requires lo <= i <= end <= |s.path| && AtMostOnce(s.path, lo, y)
    requires AtMostOnce(s.path[..end], i, x) && (x in s.path[i..end] ==> y !in s.path[lo..])
    ensures AtMostOnce(RouteAll(g, o, s, i, end).path, lo, y)
    decreases end - i
  {
    hide WellFormed, LegalOracle, Leads, Route, Known;
    if i < end {
      assert s.path[i] in s.path[i..end];
      RouteOnce(g, o, s, i, lo, x, y);
      var r := Route(g, o, s, i);
      assert r.path[..end] == s.path[..end];
      assert r.path[i + 1..end] == s.path[i..end][1..];
      if s.path[i] == x {
        assert forall p :: i < p < end ==> s.path[..end][p] != x && r.path[i + 1..end][p - i - 1] == s.path[..end][p];
      }
      RouteAllOnce(g, o, r, i + 1, end, lo, x, y);
    }
  }

  /** When `x` is about to be routed, `y` has not been scheduled yet: its source would be an earlier `x`. */
  lemma NotYetScheduled(g: Graph, path: seq<Id>, lo: nat, idx: nat, p: nat, x: Id, y: Id)
    requires Leads(g, x, y) && Known(g, path) && lo <= idx <= p < |path| && path[p] == x
    requires Sourced(g, path, lo, idx) && AtMostOnce(path, lo, x) && path[lo] != y
    ensures y !in path[lo..]
  {
    hide Edge;
    forall q | lo <= q < |path|
      ensures path[q] != y
    {
      if q > lo {
        assert HasSource(g, path, lo, idx, q);
      }
    }
  }

  lemma BatchOnce(g: Graph, o: Oracle, s0: RunState, s: RunState, x: Id, y: Id)
    requires WellFormed(g) && LegalOracle(g, o) && Launched(g, s0) && Traced(g, s0, s)
    requires Ready(s) && s.status.Running? && Leads(g, x, y)
    requires AtMostOnce(s.path, s0.idx, x) && AtMostOnce(s.path, s0.idx, y)
    requires |Pruned(g, s).path| > s0.idx && Pruned(g, s).path[s0.idx] != y
    ensures AtMostOnce(Batch(g, o, s).path, s0.idx, y)
  {
    hide Edge, WellFormed, RoutesDeclared, Leads, AtMostOnce, Route, RouteAll, InvokeAll, Sourced, InputsReady, Prune;
    var lo := s0.idx;
    PrunedShape(g, s);
    PrunedTraced(g, s0, s);
    assert s.path[..s.idx] + s.path[s.idx..] == s.path;
    OncePruned(g, s.path[..s.idx], s.path[s.idx..], lo, x);
    OncePruned(g, s.path[..s.idx], s.path[s.idx..], lo, y);
    var path := Pruned(g, s).path;
    if x in path[s.idx..] {
      var p :| s.idx <= p < |path| && path[p] == x;
      NotYetScheduled(g, path, lo, s.idx, p, x, y);
    }
    OnceFrom(path, lo, s.idx, x);
    assert path[..|path|] == path && path[s.idx..|path|] == path[s.idx..];
    RouteAllOnce(g, o, Invoked(g, o, s), s.idx, |path|, lo, x, y);
  }

  lemma OnceFrom(path: seq<Id>, lo: nat, i: nat, x: Id)
    requires lo <= i && AtMostOnce(path, lo, x)
    ensures AtMostOnce(path, i, x)
  {
  }

  /** What no component leads to is not scheduled. */
  lemma UnledOnce(g: Graph, o: Oracle, s0: RunState, s: RunState, y: Id)
    requires WellFormed(g) && LegalOracle(g, o) && Known(g, s.path) && Ready(s) && s0.idx <= s.idx
    requires (forall c {:trigger Edge(g, c, y)} :: c in g ==> !Edge(g, c, y)) && AtMostOnce(s.path, s0.idx, y)
    ensures AtMostOnce(Batch(g, o, s).path, s0.idx, y)
  {
    hide Edge, WellFormed, AtMostOnce, Batch, Prune;
    PrunedShape(g, s);
    BatchEdges(g, o, s);
    assert s.path[..s.idx] + s.path[s.idx..] == s.path;
    OncePruned(g, s.path[..s.idx], s.path[s.idx..], s0.idx, y);
    var path, b := Pruned(g, s).path, Batch(g, o, s).path;
    var tail := b[|path|..];
    forall p | |path| <= p < |b|
      ensures b[p] != y
    {
      assert FromBatch(g, path, s.idx, |path|, b[p]);
    }
    assert forall p :: 0 <= p < |tail| ==> tail[p] == b[|path| + p];
    NoneIsOnce(tail, y);
    OnceAppend(path, s0.idx, tail, y);
    assert b == path + tail;
  }

  /** The run's first entry stays where it is, and every stop is scheduled at most once. */
  predicate StopsOnce(stops: seq<Id>, lo: nat, s: RunState) {
    && stops != [] && lo < |s.path| && s.path[lo] == stops[0]
    && forall j :: 0 <= j < |stops| ==> AtMostOnce(s.path, lo, stops[j])
  }

  lemma StopsStayOnce(g: Graph, o: Oracle, stops: seq<Id>, s0: RunState, s: RunState)
    requires WellFormed(g) && LegalOracle(g, o) && SingleFile(g, stops) && Launched(g, s0) && Traced(g, s0, s)
    requires Ready(s) && s.status.Running? && Step(g, o, s).status.Running? && StopsOnce(stops, s0.idx, s)
    ensures StopsOnce(stops, s0.idx, Step(g, o, s))
  {
    hide Edge, WellFormed, RoutesDeclared, Leads, AtMostOnce, Step, Batch, Prune, Sourced, InputsReady;
    RunningStep(g, o, s);
    FirstStays(g, o, s0, s);
    var b := Batch(g, o, s);
    forall j | 0 <= j < |stops|
      ensures AtMostOnce(b.path, s0.idx, stops[j])
    {
      if j == 0 {
        UnledOnce(g, o, s0, s, stops[0]);
      } else {
        BatchOnce(g, o, s0, s, stops[j - 1], stops[j]);
      }
    }
  }

  lemma FirstStays(g: Graph, o: Oracle, s0: RunState, s: RunState)
    requires LegalOrder(o) && Launched(g, s0) && Traced(g, s0, s) && Ready(s) && s.status.Running?
    requires Step(g, o, s).status.Running? && s0.idx < |s.path|
    ensures |Pruned(g, s).path| > s0.idx && Pruned(g, s).path[s0.idx] == s.path[s0.idx]
  {
    hide Edge, Sourced, InputsReady, Kept, Step;
    PrunedShape(g, s);
    NothingPruned(g, o, s);
    var path := Pruned(g, s).path;
    if s.idx == s0.idx {
      assert s.path[s.idx..] == [s.path[s.idx]];
    } else {
      assert s.path[..s.idx][s0.idx] == s.path[s0.idx];
    }
  }

  lemma {:induction false} StopsAlwaysOnce(g: Graph, o: Oracle, stops: seq<Id>, s0: RunState, m: nat)
    requires WellFormed(g) && LegalOracle(g, o) && SingleFile(g, stops) && Launched(g, s0) && s0.path[s0.idx] == stops[0]
    ensures After(g, o, s0, m).status.Running? ==> StopsOnce(stops, s0.idx, After(g, o, s0, m))
  {
    hide Step, StopsOnce, SingleFile, Edge, WellFormed, Launched, Traced, LegalOracle;
    OracleHasOrder(g, o);
    LaunchedPath(g, s0);
    if m == 0 {
      FirstStops(g, stops, s0);
    } else {
      var s := After(g, o, s0, m - 1);
      StopsAlwaysOnce(g, o, stops, s0, m - 1);
      AfterSucc(g, o, s0, m - 1);
      if !s.status.Running? {
        StoppedStays(g, o, s);
      } else if Step(g, o, s).status.Running? {
        RunsAreTraced(g, o, s0, m - 1);
        StopsStayOnce(g, o, stops, s0, s);
      }
    }
  }

  lemma FirstStops(g: Graph, stops: seq<Id>, s0: RunState)
    requires SingleFile(g, stops) && Launched(g, s0) && s0.path[s0.idx] == stops[0]
    ensures StopsOnce(stops, s0.idx, s0)
  {
    hide Edge, Leads;
  }

  /** Main result: a container with one way in, a single file of components, is entered at most once in any
      run that starts at the first of them. */
  lemma OneWayMeansOnce(g: Graph, o: Oracle, k: Cycle, way: seq<Id>, s0: RunState)
    requires WellFormed(g) && LegalOracle(g, o) && Launched(g, s0) && OneWayIn(g, k, way) && s0.path[s0.idx] == way[0]
    ensures EnteredOnce(g, o, s0, k)
  {
    hide Step, SingleFile, Known, Edge, WellFormed, AtMostOnce;
    var stops := way + [k.it];
    assert stops[|way|] == k.it;
    forall m: nat | After(g, o, s0, m).status.Running?
      ensures AtMostOnce(After(g, o, s0, m).path, s0.idx, k.it)
    {
      StopsAlwaysOnce(g, o, stops, s0, m);
    }
  }

  /** Main result: termination from what can be read off the graph. If the only cycle is a fresh
      chain-bodied container with one way in, from the run's first entry, the run stops. */
  lemma RunsIntoContainerStop(g: Graph, o: Oracle, k: Cycle, way: seq<Id>, n: nat, s0: RunState, rank: Id -> nat)
    requires WellFormed(g) && LegalOracle(g, o) && ChainContainer(g, k) && FreshLaunch(g, k, s0)
    requires OneWayIn(g, k, way) && s0.path[s0.idx] == way[0] && PassesWithin(g, o, k, n) && RankedButPass(g, k, rank)
    ensures !After(g, o, s0, n * (rank(k.body[0]) + 1) + rank(s0.path[s0.idx]) + 1).status.Running?
  {
    hide SingleFile, WellFormed, LegalOracle, ChainContainer, EnteredOnce, RankedButPass, PassesWithin;
    OracleHasOrder(g, o);
    ChainIsDistinct(g, k);
    OneWayMeansOnce(g, o, k, way, s0);
    ContainerRunsStop(g, o, k, n, s0, rank);
  }

  // ---------------------------------------------------------------- no second entry

  /** None of the components of `way` is pending. */
  predicate Past(way: seq<Id>, s: RunState)
    requires Ready(s)
  {
    forall x :: x in way ==> x !in s.path[s.idx..]
  }

  /** A batch without any of `way` schedules neither one of them nor the container. */
  lemma NothingLeadsBack(g: Graph, o: Oracle, k: Cycle, way: seq<Id>, s: RunState)
    requires WellFormed(g) && LegalOracle(g, o) && OneWayIn(g, k, way) && Known(g, s.path) && Ready(s) && Past(way, s)
    ensures forall x :: x in way + [k.it] ==> x !in Batch(g, o, s).path[|Pruned(g, s).path|..]
  {
    hide Edge, WellFormed, Kept, Batch, Prune;
    PrunedShape(g, s);
    BatchEdges(g, o, s);
    var path, b, stops := Pruned(g, s).path, Batch(g, o, s).path, way + [k.it];
    forall p, j | |path| <= p < |b| && 0 <= j < |stops|
      ensures b[p] != stops[j]
    {
      assert FromBatch(g, path, s.idx, |path|, b[p]);
      var q :| s.idx <= q < |path| && Edge(g, path[q], b[p]);
      assert path[q] in s.path[s.idx..] && path[q] in g;
      assert j > 0 ==> Leads(g, stops[j - 1], stops[j]) && stops[j - 1] == way[j - 1];
    }
  }

  lemma PastStays(g: Graph, o: Oracle, k: Cycle, way: seq<Id>, s: RunState)
    requires WellFormed(g) && LegalOracle(g, o) && OneWayIn(g, k, way) && Known(g, s.path) && Ready(s) && s.status.Running?
    requires Past(way, s) && Step(g, o, s).status.Running?
    ensures Known(g, Step(g, o, s).path) && Past(way, Step(g, o, s))
  {
    hide Edge, WellFormed, Batch, Step, SingleFile, Prune, LegalOracle;
    OracleHasOrder(g, o);
    RunningStep(g, o, s);
    BatchEdges(g, o, s);
    NothingLeadsBack(g, o, k, way, s);
  }

  lemma {:induction false} PastAlways(g: Graph, o: Oracle, k: Cycle, way: seq<Id>, s0: RunState, t: nat)
    requires WellFormed(g) && LegalOracle(g, o) && OneWayIn(g, k, way) && Known(g, s0.path) && Ready(s0) && Past(way, s0)
    ensures var s := After(g, o, s0, t);
            s.status.Running? ==> Known(g, s.path) && Past(way, s)
  {
    hide Step, OneWayIn, Known, Edge, WellFormed, LegalOracle, Past;
    OracleHasOrder(g, o);
    if t > 0 {
      var s := After(g, o, s0, t - 1);
      PastAlways(g, o, k, way, s0, t - 1);
      AfterSucc(g, o, s0, t - 1);
      if !s.status.Running? {
        StoppedStays(g, o, s);
      } else if Step(g, o, s).status.Running? {
        PastStays(g, o, k, way, s);
      }
    }
  }

  /** Once its one way in has run, a container is never scheduled again. */
  lemma OneWayMeansNeverAgain(g: Graph, o: Oracle, k: Cycle, way: seq<Id>, s0: RunState)
    requires WellFormed(g) && LegalOracle(g, o) && OneWayIn(g, k, way) && Known(g, s0.path) && Ready(s0) && Past(way, s0)
    ensures NeverReentered(g, o, k, s0)
  {
    hide Step, OneWayIn, Known, Edge, WellFormed, LegalOracle, Batch, Pruned, Past;
    OracleHasOrder(g, o);
    assert k.it in way + [k.it];
    forall t: nat | After(g, o, s0, t).status.Running?
      ensures k.it !in Batch(g, o, After(g, o, s0, t)).path[|Pruned(g, After(g, o, s0, t)).path|..]
    {
      PastAlways(g, o, k, way, s0, t);
      NothingLeadsBack(g, o, k, way, After(g, o, s0, t));
    }
  }

  // ---------------------------------------------------------------- a graph that meets the hypotheses

  const ITERATION := Component(Iteration("item", map["results" := ("work", "answer")]), ["end"], None, [], {}, NoHandler, false)
  const ITEM := Component(IterationItem, ["work"], Some("loop"), [], {}, NoHandler, false)
  const WORK := Component(Other, [], Some("loop"), ["item"], {}, NoHandler, false)

  /** Begin, a component, an Iteration with one component in its body, and a component after it. */
  const GRAPH: Graph := map[
    "begin" := Component(Begin, ["fetch"], None, [], {}, NoHandler, false),
    "fetch" := Component(Other, ["loop"], None, ["begin"], {}, NoHandler, false),
    "loop" := ITERATION,
    "item" := ITEM,
    "work" := WORK,
    "end" := Component(Other, [], None, [], {}, NoHandler, false)]

  const WAY: seq<Id> := ["begin", "fetch"]

  const CYCLE := Cycle("loop", "item", ["work"])

  function GraphRank(id: Id): nat {
    if id == "begin" then 5 else if id == "fetch" then 4 else if id == "loop" then 3 else if id == "work" then 2 else if id == "item" then 1 else 0
  }

  /** Components that always succeed and answer their position, over the array `arr`, invoked in path order. */
  function Calm(arr: seq<Value>): Oracle {
    Oracle((p, id) => Answer(false, false, false, [], Some(arr), false, map["answer" := Number(p)]), c => false, InTurn)
  }

  /** The launch of a run from an empty path, and the state in front of the Iteration. */
  const START := Launch(RunState([], 0, Finished, map[], {}, map[]))

  const WAITING := RunState(["begin", "fetch", "loop"], 2, Running, map[], {}, map[])

  lemma GraphIsWellFormed()
    ensures WellFormed(GRAPH)
  {
    hide ComponentOk;
    forall id | id in GRAPH
      ensures ComponentOk(GRAPH, id)
    {
      GraphComponent(id);
    }
  }

  lemma GraphComponent(id: Id)
    requires id in GRAPH
    ensures ComponentOk(GRAPH, id)
  {
  }

  lemma GraphIsLegal(arr: seq<Value>)
    ensures WellFormed(GRAPH) && LegalOracle(GRAPH, Calm(arr)) && Steady(GRAPH, Calm(arr), CYCLE, arr)
    ensures PassesWithin(GRAPH, Calm(arr), CYCLE, |arr|)
  {
    hide WellFormed;
    GraphIsWellFormed();
    var o := Calm(arr);
    forall f: nat, t: nat | f <= t
      ensures Permutes(o.order(f, t), f, t)
    {
      assert o.order(f, t) == InTurn(f, t);
    }
  }

  predicate GraphEdge(c: Id, d: Id) {
    match c
    case "begin" => d == "fetch"
    case "fetch" => d == "loop"
    case "loop" => d == "item"
    case "item" => d == "work" || d == "end"
    case "work" => d == "item"
    case _ => false
  }

  lemma GraphEdges()
    ensures forall c, d {:trigger Edge(GRAPH, c, d)} :: c in GRAPH ==> (Edge(GRAPH, c, d) <==> GraphEdge(c, d))
  {
  }

  lemma GraphIsChained()
    ensures ChainContainer(GRAPH, CYCLE)
  {
    GraphEdges();
    hide Edge;
    assert CYCLE.body[..0] == [];
    assert Inside(CYCLE) == {"loop", "item", "work"};
  }

  lemma GraphHasOneWayIn()
    ensures OneWayIn(GRAPH, CYCLE, WAY) && RankedButPass(GRAPH, CYCLE, GraphRank)
  {
    GraphEdges();
    hide Edge;
    assert WAY + [CYCLE.it] == ["begin", "fetch", "loop"];
  }

  lemma GraphIsUndisturbed(arr: seq<Value>, s: RunState)
    requires s.errs == {}
    ensures Undisturbed(GRAPH, Calm(arr), CYCLE, s)
  {
    assert forall x :: x in GRAPH ==> !GRAPH[x].kind.UserFillUp?;
    assert FillUps(GRAPH) == {};
    assert Inside(CYCLE) == {"loop", "item", "work"};
  }

  lemma IterationWaits(arr: seq<Value>)
    ensures Entering(GRAPH, CYCLE, WAITING) && Past(WAY, WAITING)
  {
    assert WAITING.path[WAITING.idx..] == ["loop"];
    assert WAITING.path[..WAITING.idx] == ["begin", "fetch"];
    assert CYCLE.body[..0] == [];
  }

  lemma StartIsBegin()
    ensures START.path == ["begin"] && START.idx == 0 && START.errs == {} && Launched(GRAPH, START)
    ensures Counter(START, CYCLE.item) == 0 && START.status.Running? && START.outs == map[]
  {
  }

  lemma StartIsFresh()
    ensures FreshLaunch(GRAPH, CYCLE, START)
    ensures Referenced(GRAPH, CYCLE, "results")
  {
  }

  /** One graph and, for any array, one environment meet the hypotheses of the container, iteration and
      progress theorems; there the run does reach the end of the array. */
  lemma HypothesesAreMet(arr: seq<Value>)
    ensures FreshLaunch(GRAPH, CYCLE, START)
    ensures OneWayIn(GRAPH, CYCLE, WAY) && RankedButPass(GRAPH, CYCLE, GraphRank)
    ensures PassesWithin(GRAPH, Calm(arr), CYCLE, |arr|)
    ensures Setting(GRAPH, Calm(arr), CYCLE, arr, WAITING) && Referenced(GRAPH, CYCLE, "results")
    ensures Undisturbed(GRAPH, Calm(arr), CYCLE, WAITING)
    ensures After(GRAPH, Calm(arr), WAITING, Turn(CYCLE, |arr|)).status.Running?
  {
    hide Edge, Setting, After, Turn, ChainContainer, OneWayIn, RankedButPass, Undisturbed, WellFormed, Calm, Steady, Entering,
         NeverReentered, Past, RoutesDeclared, FreshLaunch, Launch, Referenced, Left, Presented, PassesWithin, GraphRank;
    StartIsFresh();
    GraphIsLegal(arr);
    GraphIsChained();
    GraphHasOneWayIn();
    GraphIsUndisturbed(arr, WAITING);
    IterationWaits(arr);
    SettingHolds(arr);
    IterationCompletes(GRAPH, Calm(arr), CYCLE, arr, WAITING);
  }

  lemma SettingHolds(arr: seq<Value>)
    requires WellFormed(GRAPH) && LegalOracle(GRAPH, Calm(arr)) && ChainContainer(GRAPH, CYCLE)
    requires Steady(GRAPH, Calm(arr), CYCLE, arr) && OneWayIn(GRAPH, CYCLE, WAY)
    requires Entering(GRAPH, CYCLE, WAITING) && Past(WAY, WAITING)
    ensures Setting(GRAPH, Calm(arr), CYCLE, arr, WAITING)
  {
    hide Edge, ChainContainer, OneWayIn, WellFormed, Calm, Steady, NeverReentered, Past, RoutesDeclared;
    OneWayMeansNeverAgain(GRAPH, Calm(arr), CYCLE, WAY, WAITING);
  }
}
