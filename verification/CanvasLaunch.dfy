/**
 From the launch to the container: an undisturbed run gets to its Iteration, whatever branches off the way,
 and completes it.
 */
module CanvasLaunch {
  import opened Prelude
  import opened CanvasModel
  import opened CanvasRuns
  import opened CanvasContainer
  import opened CanvasIteration
  import opened CanvasProgress
  import opened CanvasEntry

  /** Each component of `way` lists the next stop among its successors and has its inputs when its turn comes. */
  predicate Passable(g: Graph, k: Cycle, way: seq<Id>, done: seq<Id>) {
    forall j :: 0 <= j < |way| ==> PassesOn(g, way + [k.it], done, j)
  }

  predicate PassesOn(g: Graph, stops: seq<Id>, done: seq<Id>, j: nat)
    requires j + 1 < |stops|
  {
    && stops[j] in g && (g[stops[j]].kind.Begin? || g[stops[j]].kind.Other?)
    && stops[j + 1] in g[stops[j]].downstream && (g[stops[j]].kind.Begin? || InputsIn(g, done + stops[..j], stops[j]))
  }

  /** Nothing on the way errs. */
  ghost predicate WayIsSound(o: Oracle, way: seq<Id>) {
    forall p: nat, x {:trigger o.answer(p, x)} :: x in way ==> !o.answer(p, x).fails
  }

  /** The container's index, outputs and errors are the same. */
  ghost predicate Untouched(k: Cycle, a: RunState, b: RunState) {
    && Counter(a, k.item) == Counter(b, k.item)
    && forall x :: x in Inside(k) ==> Outputs(a, x) == Outputs(b, x) && (x in a.errs <==> x in b.errs)
  }

  /** Stop `j` is pending, the later ones are not scheduled yet, the earlier ones were executed, and the
      container is as it was at the launch. */
  ghost predicate Approaching(g: Graph, k: Cycle, way: seq<Id>, s0: RunState, s: RunState, j: nat)
    requires Ready(s0) && Ready(s) && j <= |way|
  {
    var stops, lo := way + [k.it], s0.idx;
    && s.status.Running? && Known(g, s.path) && lo <= s.idx && StopsOnce(stops, lo, s)
    && stops[j] in s.path[s.idx..]
    && (forall i :: j < i <= |way| ==> stops[i] !in s.path[lo..])
    && (forall x :: x in s0.path[..lo] ==> x in s.path[..s.idx]) && (forall x :: x in way[..j] ==> x in s.path[lo..s.idx])
    && (forall x :: x in way ==> x !in s.errs)
    && Untouched(k, s0, s) && NoneUnhandled(g, k, s)
    && Tokens(k, s.path, s.idx) == (if j == |way| then [k.it] else [])
  }

  lemma {:induction false} PruneKeeps(g: Graph, done: seq<Id>, rest: seq<Id>, x: Id)
    requires x in rest && (Lookup(g, x).kind.Begin? || InputsIn(g, done, x))
    ensures done <= Prune(g, done, rest) && x in Prune(g, done, rest)[|done|..]
    decreases |rest|
  {
    PruneShape(g, done, rest);
    var y := rest[0];
    if y == x {
      assert Kept(g, done, x);
      PruneShape(g, done + [x], rest[1..]);
      var r := Prune(g, done, rest);
      assert r[|done|] == x;
    } else if Kept(g, done, y) {
      KeptWhenReady(g, done, y, x);
      PruneKeeps(g, done + [y], rest[1..], x);
      var r := Prune(g, done, rest);
      assert forall i :: |done| + 1 <= i < |r| ==> r[i] == r[|done|..][i - |done|];
    } else {
      PruneKeeps(g, done, rest[1..], x);
    }
  }

  lemma {:induction false} InvokeAllSound(g: Graph, o: Oracle, s: RunState, ps: seq<nat>, x: Id)
    requires forall m :: 0 <= m < |ps| ==> ps[m] < |s.path|
    requires !IsItem(Lookup(g, x).kind) && x !in s.errs && forall p: nat :: !o.answer(p, x).fails
    ensures x !in InvokeAll(g, o, s, ps).errs
    decreases |ps|
  {
    hide Invoke;
    if ps != [] {
      OnlyOwnError(g, o, s, ps[0]);
      InvokeAllSound(g, o, Invoke(g, o, s, ps[0]), ps[1..], x);
    }
  }

  /** Routing a batch schedules what an entry without error lists. */
  lemma {:induction false} RouteAllSchedules(g: Graph, o: Oracle, s: RunState, i: nat, end: nat, p: nat, y: Id)
    requires 0 < end && i <= p < end <= |s.path| && s.path[p] in g && s.path[p] !in s.errs
    requires (g[s.path[p]].kind.Begin? || g[s.path[p]].kind.Other?) && y in g[s.path[p]].downstream
    ensures s.path <= RouteAll(g, o, s, i, end).path
    ensures exists q :: end - 1 <= q < |RouteAll(g, o, s, i, end).path| && RouteAll(g, o, s, i, end).path[q] == y
    decreases end - i
  {
    var r := Route(g, o, s, i);
    if i == p {
      var c := g[s.path[p]];
      assert Targets(g, s, s.path[p], o.answer(p, s.path[p])) == c.downstream;
      ExtendContains(s.path, c.downstream, y);
      var q :| |s.path| - 1 <= q < |r.path| && q >= 0 && r.path[q] == y;
      assert RouteAll(g, o, s, i, end).path[q] == y;
    } else {
      RouteKeepsErrors(g, o, s, i);
      RouteAllSchedules(g, o, r, i + 1, end, p, y);
    }
  }

  /** In the batch of stop `j` the next stop is scheduled, and no later one. */
  lemma NextIsScheduled(g: Graph, o: Oracle, k: Cycle, way: seq<Id>, s0: RunState, s: RunState, j: nat)
    requires WellFormed(g) && LegalOracle(g, o) && OneWayIn(g, k, way) && Ready(s0) && Ready(s)
    requires Passable(g, k, way, s0.path[..s0.idx]) && WayIsSound(o, way) && j < |way| && Approaching(g, k, way, s0, s, j)
    ensures var b, end, stops := Batch(g, o, s).path, |Pruned(g, s).path|, way + [k.it];
            && end > s.idx && stops[j] in Pruned(g, s).path[s.idx..]
            && stops[j + 1] in b[end..]
            && (forall x :: x in way ==> x !in Batch(g, o, s).errs)
  {
    hide Edge, WellFormed, RoutesDeclared, Prune, Kept, InvokeAll, RouteAll, SingleFile, StopsOnce, Untouched, NoneUnhandled, Tokens, Known,
         LegalOrder;
    var stops, lo := way + [k.it], s0.idx;
    assert PassesOn(g, stops, s0.path[..lo], j);
    assert stops[..j] == way[..j] && stops[j] == way[j] && way[j] in way;
    WayErrs(g, o, k, way, s0, s);
    ExecutedInputs(s, s0.path[..lo], way[..j], lo);
    KeptStop(g, k, way, s0, s, j);
    var path, ran := Pruned(g, s).path, Invoked(g, o, s);
    RoutingKeeps(g, o, s);
    BatchIs(g, o, s);
    var p :| s.idx <= p < |path| && path[p] == stops[j];
    RouteAllSchedules(g, o, ran, s.idx, |path|, p, stops[j + 1]);
    var b := Batch(g, o, s).path;
    var q :| |path| - 1 <= q < |b| && b[q] == stops[j + 1];
    NotOnPruned(g, s, lo, stops[j + 1]);
    assert q != |path| - 1 by {
      assert path[|path| - 1] in path[lo..];
    }
    assert b[|path|..][q - |path|] == stops[j + 1];
  }

  lemma ExecutedInputs(s: RunState, done: seq<Id>, passed: seq<Id>, lo: nat)
    requires Ready(s) && lo <= s.idx && (forall x :: x in done ==> x in s.path[..s.idx]) && forall x :: x in passed ==> x in s.path[lo..s.idx]
    ensures forall x :: x in done + passed ==> x in s.path[..s.idx]
  {
    assert s.path[..s.idx] == s.path[..lo] + s.path[lo..s.idx];
  }

  lemma WayErrs(g: Graph, o: Oracle, k: Cycle, way: seq<Id>, s0: RunState, s: RunState)
    requires LegalOrder(o) && Ready(s0) && Ready(s) && Passable(g, k, way, s0.path[..s0.idx]) && WayIsSound(o, way)
    requires forall x :: x in way ==> x !in s.errs
    ensures forall x :: x in way ==> x !in Invoked(g, o, s).errs
  {
    hide Prune, InvokeAll, InputsIn;
    var path := Pruned(g, s).path;
    assert Permutes(o.order(s.idx, |path|), s.idx, |path|);
    forall x | x in way
      ensures x !in Invoked(g, o, s).errs
    {
      var j :| 0 <= j < |way| && way[j] == x;
      assert PassesOn(g, way + [k.it], s0.path[..s0.idx], j);
      InvokeAllSound(g, o, Pruned(g, s), o.order(s.idx, |path|), x);
    }
  }

  lemma KeptStop(g: Graph, k: Cycle, way: seq<Id>, s0: RunState, s: RunState, j: nat)
    requires Ready(s0) && Ready(s) && j < |way| && PassesOn(g, way + [k.it], s0.path[..s0.idx], j)
    requires way[j] in s.path[s.idx..] && forall x :: x in s0.path[..s0.idx] + way[..j] ==> x in s.path[..s.idx]
    ensures way[j] in Pruned(g, s).path[s.idx..]
  {
    hide Prune;
    assert (way + [k.it])[..j] == way[..j];
    PruneKeeps(g, s.path[..s.idx], s.path[s.idx..], way[j]);
  }

  /** Pruning brings nothing onto the path. */
  lemma NotOnPruned(g: Graph, s: RunState, lo: nat, y: Id)
    requires Ready(s) && lo <= s.idx && y !in s.path[lo..]
    ensures lo <= |Pruned(g, s).path| && y !in Pruned(g, s).path[lo..]
  {
    hide Prune, Kept;
    PrunedShape(g, s);
    var path := Pruned(g, s).path;
    forall q | lo <= q < |path|
      ensures path[q] != y
    {
      if q < s.idx {
        assert path[q] == s.path[..s.idx][q] == s.path[lo..][q - lo];
      } else {
        var i :| 0 <= i < |s.path[s.idx..]| && s.path[s.idx..][i] == path[q];
        assert s.path[lo..][s.idx + i - lo] == path[q];
      }
    }
  }

  lemma LaterStopsWait(g: Graph, o: Oracle, k: Cycle, way: seq<Id>, s0: RunState, s: RunState, j: nat, i: nat)
    requires WellFormed(g) && LegalOracle(g, o) && OneWayIn(g, k, way)
    requires Ready(s0) && Ready(s) && j < |way| && Approaching(g, k, way, s0, s, j) && j + 1 < i <= |way|
    ensures (way + [k.it])[i] !in Batch(g, o, s).path[s0.idx..]
  {
    hide Edge, WellFormed, RoutesDeclared, Prune, Kept, Batch, StopsOnce, Untouched, NoneUnhandled, Tokens;
    var stops, lo := way + [k.it], s0.idx;
    NotOnPruned(g, s, lo, stops[i]);
    NotOnPruned(g, s, lo, stops[i - 1]);
    PrunedShape(g, s);
    BatchEdges(g, o, s);
    var path, b := Pruned(g, s).path, Batch(g, o, s).path;
    assert Leads(g, stops[i - 1], stops[i]);
    forall q | lo <= q < |b|
      ensures b[q] != stops[i]
    {
      if q < |path| {
        assert b[q] == path[lo..][q - lo];
      } else {
        assert FromBatch(g, path, s.idx, |path|, b[q]);
        var c :| s.idx <= c < |path| && Edge(g, path[c], b[q]);
        assert path[c] == path[lo..][c - lo];
      }
    }
  }

  /** A batch with nothing of the container in it leaves the container alone. */
  lemma ContainerUntouched(g: Graph, o: Oracle, k: Cycle, s: RunState)
    requires WellFormed(g) && LegalOracle(g, o) && ChainContainer(g, k) && Known(g, s.path) && Ready(s)
    requires Tokens(k, s.path, s.idx) == []
    ensures Keep(Pruned(g, s).path[s.idx..], Inside(k)) == []
    ensures Untouched(k, s, Batch(g, o, s))
    ensures forall p :: s.idx <= p < |Pruned(g, s).path| ==> Pruned(g, s).path[p] !in Inside(k)
  {
    hide Edge, WellFormed, RoutesDeclared, ChainContainer, Prune, InvokeAll, RouteAll, Kept;
    PruneToken(g, k, s.path[..s.idx], s.path[s.idx..]);
    NoTokenLeft(g, k, s);
    PrunedShape(g, s);
    var path := Pruned(g, s).path;
    assert Permutes(o.order(s.idx, |path|), s.idx, |path|);
    InvokeAllOutside(g, o, k, Pruned(g, s), o.order(s.idx, |path|));
    RoutingKeeps(g, o, s);
    CounterWithoutToken(g, o, k, s);
  }

  /** A batch with nothing of the container in it goes on if something is pending after it. */
  lemma ApproachRuns(g: Graph, o: Oracle, k: Cycle, s0: RunState, s: RunState)
    requires WellFormed(g) && LegalOracle(g, o) && ChainContainer(g, k) && Undisturbed(g, o, k, s0)
    requires Ready(s) && s.status.Running? && Known(g, s.path) && NoneUnhandled(g, k, s) && Tokens(k, s.path, s.idx) == []
    requires |Batch(g, o, s).path| > |Pruned(g, s).path|
    ensures Step(g, o, s).status.Running? && NoneUnhandled(g, k, Step(g, o, s)) && Known(g, Step(g, o, s).path)
    ensures var q := Step(g, o, s); var b := Batch(g, o, s);
            && q.path == b.path && q.idx == |Pruned(g, s).path| && q.counter == b.counter && q.outs == b.outs && q.errs == b.errs
            && s.idx <= q.idx && s.path[..s.idx] <= q.path && Pruned(g, s).path <= q.path
  {
    hide WellFormed, Edge, ChainContainer, Batch, Pruned, Tolerable, FillUps, Step, RoutesDeclared, Unhandled, Known, NoneUnhandled;
    ContainerUntouched(g, o, k, s);
    BatchTolerable(g, o, k, s0, s);
    StepCases(g, o, s);
    ErrorCutsBackTheBatch(g, o, s);
    UnlessFailed(g, o, s);
    RunningStep(g, o, s);
    SameErrs(g, k, Batch(g, o, s), Step(g, o, s));
  }

  lemma ApproachStep(g: Graph, o: Oracle, k: Cycle, way: seq<Id>, s0: RunState, s: RunState, j: nat)
    requires WellFormed(g) && LegalOracle(g, o) && ChainContainer(g, k) && OneWayIn(g, k, way) && Undisturbed(g, o, k, s0)
    requires Launched(g, s0) && Traced(g, s0, s) && Ready(s) && j < |way| && Approaching(g, k, way, s0, s, j)
    requires Passable(g, k, way, s0.path[..s0.idx]) && WayIsSound(o, way)
    ensures Approaching(g, k, way, s0, Step(g, o, s), j + 1)
  {
    hide WellFormed, Edge, ChainContainer, Batch, Pruned, Undisturbed, Step, RoutesDeclared, Known, NoneUnhandled, Traced, Launched,
         SingleFile, StopsOnce, Passable, WayIsSound, Tokens, Untouched, LegalOrder;
    var stops, lo := way + [k.it], s0.idx;
    LaunchedPath(g, s0);
    NextIsScheduled(g, o, k, way, s0, s, j);
    ApproachRuns(g, o, k, s0, s);
    ContainerUntouched(g, o, k, s);
    StopsStayOnce(g, o, stops, s0, s);
    var q := Step(g, o, s);
    SameContainer(k, s0, s, Batch(g, o, s), q);
    forall i | j + 1 < i <= |way|
      ensures stops[i] !in q.path[lo..]
    {
      LaterStopsWait(g, o, k, way, s0, s, j, i);
    }
    assert stops[|way|] == k.it;
    ExecutedGrows(s, q, s0.path[..lo], way, j, lo, Pruned(g, s).path);
    ApproachTokens(g, o, k, way, s0, s, j);
  }

  lemma SameContainer(k: Cycle, s0: RunState, s: RunState, b: RunState, q: RunState)
    requires Untouched(k, s0, s) && Untouched(k, s, b) && q.counter == b.counter && q.outs == b.outs && q.errs == b.errs
    ensures Untouched(k, s0, q)
  {
  }

  lemma ExecutedGrows(s: RunState, q: RunState, done: seq<Id>, way: seq<Id>, j: nat, lo: nat, path: seq<Id>)
    requires Ready(s) && Ready(q) && j < |way| && lo <= s.idx <= q.idx == |path| && s.path[..s.idx] <= path <= q.path
    requires (forall x :: x in done ==> x in s.path[..s.idx]) && (forall x :: x in way[..j] ==> x in s.path[lo..s.idx])
    requires way[j] in path[s.idx..]
    ensures (forall x :: x in done ==> x in q.path[..q.idx]) && (forall x :: x in way[..j + 1] ==> x in q.path[lo..q.idx])
  {
    assert q.path[..q.idx] == path && q.path[lo..q.idx] == path[lo..];
    assert path == s.path[..s.idx] + path[s.idx..];
    assert path[lo..] == s.path[lo..s.idx] + path[s.idx..];
    assert way[..j + 1] == way[..j] + [way[j]];
  }

  lemma ApproachTokens(g: Graph, o: Oracle, k: Cycle, way: seq<Id>, s0: RunState, s: RunState, j: nat)
    requires WellFormed(g) && LegalOracle(g, o) && ChainContainer(g, k) && Ready(s0) && Ready(s) && j < |way|
    requires Known(g, s.path) && Tokens(k, s.path, s.idx) == [] && s0.idx <= |Pruned(g, s).path|
    requires Ready(Step(g, o, s)) && StopsOnce(way + [k.it], s0.idx, Step(g, o, s))
    requires Step(g, o, s).path == Batch(g, o, s).path && Step(g, o, s).idx == |Pruned(g, s).path|
    requires (way + [k.it])[j + 1] in Batch(g, o, s).path[|Pruned(g, s).path|..]
    requires j + 1 < |way| ==> k.it !in Step(g, o, s).path[s0.idx..]
    ensures Tokens(k, Step(g, o, s).path, Step(g, o, s).idx) == if j + 1 == |way| then [k.it] else []
  {
    hide WellFormed, Edge, ChainContainer, Batch, Pruned, Step, RoutesDeclared, Known, AtMostOnce, Keep;
    ContainerUntouched(g, o, k, s);
    OnlyEntryFollows(g, o, k, s);
    var q, stops := Step(g, o, s), way + [k.it];
    var pending := q.path[q.idx..];
    if j + 1 == |way| {
      assert stops[|way|] == k.it && AtMostOnce(q.path, s0.idx, k.it);
      AtMostOnceIn(q.path, s0.idx, q.idx, k.it);
      KeepRepeats(pending, Inside(k), k.it);
      KeepHolds(pending, Inside(k), k.it);
    } else {
      assert forall i :: q.idx <= i < |q.path| ==> q.path[i] == q.path[s0.idx..][i - s0.idx];
      KeepNone(pending, Inside(k));
    }
  }

  lemma KeepHolds(s: seq<Id>, keep: set<Id>, x: Id)
    requires x in s && x in keep
    ensures Keep(s, keep) != []
  {
    assert x in Keep(s, keep);
  }

  /** What a launched run needs to get to its container and through it. */
  ghost predicate Inviting(g: Graph, o: Oracle, k: Cycle, way: seq<Id>, s0: RunState) {
    && WellFormed(g) && LegalOracle(g, o) && ChainContainer(g, k) && OneWayIn(g, k, way) && Undisturbed(g, o, k, s0)
    && FreshLaunch(g, k, s0) && s0.errs == {} && s0.path[s0.idx] == way[0]
    && Passable(g, k, way, s0.path[..s0.idx]) && WayIsSound(o, way)
  }

  lemma LaunchApproaches(g: Graph, o: Oracle, k: Cycle, way: seq<Id>, s0: RunState)
    requires Inviting(g, o, k, way, s0)
    ensures Approaching(g, k, way, s0, s0, 0)
  {
    hide WellFormed, Edge, ChainContainer, RoutesDeclared, Leads, NamesFillUp, Passable, WayIsSound, LegalOrder, AtMostOnce;
    var stops := way + [k.it];
    FirstStops(g, stops, s0);
    assert s0.path[s0.idx..] == [way[0]] && stops[0] == way[0];
    assert way[..0] == [];
    KeepNone(s0.path[s0.idx..], Inside(k));
  }

  lemma {:induction false} RunApproaches(g: Graph, o: Oracle, k: Cycle, way: seq<Id>, s0: RunState, j: nat)
    requires Inviting(g, o, k, way, s0) && j <= |way|
    ensures Approaching(g, k, way, s0, After(g, o, s0, j), j)
  {
    hide WellFormed, Edge, ChainContainer, RoutesDeclared, SingleFile, Passable, WayIsSound, Undisturbed, Step, Traced, Approaching, Launched;
    LaunchedPath(g, s0);
    if j == 0 {
      LaunchApproaches(g, o, k, way, s0);
    } else {
      var s := After(g, o, s0, j - 1);
      RunApproaches(g, o, k, way, s0, j - 1);
      ApproachingRuns(g, k, way, s0, s, j - 1);
      RunsAreTraced(g, o, s0, j - 1);
      ApproachStep(g, o, k, way, s0, s, j - 1);
    }
  }

  lemma ApproachingRuns(g: Graph, k: Cycle, way: seq<Id>, s0: RunState, s: RunState, j: nat)
    requires Ready(s0) && Ready(s) && j <= |way| && Approaching(g, k, way, s0, s, j)
    ensures s.status.Running?
  {
  }

  // ---------------------------------------------------------------- from the launch to the end

  lemma InputsGrow(g: Graph, done: seq<Id>, more: seq<Id>, x: Id)
    requires InputsIn(g, done, x) && forall y :: y in done ==> y in more
    ensures InputsIn(g, more, x)
  {
  }

  lemma AvailableGrows(g: Graph, k: Cycle, done: seq<Id>, more: seq<Id>)
    requires InputsAvailable(g, k, done) && forall y :: y in done ==> y in more
    ensures InputsAvailable(g, k, more)
  {
    hide InputsIn;
    InputsGrow(g, done, more, k.it);
    InputsGrow(g, done + [k.it], more + [k.it], k.item);
    forall j | 0 <= j < |k.body|
      ensures InputsIn(g, more + [k.it, k.item] + k.body[..j], k.body[j])
    {
      InputsGrow(g, done + [k.it, k.item] + k.body[..j], more + [k.it, k.item] + k.body[..j], k.body[j]);
    }
  }

  /** The launched run enters the fresh Iteration after one batch for each component of its way. */
  lemma LaunchEnters(g: Graph, o: Oracle, k: Cycle, way: seq<Id>, arr: seq<Value>, s0: RunState)
    requires Inviting(g, o, k, way, s0) && Steady(g, o, k, arr) && InputsAvailable(g, k, s0.path[..s0.idx] + way)
    requires forall name :: Referenced(g, k, name) ==> AsList(Output(s0, k.it, name)) == []
    ensures Setting(g, o, k, arr, After(g, o, s0, |way|)) && Undisturbed(g, o, k, After(g, o, s0, |way|))
  {
    hide WellFormed, Edge, ChainContainer, RoutesDeclared, SingleFile, Passable, WayIsSound, After, Steady, InputsAvailable, Launched,
         Tolerable, FillUps, AtMostOnce, Known, Approaching, NeverReentered;
    RunApproaches(g, o, k, way, s0, |way|);
    LaunchedPath(g, s0);
    var s := After(g, o, s0, |way|);
    ArrivedEnters(g, k, way, s0, s);
    OneWayMeansNeverAgain(g, o, k, way, s);
  }

  lemma ArrivedEnters(g: Graph, k: Cycle, way: seq<Id>, s0: RunState, s: RunState)
    requires FreshLaunch(g, k, s0) && s0.errs == {} && Ready(s) && OneWayIn(g, k, way) && Approaching(g, k, way, s0, s, |way|)
    requires InputsAvailable(g, k, s0.path[..s0.idx] + way)
    requires forall name :: Referenced(g, k, name) ==> AsList(Output(s0, k.it, name)) == []
    ensures Entering(g, k, s) && Past(way, s) && NoneUnhandled(g, k, s) && Known(g, s.path)
  {
    hide Edge, Leads, InputsAvailable, Known, Tokens, NoneUnhandled, NamesFillUp;
    assert way[..|way|] == way;
    ExecutedInputs(s, s0.path[..s0.idx], way, s0.idx);
    AvailableGrows(g, k, s0.path[..s0.idx] + way, s.path[..s.idx]);
    WayIsPast(k, way, s0.idx, s);
  }

  /** Stops that were executed and are scheduled at most once are not pending. */
  lemma WayIsPast(k: Cycle, way: seq<Id>, lo: nat, s: RunState)
    requires Ready(s) && lo <= s.idx && StopsOnce(way + [k.it], lo, s)
    requires forall x :: x in way ==> x in s.path[lo..s.idx]
    ensures Past(way, s)
  {
    forall x | x in way
      ensures x !in s.path[s.idx..]
    {
      var j :| 0 <= j < |way| && way[j] == x;
      assert (way + [k.it])[j] == x;
      var p :| 0 <= p < s.idx - lo && s.path[lo..s.idx][p] == x;
      assert s.path[lo + p] == x;
    }
  }

  /** Main result, end to end: an undisturbed run launched at the head of the way into a fresh Iteration shows
      every element in its turn and leaves the Iteration with all results. */
  lemma LaunchedIterationCompletes(g: Graph, o: Oracle, k: Cycle, way: seq<Id>, arr: seq<Value>, s0: RunState)
    requires Inviting(g, o, k, way, s0) && Steady(g, o, k, arr) && InputsAvailable(g, k, s0.path[..s0.idx] + way)
    requires forall name :: Referenced(g, k, name) ==> AsList(Output(s0, k.it, name)) == []
    ensures forall m: nat :: m < |arr| ==> Presented(k, After(g, o, s0, |way| + Turn(k, m) + 1), arr, m)
    ensures var q := After(g, o, s0, |way| + Turn(k, |arr|) + 1);
            && (q.status.Running? || q.status.Finished?) && Counter(q, k.item) == -1
            && (forall d :: d in Lookup(g, k.it).downstream ==> d in q.path)
            && (forall x :: x in Inside(k) ==> x !in q.path[q.idx..])
            && (arr != [] ==> forall name :: Referenced(g, k, name) ==>
                  Output(q, k.it, name) == Items(Results(g, o, k, After(g, o, s0, |way|), name, |arr|)))
  {
    hide WellFormed, Edge, ChainContainer, RoutesDeclared, OneWayIn, Passable, WayIsSound, After, Steady, InputsAvailable, FreshLaunch,
         Setting, Undisturbed, Turn, Presented, Left;
    InvitingReady(g, o, k, way, s0);
    LaunchEnters(g, o, k, way, arr, s0);
    var s := After(g, o, s0, |way|);
    IterationCompletes(g, o, k, arr, s);
    forall m: nat | m < |arr|
      ensures Presented(k, After(g, o, s0, |way| + Turn(k, m) + 1), arr, m)
    {
      AfterSplit(g, o, s0, |way|, Turn(k, m) + 1);
    }
    AfterSplit(g, o, s0, |way|, Turn(k, |arr|) + 1);
  }

  lemma InvitingReady(g: Graph, o: Oracle, k: Cycle, way: seq<Id>, s0: RunState)
    requires Inviting(g, o, k, way, s0)
    ensures Ready(s0) && LegalOrder(o)
  {
  }

  /** The graph with one Iteration is such a launch for any array: two batches after it the Iteration is entered. */
  lemma LaunchHypothesesAreMet(arr: seq<Value>)
    ensures Inviting(GRAPH, Calm(arr), CYCLE, WAY, START) && InputsAvailable(GRAPH, CYCLE, START.path[..START.idx] + WAY)
    ensures Steady(GRAPH, Calm(arr), CYCLE, arr) && Setting(GRAPH, Calm(arr), CYCLE, arr, After(GRAPH, Calm(arr), START, 2))
    ensures forall name :: Referenced(GRAPH, CYCLE, name) ==> AsList(Output(START, CYCLE.it, name)) == []
  {
    hide Edge, ChainContainer, OneWayIn, WellFormed, RoutesDeclared, FreshLaunch, Passable, InputsAvailable, WayIsSound, After, Steady,
         Undisturbed, Setting, PassesWithin;
    GraphIsLegal(arr);
    GraphIsChained();
    GraphHasOneWayIn();
    StartIsBegin();
    StartIsFresh();
    GraphIsUndisturbed(arr, START);
    GraphIsPassable(arr);
    LaunchEnters(GRAPH, Calm(arr), CYCLE, WAY, arr, START);
  }

  lemma GraphIsPassable(arr: seq<Value>)
    ensures Passable(GRAPH, CYCLE, WAY, []) && WayIsSound(Calm(arr), WAY) && InputsAvailable(GRAPH, CYCLE, [] + WAY)
  {
    assert WAY + [CYCLE.it] == ["begin", "fetch", "loop"] && [] + WAY == WAY;
    assert (WAY + [CYCLE.it])[..1] == ["begin"];
    assert CYCLE.body[..0] == [];
  }
}
