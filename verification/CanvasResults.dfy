/**
 What an Iteration collects, said of the answers: entry j of a collected output is what the child answered
 when it was invoked in pass j.
 */
module CanvasResults {
  import opened Prelude
  import opened CanvasModel
  import opened CanvasRuns
  import opened CanvasContainer
  import opened CanvasIteration
  import opened CanvasProgress
  import opened CanvasEntry
  import opened CanvasLaunch

  /** The batch that runs place `r` of pass `m`. */
  lemma PlaceRuns(g: Graph, o: Oracle, k: Cycle, arr: seq<Value>, s0: RunState, m: nat, r: nat)
    returns (p: nat, before: RunState)
    requires Setting(g, o, k, arr, s0) && m < |arr| && r <= |k.body|
    requires After(g, o, s0, Turn(k, m) + r + 1).status.Running?
    ensures At(k, r) in Inside(k) && After(g, o, s0, Turn(k, m) + r).status.Running?
    ensures TokenMoves(g, o, k, After(g, o, s0, Turn(k, m) + r), At(k, r), p, before)
  {
    hide Placed, Step, After, WellFormed, LegalOracle, ChainContainer, Steady, Entering, NeverReentered, TokenMoves, Turn;
    var t := Turn(k, m) + r;
    SettingHasOrder(g, o, k, arr, s0);
    RunningBefore(g, o, s0, t, t + 1);
    PlacedWhileRunning(g, o, k, arr, s0, m, r);
    var s := After(g, o, s0, t);
    PlacedShape(g, o, k, arr, s0, s, m, r);
    ReadyAt(g, k, s0, s, m, r);
    NextAt(k, r);
    NotReentered(g, o, k, s0, t);
    TokenSurvives(g, k, s, At(k, r));
    p, before := BatchWithToken(g, o, k, s, At(k, r));
  }

  lemma SettingHasOrder(g: Graph, o: Oracle, k: Cycle, arr: seq<Value>, s0: RunState)
    requires Setting(g, o, k, arr, s0)
    ensures LegalOrder(o) && Distinct(k) && Ready(s0) && InputsAvailable(g, k, s0.path[..s0.idx])
    ensures WellFormed(g) && ChainContainer(g, k)
  {
  }

  /** The next state holds the outputs the invocation of the token left. */
  lemma TokenOutputs(g: Graph, o: Oracle, k: Cycle, s: RunState, x: Id, p: nat, before: RunState)
    requires LegalOrder(o) && Ready(s) && Distinct(k) && x in Inside(k) && TokenMoves(g, o, k, s, x, p, before)
    requires s.status.Running? && Step(g, o, s).status.Running?
    ensures p < |before.path| && before.path[p] == x && s.idx <= p < Step(g, o, s).idx && Step(g, o, s).path[p] == x
    ensures forall y :: y in Inside(k) ==>
              Outputs(before, y) == Outputs(s, y) && Outputs(Invoke(g, o, before, p), y) == Outputs(Step(g, o, s), y)
  {
    RunningStep(g, o, s);
    RoutingKeeps(g, o, s);
    hide Step, Batch, Pruned, Invoked, Invoke;
    assert before.path == Pruned(g, s).path;
  }

  lemma BodyIsPlain(g: Graph, k: Cycle, q: nat)
    requires ChainContainer(g, k) && q < |k.body|
    ensures Lookup(g, k.body[q]).kind.Other? && k.body[q] in Inside(k)
    ensures Lookup(g, k.item).parent == Some(k.it)
  {
    assert ChainLink(g, k, q);
  }

  /** Running place `r` leaves every other component of the container alone, but for the results. */
  lemma PlaceKeeps(g: Graph, o: Oracle, k: Cycle, arr: seq<Value>, s0: RunState, m: nat, r: nat, y: Id)
    requires Setting(g, o, k, arr, s0) && m < |arr| && r <= |k.body|
    requires After(g, o, s0, Turn(k, m) + r + 1).status.Running?
    requires y in Inside(k) && y != At(k, r) && (r == 0 ==> y != k.it)
    ensures Outputs(After(g, o, s0, Turn(k, m) + r + 1), y) == Outputs(After(g, o, s0, Turn(k, m) + r), y)
  {
    hide Setting, After, Step, TokenMoves, Turn, Invoke;
    SettingHasOrder(g, o, k, arr, s0);
    var p, before := PlaceRuns(g, o, k, arr, s0, m, r);
    hide ChainContainer, WellFormed;
    AfterSucc(g, o, s0, Turn(k, m) + r);
    TokenOutputs(g, o, k, After(g, o, s0, Turn(k, m) + r), At(k, r), p, before);
    BodyIsPlain(g, k, if r == 0 then 0 else r - 1);
    InvokeFrame(g, o, before, p, y);
  }

  lemma {:induction false} PlacesKeep(g: Graph, o: Oracle, k: Cycle, arr: seq<Value>, s0: RunState, m: nat, r: nat, r': nat, y: Id)
    requires Setting(g, o, k, arr, s0) && m < |arr| && r <= r' <= |k.body| + 1
    requires After(g, o, s0, Turn(k, m) + r').status.Running?
    requires y in Inside(k) && (forall i :: r <= i < r' ==> y != At(k, i)) && (r == 0 ==> y != k.it)
    ensures Outputs(After(g, o, s0, Turn(k, m) + r'), y) == Outputs(After(g, o, s0, Turn(k, m) + r), y)
    decreases r'
  {
    hide Setting, After, Turn, Inside, At;
    if r < r' {
      SettingHasOrder(g, o, k, arr, s0);
      hide ChainContainer, WellFormed, InputsAvailable;
      RunningBefore(g, o, s0, Turn(k, m) + r' - 1, Turn(k, m) + r');
      PlacesKeep(g, o, k, arr, s0, m, r, r' - 1, y);
      PlaceKeeps(g, o, k, arr, s0, m, r' - 1, y);
    }
  }

  /** Position `p` holds component `q` of the body and was invoked in pass `m`, by the batch for its place. */
  ghost predicate RanIn(g: Graph, o: Oracle, k: Cycle, s0: RunState, m: nat, q: nat, p: nat)
    requires Ready(s0) && LegalOrder(o) && q < |k.body|
  {
    var t := Turn(k, m) + q + 1;
    var s, s' := After(g, o, s0, t), After(g, o, s0, t + 1);
    s.idx <= p < s'.idx && s'.path[p] == k.body[q]
  }

  /** What `x` holds under `name` after answering `a`. */
  function Held(a: Answer, name: string, was: Value): Value {
    if name in a.outputs then a.outputs[name] else was
  }

  /** From `s` to `r` the outputs of `x` changed by the answer `a` only. */
  ghost predicate Answered(x: Id, a: Answer, s: RunState, r: RunState) {
    forall name :: Output(r, x, name) == Held(a, name, Output(s, x, name))
  }

  /** Entry `j` of `vs` is output `out` after the answer of `x` at position `ps[j]`. */
  predicate EntryIs(o: Oracle, x: Id, out: string, first: Value, ps: seq<nat>, vs: seq<Value>, j: nat)
    requires j < |ps| == |vs|
  {
    vs[j] == Held(o.answer(ps[j], x), out, if j == 0 then first else vs[j - 1])
  }

  lemma PlaceAnswers(g: Graph, o: Oracle, k: Cycle, arr: seq<Value>, s0: RunState, m: nat, q: nat) returns (p: nat)
    requires Setting(g, o, k, arr, s0) && m < |arr| && q < |k.body|
    requires After(g, o, s0, Turn(k, m) + q + 2).status.Running?
    ensures RanIn(g, o, k, s0, m, q, p)
    ensures Answered(k.body[q], o.answer(p, k.body[q]), After(g, o, s0, Turn(k, m) + q + 1), After(g, o, s0, Turn(k, m) + q + 2))
  {
    hide Setting, After, Step, TokenMoves, Turn, Invoke, ChainContainer, WellFormed, InputsAvailable, Inside, LegalOrder;
    SettingHasOrder(g, o, k, arr, s0);
    var before;
    p, before := PlaceRuns(g, o, k, arr, s0, m, q + 1);
    BodyIsPlain(g, k, q);
    var s, x := After(g, o, s0, Turn(k, m) + q + 1), k.body[q];
    AfterSucc(g, o, s0, Turn(k, m) + q + 1);
    TokenOutputs(g, o, k, s, x, p, before);
    OtherAnswers(g, o, before, p);
    forall name
      ensures Output(Step(g, o, s), x, name) == Held(o.answer(p, x), name, Output(s, x, name))
    {
    }
  }

  lemma OtherAnswers(g: Graph, o: Oracle, s: RunState, p: nat)
    requires p < |s.path| && Lookup(g, s.path[p]).kind.Other?
    ensures Outputs(Invoke(g, o, s, p), s.path[p]) == Outputs(s, s.path[p]) + o.answer(p, s.path[p]).outputs
  {
  }

  /** Over a whole pass, a component of the body changes its outputs by its one answer. */
  lemma PassAnswers(g: Graph, o: Oracle, k: Cycle, arr: seq<Value>, s0: RunState, m: nat, q: nat) returns (p: nat)
    requires Setting(g, o, k, arr, s0) && m < |arr| && q < |k.body| && After(g, o, s0, Turn(k, m + 1)).status.Running?
    ensures RanIn(g, o, k, s0, m, q, p)
    ensures Answered(k.body[q], o.answer(p, k.body[q]), After(g, o, s0, Turn(k, m)), After(g, o, s0, Turn(k, m + 1)))
  {
    hide Setting, After, RanIn, Held, WellFormed, InputsAvailable, LegalOrder;
    var t, x := Turn(k, m), k.body[q];
    assert Turn(k, m + 1) == t + |k.body| + 1;
    hide Turn;
    SettingHasOrder(g, o, k, arr, s0);
    BodyIsPlain(g, k, q);
    hide ChainContainer;
    RunningBefore(g, o, s0, t + q + 2, t + |k.body| + 1);
    RunningBefore(g, o, s0, t + q + 1, t + q + 2);
    forall i | 0 <= i <= |k.body| && i != q + 1
      ensures x != At(k, i)
    {
    }
    PlacesKeep(g, o, k, arr, s0, m, 0, q + 1, x);
    p := PlaceAnswers(g, o, k, arr, s0, m, q);
    PlacesKeep(g, o, k, arr, s0, m, q + 2, |k.body| + 1, x);
    forall name
      ensures Output(After(g, o, s0, t + |k.body| + 1), x, name) == Output(After(g, o, s0, t + q + 2), x, name)
      ensures Output(After(g, o, s0, t + q + 1), x, name) == Output(After(g, o, s0, t), x, name)
    {
    }
  }

  /** The entry into the container changes no outputs inside it. */
  lemma EntryKeeps(g: Graph, o: Oracle, k: Cycle, arr: seq<Value>, s0: RunState, y: Id)
    requires Setting(g, o, k, arr, s0) && After(g, o, s0, 1).status.Running? && y in Inside(k) && y != k.it
    ensures Outputs(After(g, o, s0, 1), y) == Outputs(s0, y)
  {
    hide After, Step, TokenMoves, Invoke, Edge, ChainLink, WellFormed, LegalOrder, Keep, Steady, NeverReentered;
    SettingHasOrder(g, o, k, arr, s0);
    AfterSucc(g, o, s0, 0);
    NotReentered(g, o, k, s0, 0);
    assert InputsIn(g, s0.path[..s0.idx], k.it) && k.it in Inside(k);
    TokenSurvives(g, k, s0, k.it);
    var p, before := BatchWithToken(g, o, k, s0, k.it);
    TokenOutputs(g, o, k, s0, k.it, p, before);
    InvokeFrame(g, o, before, p, y);
  }

  /** Main result, collecting: each output of the Iteration that refers to a component of the body holds one entry
      per element, entry j being what the component answered at its position in pass j, and what it held before
      if that answer did not name the output. */
  lemma {:induction false} CollectedAnswers(g: Graph, o: Oracle, k: Cycle, arr: seq<Value>, s0: RunState, name: string, q: nat, c: nat)
    returns (ps: seq<nat>, vs: seq<Value>)
    requires Setting(g, o, k, arr, s0) && Referenced(g, k, name) && q < |k.body| && c <= |arr|
    requires Lookup(g, k.it).kind.collects[name].0 == k.body[q] && After(g, o, s0, Turn(k, c)).status.Running?
    ensures |ps| == c && forall j :: 0 <= j < c ==> RanIn(g, o, k, s0, j, q, ps[j])
    ensures vs == Results(g, o, k, s0, name, c)
    ensures var out := Lookup(g, k.it).kind.collects[name].1;
            forall j: nat :: j < c ==> EntryIs(o, k.body[q], out, Output(s0, k.body[q], out), ps, vs, j)
    decreases c
  {
    hide Setting, After, RanIn, Held, WellFormed, InputsAvailable, LegalOrder, Turn;
    ps, vs := [], [];
    if c > 0 {
      SettingHasOrder(g, o, k, arr, s0);
      TurnsGrow(k, c - 1, c);
      RunningBefore(g, o, s0, Turn(k, c - 1), Turn(k, c));
      BodyIsPlain(g, k, q);
      hide ChainContainer;
      var p := PassAnswers(g, o, k, arr, s0, c - 1, q);
      var earlier, was := CollectedAnswers(g, o, k, arr, s0, name, q, c - 1);
      if c == 1 {
        FirstTurn(k);
        EntryKeeps(g, o, k, arr, s0, k.body[q]);
      }
      ps := earlier + [p];
      vs := Results(g, o, k, s0, name, c);
      var out := Lookup(g, k.it).kind.collects[name].1;
      forall j: nat | j < c
        ensures EntryIs(o, k.body[q], out, Output(s0, k.body[q], out), ps, vs, j)
      {
        if j < c - 1 {
          assert EntryIs(o, k.body[q], out, Output(s0, k.body[q], out), earlier, was, j);
        }
      }
    }
  }

  lemma FirstTurn(k: Cycle)
    ensures Turn(k, 0) == 1
  {
  }

  /** An output that refers to the item's element collects the array. */
  lemma CollectedItems(g: Graph, o: Oracle, k: Cycle, arr: seq<Value>, s0: RunState, name: string)
    requires Setting(g, o, k, arr, s0) && Referenced(g, k, name) && Lookup(g, k.it).kind.collects[name] == (k.item, "item")
    requires After(g, o, s0, Turn(k, |arr|)).status.Running?
    ensures Results(g, o, k, s0, name, |arr|) == arr
  {
    hide Setting, After, WellFormed, InputsAvailable, LegalOrder, ChainContainer;
    SettingHasOrder(g, o, k, arr, s0);
    var vs := Results(g, o, k, s0, name, |arr|);
    forall j | 0 <= j < |arr|
      ensures vs[j] == arr[j]
    {
      var t := Turn(k, j);
      assert Turn(k, j + 1) == t + |k.body| + 1;
      if j + 1 < |arr| {
        TurnsGrow(k, j + 1, |arr|);
      }
      hide Turn;
      RunningBefore(g, o, s0, Turn(k, j + 1), Turn(k, |arr|));
      RunningBefore(g, o, s0, t + 1, Turn(k, j + 1));
      ElementsInOrder(g, o, k, arr, s0, j);
      PlacesKeep(g, o, k, arr, s0, j, 1, |k.body| + 1, k.item);
    }
  }

  // ---------------------------------------------------------------- from the launch

  /** Batch `t` after the entry, as a batch after the launch. */
  lemma BatchesAreExecuted(g: Graph, o: Oracle, k: Cycle, way: seq<Id>, s0: RunState, t: nat, n: nat)
    requires Inviting(g, o, k, way, s0) && t <= n && !After(g, o, s0, |way| + n).status.Suspended?
    ensures var s, last := After(g, o, After(g, o, s0, |way|), t), After(g, o, s0, |way| + n);
            s.idx <= last.idx && s.path[..s.idx] <= last.path
  {
    hide WellFormed, Edge, ChainContainer, RoutesDeclared, OneWayIn, Passable, WayIsSound, After, Undisturbed, LegalOrder;
    AfterSplit(g, o, s0, |way|, t);
    ExecutedEntriesNeverChange(g, o, s0, |way| + t, |way| + n);
  }

  lemma RanBeforeTheEnd(g: Graph, o: Oracle, k: Cycle, way: seq<Id>, s0: RunState, n: nat, j: nat, q: nat, p: nat)
    requires Inviting(g, o, k, way, s0) && j < n && q < |k.body|
    requires RanIn(g, o, k, After(g, o, s0, |way|), j, q, p) && !After(g, o, s0, |way| + Turn(k, n) + 1).status.Suspended?
    ensures var last := After(g, o, s0, |way| + Turn(k, n) + 1); p < |last.path| && last.path[p] == k.body[q]
  {
    hide Inviting, After, Turn, LegalOrder;
    InvitingReady(g, o, k, way, s0);
    TurnsGrow(k, j, n);
    var t := Turn(k, j) + q + 2;
    BatchesAreExecuted(g, o, k, way, s0, t, Turn(k, n) + 1);
    var s := After(g, o, After(g, o, s0, |way|), t);
    assert s.path[..s.idx][p] == k.body[q];
  }

  lemma RanInTurn(g: Graph, o: Oracle, k: Cycle, way: seq<Id>, s0: RunState, n: nat, i: nat, j: nat, q: nat, p: nat, p': nat)
    requires Inviting(g, o, k, way, s0) && i < j < n && q < |k.body|
    requires !After(g, o, s0, |way| + Turn(k, n) + 1).status.Suspended?
    requires RanIn(g, o, k, After(g, o, s0, |way|), i, q, p) && RanIn(g, o, k, After(g, o, s0, |way|), j, q, p')
    requires After(g, o, After(g, o, s0, |way|), Turn(k, n)).status.Running?
    ensures p < p'
  {
    hide Inviting, After, Turn, LegalOrder;
    InvitingReady(g, o, k, way, s0);
    var s := After(g, o, s0, |way|);
    TurnsGrow(k, i, j);
    TurnsGrow(k, j, n);
    var t, t' := Turn(k, i) + q + 2, Turn(k, j) + q + 1;
    RunningBefore(g, o, s, t', Turn(k, n));
    AfterSplit(g, o, s0, |way|, t');
    BatchesAreExecuted(g, o, k, way, s0, t, t');
  }

  /** At the entry a component of the body holds what it held at the launch. */
  lemma LaunchLeavesBody(g: Graph, o: Oracle, k: Cycle, way: seq<Id>, s0: RunState, x: Id)
    requires Inviting(g, o, k, way, s0) && x in Inside(k)
    ensures Outputs(After(g, o, s0, |way|), x) == Outputs(s0, x)
  {
    hide WellFormed, Edge, ChainContainer, RoutesDeclared, OneWayIn, Passable, WayIsSound, After, Undisturbed, LegalOrder, Known,
         FreshLaunch, StopsOnce, Tokens, NoneUnhandled, Inside;
    InvitingReady(g, o, k, way, s0);
    RunApproaches(g, o, k, way, s0, |way|);
  }

  /** Main result, end to end: after an undisturbed launch into a fresh Iteration over a nonempty array, an output
      that refers to a component of the body holds exactly that component's answers, one per element, in the
      order of its invocations on the path. */
  lemma LaunchedAnswersAreCollected(g: Graph, o: Oracle, k: Cycle, way: seq<Id>, arr: seq<Value>, s0: RunState, name: string, q: nat)
    returns (ps: seq<nat>, vs: seq<Value>)
    requires Inviting(g, o, k, way, s0) && Steady(g, o, k, arr) && InputsAvailable(g, k, s0.path[..s0.idx] + way)
    requires forall out :: Referenced(g, k, out) ==> AsList(Output(s0, k.it, out)) == []
    requires arr != [] && Referenced(g, k, name) && q < |k.body| && Lookup(g, k.it).kind.collects[name].0 == k.body[q]
    ensures |ps| == |vs| == |arr|
    ensures var last, out := After(g, o, s0, |way| + Turn(k, |arr|) + 1), Lookup(g, k.it).kind.collects[name].1;
            && Output(last, k.it, name) == Items(vs)
            && (forall j :: 0 <= j < |arr| ==> ps[j] < |last.path| && last.path[ps[j]] == k.body[q])
            && (forall i, j :: 0 <= i < j < |arr| ==> ps[i] < ps[j])
            && forall j: nat :: j < |arr| ==> EntryIs(o, k.body[q], out, Output(s0, k.body[q], out), ps, vs, j)
  {
    hide WellFormed, Edge, ChainContainer, RoutesDeclared, OneWayIn, Passable, WayIsSound, After, Steady, InputsAvailable, FreshLaunch,
         Setting, Undisturbed, Turn, Presented, Left, RanIn, Held, LegalOrder;
    InvitingReady(g, o, k, way, s0);
    LaunchEnters(g, o, k, way, arr, s0);
    var s := After(g, o, s0, |way|);
    LaunchedIterationCompletes(g, o, k, way, arr, s0);
    IterationCompletes(g, o, k, arr, s);
    ps, vs := CollectedAnswers(g, o, k, arr, s, name, q, |arr|);
    InBody(k, q);
    LaunchLeavesBody(g, o, k, way, s0, k.body[q]);
    var out := Lookup(g, k.it).kind.collects[name].1;
    assert Output(s, k.body[q], out) == Output(s0, k.body[q], out);
    forall j | 0 <= j < |arr|
      ensures ps[j] < |After(g, o, s0, |way| + Turn(k, |arr|) + 1).path|
      ensures After(g, o, s0, |way| + Turn(k, |arr|) + 1).path[ps[j]] == k.body[q]
    {
      RanBeforeTheEnd(g, o, k, way, s0, |arr|, j, q, ps[j]);
    }
    forall i, j | 0 <= i < j < |arr|
      ensures ps[i] < ps[j]
    {
      RanInTurn(g, o, k, way, s0, |arr|, i, j, q, ps[i], ps[j]);
    }
  }

  lemma InBody(k: Cycle, q: nat)
    requires q < |k.body|
    ensures k.body[q] in Inside(k)
  {
  }

  /** The graph with one Iteration, whose components answer their positions: after the launched run the results
      are the positions of "work" on the path. */
  lemma PositionsAreCollected(arr: seq<Value>) returns (ps: seq<nat>, vs: seq<Value>)
    requires arr != []
    ensures |ps| == |vs| == |arr| && forall j :: 0 <= j < |arr| ==> vs[j] == Number(ps[j])
    ensures var last := After(GRAPH, Calm(arr), START, 2 + Turn(CYCLE, |arr|) + 1);
            && Output(last, "loop", "results") == Items(vs)
            && forall j :: 0 <= j < |arr| ==> ps[j] < |last.path| && last.path[ps[j]] == "work"
  {
    hide Inviting, Steady, InputsAvailable, After, Turn;
    LaunchHypothesesAreMet(arr);
    StartIsFresh();
    ps, vs := LaunchedAnswersAreCollected(GRAPH, Calm(arr), CYCLE, WAY, arr, START, "results", 0);
    forall j: nat | j < |arr|
      ensures vs[j] == Number(ps[j])
    {
      assert EntryIs(Calm(arr), "work", "answer", Output(START, "work", "answer"), ps, vs, j);
    }
  }
}
