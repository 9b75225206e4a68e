/**
 Exactly when runs into a container stop: the graph decides, by whether a default value can hide a failure
 of the container's item.
 */
module CanvasTermination {
  import opened Prelude
  import opened CanvasModel
  import opened CanvasRuns
  import opened CanvasContainer
  import opened CanvasIteration
  import opened CanvasEntry
  import opened CanvasStalls

  /** In every environment that keeps to `n` passes the run from `s` stops within `bound` batches. */
  ghost predicate StopsEverywhere(g: Graph, k: Cycle, n: nat, s: RunState, bound: nat)
    requires Ready(s)
  {
    forall o: Oracle {:trigger After(g, o, s, bound)} ::
      LegalOracle(g, o) && Within(g, o, k, n) ==> !After(g, o, s, bound).status.Running?
  }

  /** A Loop's own maximum is within the number of passes allowed. */
  predicate LoopWithin(g: Graph, k: Cycle, n: nat) {
    var kind := Lookup(g, k.it).kind;
    kind.Loop? ==> kind.maxLoops <= n
  }

  lemma PlainItemsAdvance(g: Graph, o: Oracle, k: Cycle, n: nat)
    requires Within(g, o, k, n) && !Hides(g, k)
    ensures PassesWithin(g, o, k, n)
  {
  }

  // ---------------------------------------------------------------- from the item on

  /** One batch cannot schedule `it` once more after its way in is past. */
  lemma ItStaysOnce(g: Graph, o: Oracle, k: Cycle, way: seq<Id>, lo: nat, s: RunState)
    requires WellFormed(g) && LegalOracle(g, o) && OneWayIn(g, k, way) && Known(g, s.path) && Ready(s) && Past(way, s)
    requires s.status.Running? && Step(g, o, s).status.Running? && lo <= s.idx && AtMostOnce(s.path, lo, k.it)
    ensures AtMostOnce(Step(g, o, s).path, lo, k.it)
  {
    hide Edge, WellFormed, Batch, Step, SingleFile, Known, Prune, AtMostOnce, RoutesDeclared;
    RunningStep(g, o, s);
    NothingLeadsBack(g, o, k, way, s);
    assert k.it in way + [k.it];
    var path, b := Pruned(g, s).path, Batch(g, o, s).path;
    assert s.path[..s.idx] + s.path[s.idx..] == s.path;
    OncePruned(g, s.path[..s.idx], s.path[s.idx..], lo, k.it);
    NoneIsOnce(b[|path|..], k.it);
    OnceAppend(path, lo, b[|path|..], k.it);
    assert path + b[|path|..] == b;
  }

  /** What the potential argument needs of a state. */
  ghost predicate Contained(g: Graph, k: Cycle, way: seq<Id>, n: nat, lo: nat, s: RunState)
    requires Ready(s)
  {
    TokenInv(k, n, lo, s) && AtMostOnce(s.path, lo, k.it) && Past(way, s) && Known(g, s.path)
  }

  lemma ContainedStays(g: Graph, o: Oracle, k: Cycle, way: seq<Id>, n: nat, lo: nat, s: RunState)
    requires WellFormed(g) && LegalOracle(g, o) && ChainContainer(g, k) && OneWayIn(g, k, way) && PassesWithin(g, o, k, n)
    requires Ready(s) && s.status.Running? && Step(g, o, s).status.Running? && Contained(g, k, way, n, lo, s)
    ensures Contained(g, k, way, n, lo, Step(g, o, s)) && AtMostOnce(Step(g, o, s).path, lo, k.it)
  {
    hide Edge, WellFormed, Step, OneWayIn, Known, Past, AtMostOnce, ChainContainer, PassesWithin, RoutesDeclared, Executed, Tokens;
    ItStaysOnce(g, o, k, way, lo, s);
    PastStays(g, o, k, way, s);
    StepKeepsToken(g, o, k, n, lo, s);
  }

  lemma {:induction false} PotentialFrom(g: Graph, o: Oracle, k: Cycle, way: seq<Id>, n: nat, lo: nat, s: RunState,
                                         rank: Id -> nat, m0: nat, t: nat) returns (m: nat)
    requires WellFormed(g) && LegalOracle(g, o) && ChainContainer(g, k) && OneWayIn(g, k, way) && PassesWithin(g, o, k, n)
    requires RankedButPass(g, k, rank) && Ready(s) && Contained(g, k, way, n, lo, s) && PendingBelow(s, rank, m0)
    ensures var r := After(g, o, s, t); var height := rank(k.body[0]) + 1;
            r.status.Running? ==>
              Contained(g, k, way, n, lo, r) && PendingBelow(r, rank, m) &&
              PassesLeft(k, n, r) * height + m + t <= PassesLeft(k, n, s) * height + m0
  {
    hide Step, ChainContainer, WellFormed, PassesWithin, RankedButPass, Edge, OneWayIn, Contained, PassesLeft, PendingBelow;
    ChainIsDistinct(g, k);
    OracleHasOrder(g, o);
    m := m0;
    if t > 0 {
      var r := After(g, o, s, t - 1);
      var m1 := PotentialFrom(g, o, k, way, n, lo, s, rank, m0, t - 1);
      if !r.status.Running? {
        StoppedStays(g, o, r);
      } else if Step(g, o, r).status.Running? {
        ContainedStays(g, o, k, way, n, lo, r);
        ContainedIs(g, k, way, n, lo, r);
        m := StepLowersPotential(g, o, k, n, lo, r, rank, m1);
      }
    }
  }

  lemma ContainedIs(g: Graph, k: Cycle, way: seq<Id>, n: nat, lo: nat, s: RunState)
    requires Ready(s) && Contained(g, k, way, n, lo, s)
    ensures TokenInv(k, n, lo, s) && Known(g, s.path)
  {
  }

  lemma LastPosition(path: seq<Id>, x: Id) returns (p: nat)
    requires x in path
    ensures p < |path| && path[p] == x && x !in path[p + 1..]
  {
    if path[|path| - 1] == x {
      p := |path| - 1;
    } else {
      p := LastPosition(path[..|path| - 1], x);
      assert path[p + 1..] == path[..|path| - 1][p + 1..] + [path[|path| - 1]];
    }
  }

  /** The fresh item waits alone, and the way into its container is past. */
  ghost predicate ItemWaits(g: Graph, k: Cycle, way: seq<Id>, done: seq<Id>, s: RunState) {
    InputsAvailable(g, k, done) && Spinning(g, k, done, s, 0) && Known(g, s.path) && Past(way, s)
  }

  lemma OneKeptInside(k: Cycle, x: Id)
    requires x in Inside(k)
    ensures Keep([x], Inside(k)) == [x]
  {
    assert [x][1..] == [] && Keep<Id>([], Inside(k)) == [];
  }

  lemma WaitingIsContained(g: Graph, k: Cycle, way: seq<Id>, n: nat, done: seq<Id>, s: RunState) returns (lo: nat)
    requires ChainContainer(g, k) && Distinct(k) && ItemWaits(g, k, way, done, s)
    ensures Contained(g, k, way, n, lo, s) && PassesLeft(k, n, s) == n
  {
    hide InputsAvailable, ChainContainer, Edge;
    lo := LastPosition(s.path[..s.idx], k.it);
    assert s.path[s.idx..] == [k.item] && [k.item][1..] == [];
    OneKeptInside(k, k.item);
    assert Tokens(k, s.path, s.idx) == [k.item];
    assert s.path[lo] == k.it && Executed(s.path, lo, s.idx, k.it);
    forall q | lo < q < |s.path|
      ensures s.path[q] != k.it
    {
      if q < s.idx {
        assert s.path[..s.idx][lo + 1..][q - lo - 1] == s.path[q];
      }
    }
    assert AtMostOnce(s.path, lo, k.it);
    assert TokenInv(k, n, lo, s);
  }

  /** Whatever the environment does, a waiting item that hides nothing lets the run stop. */
  lemma WaitingStops(g: Graph, o: Oracle, k: Cycle, way: seq<Id>, n: nat, done: seq<Id>, s: RunState, rank: Id -> nat)
    requires WellFormed(g) && LegalOracle(g, o) && ChainContainer(g, k) && OneWayIn(g, k, way) && PassesWithin(g, o, k, n)
    requires RankedButPass(g, k, rank) && ItemWaits(g, k, way, done, s)
    ensures Ready(s) && !After(g, o, s, n * (rank(k.body[0]) + 1) + rank(k.item) + 1).status.Running?
  {
    hide Step, ChainContainer, WellFormed, PassesWithin, RankedButPass, Edge, OneWayIn, After, InputsAvailable, TokenInv;
    ChainIsDistinct(g, k);
    OracleHasOrder(g, o);
    var lo := WaitingIsContained(g, k, way, n, done, s);
    var t := n * (rank(k.body[0]) + 1) + rank(k.item) + 1;
    var m := PotentialFrom(g, o, k, way, n, lo, s, rank, rank(k.item) + 1, t);
    var r := After(g, o, s, t);
    if r.status.Running? {
      ContainedIs(g, k, way, n, lo, r);
      PassesLeftNonneg(k, n, lo, r, rank(k.body[0]) + 1);
      PendingIsPositive(r, rank, m);
    }
  }

  /** A failure the graph can hide is hidden for ever by the environment in which the item always raises. */
  lemma HiddenFailuresNeverEnd(g: Graph, k: Cycle, n: nat, done: seq<Id>, s: RunState, t: nat)
    requires ChainContainer(g, k) && LoopWithin(g, k, n) && Hides(g, k) && InputsAvailable(g, k, done) && Spinning(g, k, done, s, 0)
    ensures LegalOracle(g, UNREADABLE) && Within(g, UNREADABLE, k, n)
    ensures Ready(s) && After(g, UNREADABLE, s, t).status.Running?
  {
    hide ChainContainer, Edge, InputsAvailable, After, Spinning;
    UnreadableIsLegal(g, k);
    UncountedPassesNeverStop(g, UNREADABLE, k, done, s, t);
  }

  /** Main result, exactly: from a fresh item that waits alone, with its way in past, the run stops in every
      environment if and only if the graph hides no failure of the item. */
  lemma StopsExactlyUnlessHidden(g: Graph, k: Cycle, way: seq<Id>, n: nat, done: seq<Id>, s: RunState, rank: Id -> nat)
    requires WellFormed(g) && ChainContainer(g, k) && OneWayIn(g, k, way) && RankedButPass(g, k, rank)
    requires LoopWithin(g, k, n) && ItemWaits(g, k, way, done, s)
    ensures Ready(s)
    ensures StopsEverywhere(g, k, n, s, n * (rank(k.body[0]) + 1) + rank(k.item) + 1) <==> !Hides(g, k)
  {
    hide ChainContainer, WellFormed, OneWayIn, RankedButPass, Edge, Hides, Step, After, PassesWithin, InputsAvailable, LegalOracle, Within;
    ChainIsDistinct(g, k);
    SpinningReady(g, k, done, s, 0);
    var bound := n * (rank(k.body[0]) + 1) + rank(k.item) + 1;
    if Hides(g, k) {
      HiddenFailuresNeverEnd(g, k, n, done, s, bound);
    } else {
      forall o: Oracle | LegalOracle(g, o) && Within(g, o, k, n)
        ensures LegalOrder(o) && !After(g, o, s, bound).status.Running?
      {
        OracleHasOrder(g, o);
        PlainItemsAdvance(g, o, k, n);
        WaitingStops(g, o, k, way, n, done, s, rank);
      }
    }
  }

  /** Main result: into a container whose item hides no failure every run stops, in every environment. */
  lemma PlainContainersStop(g: Graph, k: Cycle, way: seq<Id>, n: nat, s0: RunState, rank: Id -> nat)
    requires WellFormed(g) && ChainContainer(g, k) && FreshLaunch(g, k, s0) && OneWayIn(g, k, way) && s0.path[s0.idx] == way[0]
    requires RankedButPass(g, k, rank) && !Hides(g, k)
    ensures StopsEverywhere(g, k, n, s0, n * (rank(k.body[0]) + 1) + rank(s0.path[s0.idx]) + 1)
  {
    hide ChainContainer, WellFormed, OneWayIn, RankedButPass, Edge, Hides, Step, After, PassesWithin, LegalOracle, Within;
    ChainIsDistinct(g, k);
    var bound := n * (rank(k.body[0]) + 1) + rank(s0.path[s0.idx]) + 1;
    forall o: Oracle | LegalOracle(g, o) && Within(g, o, k, n)
      ensures LegalOrder(o) && !After(g, o, s0, bound).status.Running?
    {
      OracleHasOrder(g, o);
      PlainItemsAdvance(g, o, k, n);
      RunsIntoContainerStop(g, o, k, way, n, s0, rank);
    }
  }

  // ---------------------------------------------------------------- from the launch on

  /** Each component of `way` leads straight on, to the next one or into the container, and has its inputs. */
  predicate Straight(g: Graph, k: Cycle, way: seq<Id>, done: seq<Id>) {
    forall j :: 0 <= j < |way| ==> LeadsOn(g, way + [k.it], done, j)
  }

  predicate LeadsOn(g: Graph, stops: seq<Id>, done: seq<Id>, j: nat)
    requires j + 1 < |stops|
  {
    && stops[j] in g && (g[stops[j]].kind.Begin? || g[stops[j]].kind.Other?)
    && g[stops[j]].downstream == [stops[j + 1]] && (g[stops[j]].kind.Begin? || InputsIn(g, done + stops[..j], stops[j]))
  }

  /** Nothing cancels the run, and nothing on the way into the container errs. */
  ghost predicate WayHolds(o: Oracle, k: Cycle, way: seq<Id>) {
    && (forall i: nat :: !o.cancel(i))
    && forall p: nat, x {:trigger o.answer(p, x)} :: x in way || x == k.it ==> !o.answer(p, x).fails
  }

  /** The stops of a run into the container, up to its item. */
  function Lane(k: Cycle, way: seq<Id>): seq<Id> { way + [k.it, k.item] }

  /** Stop `j` is the only entry pending; nothing but outputs has changed otherwise. */
  predicate AtStop(k: Cycle, way: seq<Id>, s0: RunState, s: RunState, j: nat)
    requires Ready(s0) && j < |Lane(k, way)|
  {
    && s.path == s0.path[..s0.idx] + Lane(k, way)[..j + 1] && s.idx == s0.idx + j
    && s.status.Running? && s.errs == {} && s.counter == s0.counter
  }

  lemma StopIsSolo(g: Graph, k: Cycle, way: seq<Id>, s0: RunState, s: RunState, j: nat)
    requires Ready(s0) && j <= |way| && AtStop(k, way, s0, s, j)
    requires Straight(g, k, way, s0.path[..s0.idx]) && InputsAvailable(g, k, s0.path[..s0.idx] + way)
    ensures Solo(g, s, Lane(k, way)[j])
  {
    hide NamesFillUp, ChainContainer;
    var done, lane := s0.path[..s0.idx], Lane(k, way);
    assert s.path[..s.idx] == done + lane[..j] && s.path[s.idx] == lane[j];
    if j < |way| {
      assert LeadsOn(g, way + [k.it], done, j);
      assert (way + [k.it])[..j] == lane[..j];
    } else {
      assert lane[..j] == way;
    }
  }

  lemma StopRoutes(g: Graph, o: Oracle, k: Cycle, way: seq<Id>, s0: RunState, s: RunState, rank: Id -> nat, j: nat)
    requires ChainContainer(g, k) && RankedButPass(g, k, rank) && WayHolds(o, k, way)
    requires Ready(s0) && j <= |way| && AtStop(k, way, s0, s, j) && Straight(g, k, way, s0.path[..s0.idx])
    ensures var t := Invoke(g, o, s, s.idx); var b := Route(g, o, t, s.idx);
            && b.path == s.path + [Lane(k, way)[j + 1]] && b.idx == s.idx && b.status.Running?
            && b.errs == {} && b.counter == s0.counter
    ensures Lane(k, way)[j + 1] !in FillUps(g)
  {
    hide ChainContainer, RankedButPass, Straight, Edge;
    var x, y := Lane(k, way)[j], Lane(k, way)[j + 1];
    StopLeads(g, k, way, s0.path[..s0.idx], rank, j);
    assert s.path[s.idx] == x;
    assert !o.answer(s.idx, x).fails by {
      assert j < |way| ==> way[j] in way;
    }
    var t := Invoke(g, o, s, s.idx);
    assert Targets(g, t, x, o.answer(s.idx, x)) == [y];
    ExtendOne(t.path, y);
  }

  /** What stop `j` is, and what follows it. */
  lemma StopLeads(g: Graph, k: Cycle, way: seq<Id>, done: seq<Id>, rank: Id -> nat, j: nat)
    requires ChainContainer(g, k) && RankedButPass(g, k, rank) && Straight(g, k, way, done) && j <= |way|
    ensures var x, y := Lane(k, way)[j], Lane(k, way)[j + 1];
            && x in g && y in g && x != y && !g[y].kind.UserFillUp?
            && (if j < |way| then (g[x].kind.Begin? || g[x].kind.Other?) && g[x].downstream == [y]
                else IsContainer(g[x].kind) && StartOf(g[x].kind) == y)
  {
    hide ChainLink, LeavesOnly, InputsIn, Inside;
    var x, y := Lane(k, way)[j], Lane(k, way)[j + 1];
    if j < |way| {
      assert LeadsOn(g, way + [k.it], done, j);
      assert j + 1 < |way| ==> LeadsOn(g, way + [k.it], done, j + 1);
    }
    assert Edge(g, x, y) && rank(y) < rank(x);
  }

  lemma StopStep(g: Graph, o: Oracle, k: Cycle, way: seq<Id>, s0: RunState, s: RunState, rank: Id -> nat, j: nat)
    requires LegalOrder(o) && ChainContainer(g, k) && RankedButPass(g, k, rank) && WayHolds(o, k, way)
    requires Ready(s0) && Ready(s) && j <= |way| && AtStop(k, way, s0, s, j)
    requires Straight(g, k, way, s0.path[..s0.idx]) && InputsAvailable(g, k, s0.path[..s0.idx] + way)
    ensures AtStop(k, way, s0, Step(g, o, s), j + 1)
  {
    hide ChainContainer, Edge, RankedButPass, Straight, InputsAvailable, Invoke, Route, FillUps, Kept, Step;
    StopIsSolo(g, k, way, s0, s, j);
    StopRoutes(g, o, k, way, s0, s, rank, j);
    var y := Lane(k, way)[j + 1];
    var b := Route(g, o, Invoke(g, o, s, s.idx), s.idx);
    assert b.path[|s.path|..] == [y];
    SoloStep(g, o, s, Lane(k, way)[j]);
    assert Lane(k, way)[..j + 1] + [y] == Lane(k, way)[..j + 2];
  }

  lemma {:induction false} StopAfter(g: Graph, o: Oracle, k: Cycle, way: seq<Id>, s0: RunState, rank: Id -> nat, j: nat)
    requires LegalOrder(o) && ChainContainer(g, k) && RankedButPass(g, k, rank) && WayHolds(o, k, way)
    requires Launched(g, s0) && s0.errs == {} && way != [] && s0.path[s0.idx] == way[0] && j <= |way| + 1
    requires Straight(g, k, way, s0.path[..s0.idx]) && InputsAvailable(g, k, s0.path[..s0.idx] + way)
    ensures AtStop(k, way, s0, After(g, o, s0, j), j)
  {
    hide ChainContainer, Edge, RankedButPass, Straight, InputsAvailable, Step, Launched, WayHolds;
    LaunchedPath(g, s0);
    if j == 0 {
      OnePending(g, s0);
      assert Lane(k, way)[..1] == [way[0]];
    } else {
      StopAfter(g, o, k, way, s0, rank, j - 1);
      StopStep(g, o, k, way, s0, After(g, o, s0, j - 1), rank, j - 1);
    }
  }

  lemma OnePending(g: Graph, s0: RunState)
    requires Launched(g, s0)
    ensures s0.path == s0.path[..s0.idx] + [s0.path[s0.idx]]
  {
  }

  /** After one batch for each stop the fresh item waits alone. */
  lemma ItemIsReached(g: Graph, o: Oracle, k: Cycle, way: seq<Id>, s0: RunState, rank: Id -> nat)
    requires LegalOrder(o) && ChainContainer(g, k) && RankedButPass(g, k, rank) && WayHolds(o, k, way)
    requires FreshLaunch(g, k, s0) && s0.errs == {} && way != [] && s0.path[s0.idx] == way[0]
    requires Straight(g, k, way, s0.path[..s0.idx]) && InputsAvailable(g, k, s0.path[..s0.idx] + way)
    ensures ItemWaits(g, k, way, s0.path[..s0.idx] + way, After(g, o, s0, |way| + 1))
  {
    hide ChainContainer, Edge, RankedButPass, Straight, InputsAvailable, Step, After, WayHolds;
    WayIsKnown(g, k, way, s0.path[..s0.idx]);
    ChainIsDistinct(g, k);
    StopAfter(g, o, k, way, s0, rank, |way| + 1);
    LastStopWaits(g, k, way, s0, After(g, o, s0, |way| + 1));
  }

  lemma LastStopWaits(g: Graph, k: Cycle, way: seq<Id>, s0: RunState, s: RunState)
    requires FreshLaunch(g, k, s0) && Ready(s) && AtStop(k, way, s0, s, |way| + 1)
    requires k.it in g && k.item in g && forall x :: x in way ==> x in g && x != k.item
    requires InputsAvailable(g, k, s0.path[..s0.idx] + way)
    ensures ItemWaits(g, k, way, s0.path[..s0.idx] + way, s)
  {
    hide InputsAvailable, NamesFillUp, Inside;
    var done := s0.path[..s0.idx] + way;
    assert Lane(k, way)[..|way| + 2] == Lane(k, way);
    assert s.path == done + [k.it, k.item];
    assert s.path[..s.idx] == done + [k.it];
    assert s.path[s.idx..] == [k.item];
  }

  lemma WayIsKnown(g: Graph, k: Cycle, way: seq<Id>, done: seq<Id>)
    requires ChainContainer(g, k) && Straight(g, k, way, done)
    ensures k.it in g && k.item in g && forall x :: x in way ==> x in g && x != k.item
  {
    hide Edge;
    forall j | 0 <= j < |way|
      ensures way[j] in g && way[j] != k.item
    {
      assert LeadsOn(g, way + [k.it], done, j);
    }
  }

  /** A launched run into a container whose graph hides failures never ends where the item always raises. */
  lemma LaunchedNeverEnds(g: Graph, k: Cycle, way: seq<Id>, n: nat, s0: RunState, rank: Id -> nat, t: nat)
    requires ChainContainer(g, k) && RankedButPass(g, k, rank) && LoopWithin(g, k, n) && Hides(g, k)
    requires FreshLaunch(g, k, s0) && s0.errs == {} && way != [] && s0.path[s0.idx] == way[0]
    requires Straight(g, k, way, s0.path[..s0.idx]) && InputsAvailable(g, k, s0.path[..s0.idx] + way)
    ensures LegalOracle(g, UNREADABLE) && Within(g, UNREADABLE, k, n) && After(g, UNREADABLE, s0, t).status.Running?
  {
    hide ChainContainer, Edge, RankedButPass, Straight, InputsAvailable, Step, After, WayHolds, Spinning, RoutesDeclared, LegalOrder, Hides,
         Past, Known;
    UnreadableIsLegal(g, k);
    UnreadableHolds(k, way);
    ItemIsReached(g, UNREADABLE, k, way, s0, rank);
    var s := After(g, UNREADABLE, s0, |way| + 1);
    HiddenFailuresNeverEnd(g, k, n, s0.path[..s0.idx] + way, s, t);
    AfterSplit(g, UNREADABLE, s0, |way| + 1, t);
    RunningBefore(g, UNREADABLE, s0, t, |way| + 1 + t);
  }

  lemma UnreadableHolds(k: Cycle, way: seq<Id>)
    ensures WayHolds(UNREADABLE, k, way)
  {
  }

  /** Main result, exactly, for whole runs: launched at the head of a straight way into a fresh container that
      is the graph's only cycle, a run stops in every environment if and only if the graph hides no failure of
      the item; otherwise some environment keeps it going for ever. */
  lemma LaunchedStopsExactlyUnlessHidden(g: Graph, k: Cycle, way: seq<Id>, n: nat, s0: RunState, rank: Id -> nat)
    requires WellFormed(g) && ChainContainer(g, k) && OneWayIn(g, k, way) && RankedButPass(g, k, rank) && LoopWithin(g, k, n)
    requires FreshLaunch(g, k, s0) && s0.errs == {} && s0.path[s0.idx] == way[0]
    requires Straight(g, k, way, s0.path[..s0.idx]) && InputsAvailable(g, k, s0.path[..s0.idx] + way)
    ensures StopsEverywhere(g, k, n, s0, n * (rank(k.body[0]) + 1) + rank(s0.path[s0.idx]) + 1) <==> !Hides(g, k)
    ensures Hides(g, k) ==> LegalOracle(g, UNREADABLE) && forall t: nat :: After(g, UNREADABLE, s0, t).status.Running?
  {
    hide ChainContainer, WellFormed, SingleFile, RankedButPass, Edge, Hides, Step, After, InputsAvailable, Straight, LegalOracle, Within;
    ChainIsDistinct(g, k);
    if Hides(g, k) {
      LaunchedNeverEnds(g, k, way, n, s0, rank, n * (rank(k.body[0]) + 1) + rank(s0.path[s0.idx]) + 1);
      OracleHasOrder(g, UNREADABLE);
      forall t: nat
        ensures After(g, UNREADABLE, s0, t).status.Running?
      {
        LaunchedNeverEnds(g, k, way, n, s0, rank, t);
      }
    } else {
      PlainContainersStop(g, k, way, n, s0, rank);
    }
  }

  // ---------------------------------------------------------------- one graph that stops, one that does not

  /** What the theorem asks of a graph, for runs from an empty path. */
  ghost predicate Suitable(g: Graph) {
    && WellFormed(g) && ChainContainer(g, CYCLE) && OneWayIn(g, CYCLE, WAY) && RankedButPass(g, CYCLE, GraphRank)
    && LoopWithin(g, CYCLE, 0)
    && FreshLaunch(g, CYCLE, START) && START.errs == {} && START.path[START.idx] == WAY[0]
    && Straight(g, CYCLE, WAY, START.path[..START.idx]) && InputsAvailable(g, CYCLE, START.path[..START.idx] + WAY)
  }

  /** Two graphs that differ in how the item treats its exceptions: over an array that cannot be read, the one
      whose item has a default value goes on for ever from its launch; the other stops in every environment. */
  lemma StuckNeverStops(n: nat, t: nat)
    ensures Suitable(GRAPH) && !Hides(GRAPH, CYCLE) && Suitable(STUCK) && Hides(STUCK, CYCLE)
    ensures StopsEverywhere(GRAPH, CYCLE, n, START, n * 3 + 6)
    ensures LegalOracle(STUCK, UNREADABLE) && After(STUCK, UNREADABLE, START, t).status.Running?
  {
    hide Edge, ChainContainer, OneWayIn, RankedButPass, Straight, InputsAvailable, WellFormed, FreshLaunch, After, LegalOracle;
    GraphIsWellFormed();
    GraphIsChained();
    GraphHasOneWayIn();
    StuckIsWellFormed();
    StuckIsChained();
    StuckHasOneWayIn();
    GraphStarts();
    StuckStarts();
    LaunchedStopsExactlyUnlessHidden(GRAPH, CYCLE, WAY, n, START, GraphRank);
    LaunchedStopsExactlyUnlessHidden(STUCK, CYCLE, WAY, n, START, GraphRank);
  }

  lemma StuckStartsAtBegin()
    ensures Launched(STUCK, START)
  {
    hide NamesFillUp;
    StartIsBegin();
  }

  lemma GraphStarts()
    ensures FreshLaunch(GRAPH, CYCLE, START) && START.path[..START.idx] == [] && START.path[START.idx] == "begin" && START.errs == {}
    ensures Straight(GRAPH, CYCLE, WAY, []) && InputsAvailable(GRAPH, CYCLE, [] + WAY)
    ensures Lookup(GRAPH, CYCLE.it).kind.Iteration? && !Hides(GRAPH, CYCLE)
  {
    hide Launch, Launched, NamesFillUp;
    StartIsBegin();
    assert WAY + [CYCLE.it] == ["begin", "fetch", "loop"] && [] + WAY == WAY;
    assert (WAY + [CYCLE.it])[..1] == ["begin"];
    assert CYCLE.body[..0] == [];
  }

  lemma StuckStarts()
    ensures FreshLaunch(STUCK, CYCLE, START)
    ensures Straight(STUCK, CYCLE, WAY, []) && InputsAvailable(STUCK, CYCLE, [] + WAY)
    ensures Lookup(STUCK, CYCLE.it).kind.Iteration? && Hides(STUCK, CYCLE)
  {
    hide Launch, Launched, NamesFillUp;
    StartIsBegin();
    StuckStartsAtBegin();
    assert WAY + [CYCLE.it] == ["begin", "fetch", "loop"] && [] + WAY == WAY;
    assert (WAY + [CYCLE.it])[..1] == ["begin"];
    assert CYCLE.body[..0] == [];
  }

  lemma StuckIsWellFormed()
    ensures WellFormed(STUCK)
  {
    hide ComponentOk;
    forall id | id in STUCK
      ensures ComponentOk(STUCK, id)
    {
      StuckComponent(id);
    }
  }

  lemma StuckComponent(id: Id)
    requires id in STUCK
    ensures ComponentOk(STUCK, id)
  {
  }

  lemma StuckHasOneWayIn()
    ensures OneWayIn(STUCK, CYCLE, WAY) && RankedButPass(STUCK, CYCLE, GraphRank)
  {
    StuckEdges();
    hide Edge;
    assert WAY + [CYCLE.it] == ["begin", "fetch", "loop"];
  }
}
