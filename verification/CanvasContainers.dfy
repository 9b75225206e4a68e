/** Runs through several containers: each of them makes its passes, and together they cannot keep a run alive. */
module CanvasContainers {
  import opened Prelude
  import opened CanvasModel
  import opened CanvasRuns
  import opened CanvasContainer

  /** The edge from `c` to `d` starts a pass of one of the containers. */
  predicate StartsPass(ks: seq<Cycle>, c: Id, d: Id) {
    exists i :: 0 <= i < |ks| && ks[i].body != [] && c == ks[i].item && d == ks[i].body[0]
  }

  /** Ranks fall along every edge except those that start a pass. */
  ghost predicate RankedButPasses(g: Graph, ks: seq<Cycle>, rank: Id -> nat) {
    forall c, d {:trigger Edge(g, c, d)} :: c in g && Edge(g, c, d) && !StartsPass(ks, c, d) ==> rank(d) < rank(c)
  }

  /** The container, fresh at the launch, is entered once and makes at most `n` passes. */
  ghost predicate Bounded(g: Graph, o: Oracle, s0: RunState, k: Cycle, n: nat)
    requires Ready(s0) && LegalOrder(o)
  {
    ChainContainer(g, k) && FreshLaunch(g, k, s0) && EnteredOnce(g, o, s0, k) && PassesWithin(g, o, k, n)
  }

  ghost predicate AllBounded(g: Graph, o: Oracle, s0: RunState, ks: seq<Cycle>, ns: seq<nat>)
    requires Ready(s0) && LegalOrder(o)
  {
    |ks| == |ns| && forall i :: 0 <= i < |ks| ==> Bounded(g, o, s0, ks[i], ns[i])
  }

  function Height(k: Cycle, rank: Id -> nat): nat {
    if k.body == [] then 0 else rank(k.body[0]) + 1
  }

  /** The passes all containers have left, weighted by their heights. */
  function AllLeft(ks: seq<Cycle>, ns: seq<nat>, rank: Id -> nat, s: RunState): int
    requires |ks| == |ns|
  {
    if ks == [] then 0 else
    var i := |ks| - 1;
    AllLeft(ks[..i], ns[..i], rank, s) + PassesLeft(ks[i], ns[i], s) * Height(ks[i], rank)
  }

  /** All passes there are at the launch. */
  function AllPasses(ks: seq<Cycle>, ns: seq<nat>, rank: Id -> nat): nat
    requires |ks| == |ns|
  {
    if ks == [] then 0 else
    var i := |ks| - 1;
    AllPasses(ks[..i], ns[..i], rank) + ns[i] * Height(ks[i], rank)
  }

  predicate Begins(k: Cycle, r: RunState)
    requires Ready(r)
  {
    k.body != [] && k.body[0] in Tokens(k, r.path, r.idx)
  }

  /** The heights of the passes that begin. */
  function Begun(ks: seq<Cycle>, rank: Id -> nat, r: RunState): nat
    requires Ready(r)
  {
    if ks == [] then 0 else
    var i := |ks| - 1;
    Begun(ks[..i], rank, r) + if Begins(ks[i], r) then Height(ks[i], rank) else 0
  }

  ghost predicate AllProgress(ks: seq<Cycle>, ns: seq<nat>, s: RunState, r: RunState)
    requires |ks| == |ns| && Ready(r)
  {
    forall i :: 0 <= i < |ks| ==> Progress(ks[i], ns[i], s, r) && -1 <= Counter(s, ks[i].item) <= ns[i]
  }

  lemma OneFalls(k: Cycle, n: nat, rank: Id -> nat, s: RunState, r: RunState)
    requires Ready(r) && Progress(k, n, s, r) && -1 <= Counter(s, k.item) <= n
    ensures PassesLeft(k, n, r) * Height(k, rank) + (if Begins(k, r) then Height(k, rank) else 0)
            <= PassesLeft(k, n, s) * Height(k, rank)
  {
    hide Tokens;
    var left, left', h := PassesLeft(k, n, s), PassesLeft(k, n, r), Height(k, rank);
    if Begins(k, r) {
      assert left' == left - 1;
      assert left' * h == left * h - h;
    } else {
      MulMono(left', left, h);
    }
  }

  lemma {:induction false} AllFall(ks: seq<Cycle>, ns: seq<nat>, rank: Id -> nat, s: RunState, r: RunState)
    requires |ks| == |ns| && Ready(r) && AllProgress(ks, ns, s, r)
    ensures AllLeft(ks, ns, rank, r) + Begun(ks, rank, r) <= AllLeft(ks, ns, rank, s)
  {
    hide Progress, Height, Begins, PassesLeft;
    if ks != [] {
      var i := |ks| - 1;
      AllFall(ks[..i], ns[..i], rank, s, r);
      OneFalls(ks[i], ns[i], rank, s, r);
    }
  }

  lemma {:induction false} BegunHolds(ks: seq<Cycle>, rank: Id -> nat, r: RunState, i: nat)
    requires Ready(r) && i < |ks| && Begins(ks[i], r)
    ensures rank(ks[i].body[0]) < Begun(ks, rank, r)
  {
    hide Tokens;
    if i < |ks| - 1 {
      BegunHolds(ks[..|ks| - 1], rank, r, i);
    }
  }

  lemma {:induction false} LeftIsNonneg(ks: seq<Cycle>, ns: seq<nat>, rank: Id -> nat, s: RunState)
    requires |ks| == |ns| && forall i :: 0 <= i < |ks| ==> -1 <= Counter(s, ks[i].item) <= ns[i]
    ensures AllLeft(ks, ns, rank, s) >= 0
  {
    hide Height;
    if ks != [] {
      var i := |ks| - 1;
      LeftIsNonneg(ks[..i], ns[..i], rank, s);
      MulMono(0, PassesLeft(ks[i], ns[i], s), Height(ks[i], rank));
    }
  }

  lemma {:induction false} LeftAtLaunch(ks: seq<Cycle>, ns: seq<nat>, rank: Id -> nat, s: RunState)
    requires |ks| == |ns| && forall i :: 0 <= i < |ks| ==> Counter(s, ks[i].item) == 0
    ensures AllLeft(ks, ns, rank, s) == AllPasses(ks, ns, rank)
  {
    hide Height;
    if ks != [] {
      LeftAtLaunch(ks[..|ks| - 1], ns[..|ks| - 1], rank, s);
    }
  }

  lemma SuccessorIsLower(g: Graph, ks: seq<Cycle>, rank: Id -> nat, c: Id, r: RunState, p: nat, m: nat)
    requires RankedButPasses(g, ks, rank) && c in g && rank(c) < m && Ready(r) && r.idx <= p < |r.path| && Edge(g, c, r.path[p])
    ensures rank(r.path[p]) < m - 1 + Begun(ks, rank, r)
  {
    hide Edge, Begun, Keep;
    if StartsPass(ks, c, r.path[p]) {
      var i :| 0 <= i < |ks| && ks[i].body != [] && c == ks[i].item && r.path[p] == ks[i].body[0];
      assert r.path[r.idx..][p - r.idx] == ks[i].body[0];
      BegunHolds(ks, rank, r, i);
    }
  }

  /** What one batch leaves to be scheduled is lower, except for the first entries of new passes. */
  lemma StepLowersButPasses(g: Graph, o: Oracle, ks: seq<Cycle>, s: RunState, rank: Id -> nat, m: nat)
    requires WellFormed(g) && LegalOracle(g, o) && Known(g, s.path) && Ready(s) && s.status.Running?
    requires RankedButPasses(g, ks, rank) && PendingBelow(s, rank, m) && Step(g, o, s).status.Running?
    requires forall i :: 0 <= i < |ks| ==> ks[i].body != []
    ensures m > 0 && PendingBelow(Step(g, o, s), rank, m - 1 + Begun(ks, rank, Step(g, o, s)))
  {
    hide Step, Batch, Pruned, WellFormed, RoutesDeclared, Edge, Kept, Keep, Begun, StartsPass, RankedButPasses;
    var r := Step(g, o, s);
    assert rank(s.path[s.idx]) < m;
    RunningStep(g, o, s);
    PrunedShape(g, s);
    BatchEdges(g, o, s);
    var path := Pruned(g, s).path;
    forall p | r.idx <= p < |r.path|
      ensures rank(r.path[p]) < m - 1 + Begun(ks, rank, r)
    {
      assert FromBatch(g, path, s.idx, |path|, r.path[p]);
      var q :| s.idx <= q < |path| && Edge(g, path[q], r.path[p]);
      assert path[q] in s.path[s.idx..] && path[q] in g;
      SuccessorIsLower(g, ks, rank, path[q], r, p, m);
    }
  }

  lemma AllTokens(g: Graph, o: Oracle, ks: seq<Cycle>, ns: seq<nat>, s0: RunState, t: nat)
    requires WellFormed(g) && LegalOracle(g, o) && Launched(g, s0) && AllBounded(g, o, s0, ks, ns)
    requires After(g, o, s0, t).status.Running? && Step(g, o, After(g, o, s0, t)).status.Running?
    ensures AllProgress(ks, ns, After(g, o, s0, t), Step(g, o, After(g, o, s0, t)))
  {
    hide Step, Edge, WellFormed, ChainContainer, PassesWithin, Progress, Traced, RoutesDeclared, Tokens, Executed;
    var s := After(g, o, s0, t);
    RunsAreTraced(g, o, s0, t);
    KnownWhenTraced(g, s0, s);
    AfterSucc(g, o, s0, t);
    forall i | 0 <= i < |ks|
      ensures Progress(ks[i], ns[i], s, Step(g, o, s)) && -1 <= Counter(s, ks[i].item) <= ns[i]
    {
      assert Bounded(g, o, s0, ks[i], ns[i]);
      TokenAlways(g, o, ks[i], ns[i], s0, t);
      assert After(g, o, s0, t + 1) == Step(g, o, s);
      StepKeepsToken(g, o, ks[i], ns[i], s0.idx, s);
    }
  }

  lemma {:induction false} AllRunOut(g: Graph, o: Oracle, ks: seq<Cycle>, ns: seq<nat>, s0: RunState, rank: Id -> nat, t: nat)
    returns (m: nat)
    requires WellFormed(g) && LegalOracle(g, o) && Launched(g, s0) && AllBounded(g, o, s0, ks, ns) && RankedButPasses(g, ks, rank)
    ensures var s := After(g, o, s0, t);
            s.status.Running? ==>
              PendingBelow(s, rank, m) &&
              AllLeft(ks, ns, rank, s) + m + t <= AllLeft(ks, ns, rank, s0) + rank(s0.path[s0.idx]) + 1
  {
    hide Step, WellFormed, RankedButPasses, Edge, AllBounded, AllProgress, Traced, RoutesDeclared, AllLeft, Begun;
    m := rank(s0.path[s0.idx]) + 1;
    if t > 0 {
      var s := After(g, o, s0, t - 1);
      var m0 := AllRunOut(g, o, ks, ns, s0, rank, t - 1);
      AfterSucc(g, o, s0, t - 1);
      if !s.status.Running? {
        StoppedStays(g, o, s);
      } else if Step(g, o, s).status.Running? {
        RunsAreTraced(g, o, s0, t - 1);
        KnownWhenTraced(g, s0, s);
        BodiesExist(g, o, s0, ks, ns);
        AllTokens(g, o, ks, ns, s0, t - 1);
        AllFall(ks, ns, rank, s, Step(g, o, s));
        StepLowersButPasses(g, o, ks, s, rank, m0);
        m := m0 - 1 + Begun(ks, rank, Step(g, o, s));
      }
    }
  }

  lemma BodiesExist(g: Graph, o: Oracle, s0: RunState, ks: seq<Cycle>, ns: seq<nat>)
    requires Ready(s0) && LegalOrder(o) && AllBounded(g, o, s0, ks, ns)
    ensures |ks| == |ns| && forall i :: 0 <= i < |ks| ==> ks[i].body != [] && Counter(s0, ks[i].item) == 0
  {
    hide Edge, ChainContainer, PassesWithin, EnteredOnce;
    forall i | 0 <= i < |ks|
      ensures ks[i].body != [] && Counter(s0, ks[i].item) == 0
    {
      assert Bounded(g, o, s0, ks[i], ns[i]);
      ChainIsDistinct(g, ks[i]);
    }
  }

  /** Main result: a run whose only cycles are any number of fresh containers, each entered once and making at
      most its passes, stops within the sum of all passes by their heights. */
  lemma AllContainersStop(g: Graph, o: Oracle, ks: seq<Cycle>, ns: seq<nat>, s0: RunState, rank: Id -> nat)
    requires WellFormed(g) && LegalOracle(g, o) && Launched(g, s0) && AllBounded(g, o, s0, ks, ns) && RankedButPasses(g, ks, rank)
    ensures !After(g, o, s0, AllPasses(ks, ns, rank) + rank(s0.path[s0.idx]) + 1).status.Running?
  {
    hide Step, WellFormed, RankedButPasses, Edge, Traced, RoutesDeclared, AllLeft, AllPasses, After, ChainContainer, PassesWithin;
    var t := AllPasses(ks, ns, rank) + rank(s0.path[s0.idx]) + 1;
    var m := AllRunOut(g, o, ks, ns, s0, rank, t);
    BodiesExist(g, o, s0, ks, ns);
    LeftAtLaunch(ks, ns, rank, s0);
    var s := After(g, o, s0, t);
    if s.status.Running? {
      AllCounters(g, o, ks, ns, s0, t);
      LeftIsNonneg(ks, ns, rank, s);
      PendingIsPositive(s, rank, m);
    }
  }

  lemma AllCounters(g: Graph, o: Oracle, ks: seq<Cycle>, ns: seq<nat>, s0: RunState, t: nat)
    requires WellFormed(g) && LegalOracle(g, o) && Launched(g, s0) && AllBounded(g, o, s0, ks, ns)
    requires After(g, o, s0, t).status.Running?
    ensures forall i :: 0 <= i < |ks| ==> -1 <= Counter(After(g, o, s0, t), ks[i].item) <= ns[i]
  {
    hide Step, Edge, WellFormed, ChainContainer, PassesWithin, RoutesDeclared, Tokens, Executed, EnteredOnce, FreshLaunch, After;
    forall i | 0 <= i < |ks|
      ensures -1 <= Counter(After(g, o, s0, t), ks[i].item) <= ns[i]
    {
      assert Bounded(g, o, s0, ks[i], ns[i]);
      TokenAlways(g, o, ks[i], ns[i], s0, t);
    }
  }
}
