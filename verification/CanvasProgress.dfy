/**
 Iterations that are not disturbed: with no cancellation, no unhandled error outside the container and
 no fill-up, a fresh Iteration shows every element and is left, whatever else happens.
 */
module CanvasProgress {
  import opened Prelude
  import opened CanvasModel
  import opened CanvasRuns
  import opened CanvasContainer
  import opened CanvasIteration

  /** An error of `x` does not fail the run. */
  predicate Handled(g: Graph, x: Id) {
    var h := Lookup(g, x).handler;
    h.Handler? && (h.goto != [] || h.hasDefault)
  }

  /** `x` never errs, or its errors are handled. */
  ghost predicate Tolerable(g: Graph, o: Oracle, x: Id) {
    || Handled(g, x)
    || (!IsItem(Lookup(g, x).kind) && forall p: nat {:trigger o.answer(p, x)} :: !o.answer(p, x).fails)
  }

  predicate NoneUnhandled(g: Graph, k: Cycle, s: RunState) {
    forall x :: x in s.errs && x in g && x !in Inside(k) ==> Handled(g, x)
  }

  /** Nothing cancels the run, asks for input or fails it outside the container. */
  ghost predicate Undisturbed(g: Graph, o: Oracle, k: Cycle, s0: RunState) {
    && (forall i: nat :: !o.cancel(i))
    && FillUps(g) == {}
    && (forall x {:trigger Tolerable(g, o, x)} :: x in g && x !in Inside(k) ==> Tolerable(g, o, x))
    && NoneUnhandled(g, k, s0)
  }

  lemma InvokeTolerable(g: Graph, o: Oracle, k: Cycle, s: RunState, p: nat)
    requires p < |s.path| && NoneUnhandled(g, k, s) && Known(g, s.path)
    requires s.path[p] !in Inside(k) ==> Tolerable(g, o, s.path[p])
    ensures NoneUnhandled(g, k, Invoke(g, o, s, p))
  {
    hide Handled, Collation;
    var x := s.path[p];
    assert Tolerable(g, o, x) && !Handled(g, x) ==> !o.answer(p, x).fails;
    OnlyOwnError(g, o, s, p);
  }

  /** An invocation leaves an error only on its own component, and only a failing one or an item does. */
  lemma OnlyOwnError(g: Graph, o: Oracle, s: RunState, p: nat)
    requires p < |s.path|
    ensures var r := Invoke(g, o, s, p); var x := s.path[p];
            && r.errs <= s.errs + {x}
            && (!IsItem(Lookup(g, x).kind) && !o.answer(p, x).fails ==> r.errs == s.errs)
  {
    hide Collation;
  }

  lemma {:induction false} InvokeAllTolerable(g: Graph, o: Oracle, k: Cycle, s: RunState, ps: seq<nat>)
    requires Known(g, s.path) && NoneUnhandled(g, k, s)
    requires forall x {:trigger Tolerable(g, o, x)} :: x in g && x !in Inside(k) ==> Tolerable(g, o, x)
    requires forall m :: 0 <= m < |ps| ==> ps[m] < |s.path|
    ensures NoneUnhandled(g, k, InvokeAll(g, o, s, ps))
    decreases |ps|
  {
    hide NoneUnhandled, Tolerable, Invoke;
    if ps != [] {
      InvokeTolerable(g, o, k, s, ps[0]);
      InvokeAllTolerable(g, o, k, Invoke(g, o, s, ps[0]), ps[1..]);
    }
  }

  lemma BatchTolerable(g: Graph, o: Oracle, k: Cycle, s0: RunState, s: RunState)
    requires WellFormed(g) && LegalOracle(g, o) && Undisturbed(g, o, k, s0)
    requires Ready(s) && s.status.Running? && Known(g, s.path) && NoneUnhandled(g, k, s)
    ensures NoneUnhandled(g, k, Invoked(g, o, s)) && NoneUnhandled(g, k, Batch(g, o, s)) && !FailsOutside(g, o, k, s)
    ensures Known(g, Batch(g, o, s).path)
  {
    hide WellFormed, Edge, Tolerable, FillUps, Prune, Kept, RouteAll, InvokeAll;
    PrunedShape(g, s);
    BatchEdges(g, o, s);
    RoutingKeeps(g, o, s);
    var path := Pruned(g, s).path;
    assert Permutes(o.order(s.idx, |path|), s.idx, |path|);
    InvokeAllTolerable(g, o, k, Pruned(g, s), o.order(s.idx, |path|));
  }

  lemma {:induction false} UndisturbedRuns(g: Graph, o: Oracle, k: Cycle, arr: seq<Value>, s0: RunState, t: nat)
    requires Setting(g, o, k, arr, s0) && Undisturbed(g, o, k, s0) && t <= Turn(k, |arr|)
    ensures var s := After(g, o, s0, t);
            s.status.Running? && Known(g, s.path) && NoneUnhandled(g, k, s)
    decreases t
  {
    hide Step, WellFormed, RoutesDeclared, ChainContainer, Steady, Turn, NeverReentered, FailsOutside, NoneUnhandled, Known, Tolerable, Batch,
         Pruned;
    EnteringReady(g, k, s0);
    if t == 0 {
      AfterSucc(g, o, s0, 0);
    } else {
      var s := After(g, o, s0, t - 1);
      UndisturbedRuns(g, o, k, arr, s0, t - 1);
      AfterSucc(g, o, s0, t - 1);
      OnlyDisturbancesStopIt(g, o, k, arr, s0, t - 1);
      BatchTolerable(g, o, k, s0, s);
      assert !FillUpPending(g, o, s);
      RunningStep(g, o, s);
      SameErrs(g, k, Batch(g, o, s), Step(g, o, s));
    }
  }

  lemma SameErrs(g: Graph, k: Cycle, a: RunState, b: RunState)
    requires NoneUnhandled(g, k, a) && a.errs == b.errs
    ensures NoneUnhandled(g, k, b)
  {
  }

  /** Main result: from a fresh entry that nothing disturbs, every element is shown, in its turn, and the
      run then goes on to, or finishes at, the container's downstream with all results collected. */
  lemma IterationCompletes(g: Graph, o: Oracle, k: Cycle, arr: seq<Value>, s0: RunState)
    requires Setting(g, o, k, arr, s0) && Undisturbed(g, o, k, s0)
    ensures forall m: nat :: m < |arr| ==> Presented(k, After(g, o, s0, Turn(k, m) + 1), arr, m)
    ensures After(g, o, s0, Turn(k, |arr|)).status.Running? && Left(g, o, k, arr, s0)
    ensures var q := After(g, o, s0, Turn(k, |arr|) + 1);
            && (q.status.Running? || q.status.Finished?) && Counter(q, k.item) == -1
            && (forall d :: d in Lookup(g, k.it).downstream ==> d in q.path)
            && (forall x :: x in Inside(k) ==> x !in q.path[q.idx..])
            && (arr != [] ==> forall name :: Referenced(g, k, name) ==>
                  Output(q, k.it, name) == Items(Results(g, o, k, s0, name, |arr|)))
  {
    hide After, Step, WellFormed, RoutesDeclared, ChainContainer, Steady, Entering, NeverReentered, Turn, Left, Presented, NoneUnhandled,
         Tolerable;
    EnteringReady(g, k, s0);
    ChainIsDistinct(g, k);
    forall m: nat | m < |arr|
      ensures Presented(k, After(g, o, s0, Turn(k, m) + 1), arr, m)
    {
      TurnsGrow(k, m, |arr|);
      UndisturbedRuns(g, o, k, arr, s0, Turn(k, m) + 1);
      ElementsInOrder(g, o, k, arr, s0, m);
    }
    UndisturbedRuns(g, o, k, arr, s0, Turn(k, |arr|));
    IterationLeaves(g, o, k, arr, s0);
    var s := After(g, o, s0, Turn(k, |arr|));
    AfterSucc(g, o, s0, Turn(k, |arr|));
    LastStep(g, o, k, arr, s0, s);
  }

  lemma LastStep(g: Graph, o: Oracle, k: Cycle, arr: seq<Value>, s0: RunState, s: RunState)
    requires WellFormed(g) && LegalOracle(g, o) && Undisturbed(g, o, k, s0) && Ready(s0)
    requires Ready(s) && s == After(g, o, s0, Turn(k, |arr|)) && s.status.Running? && Known(g, s.path) && NoneUnhandled(g, k, s)
    requires Left(g, o, k, arr, s0)
    ensures var q := Step(g, o, s);
            && (q.status.Running? || q.status.Finished?) && Counter(q, k.item) == -1
            && (forall d :: d in Lookup(g, k.it).downstream ==> d in q.path)
            && (forall x :: x in Inside(k) ==> x !in q.path[q.idx..])
            && (arr != [] ==> forall name :: Referenced(g, k, name) ==>
                  Output(q, k.it, name) == Items(Results(g, o, k, s0, name, |arr|)))
  {
    hide After, Turn, WellFormed, Tolerable, Batch, Pruned, Invoked, Known, NoneUnhandled;
    BatchTolerable(g, o, k, s0, s);
    RoutingKeeps(g, o, s);
    ErrorCutsBackTheBatch(g, o, s);
    UnlessFailed(g, o, s);
    var b, end := Batch(g, o, s), |Pruned(g, s).path|;
    assert forall d :: d in b.path[end - 1..] ==> d in b.path;
    NoneInside(k, b.path, end);
  }

  lemma NoneInside(k: Cycle, path: seq<Id>, n: nat)
    requires n <= |path| && Tokens(k, path, n) == []
    ensures forall x :: x in Inside(k) ==> x !in path[n..]
  {
    var kept := Keep(path[n..], Inside(k));
    assert forall x :: x !in kept;
  }

  /** A batch that neither fails nor is canceled, in a graph without fill-ups. */
  lemma UnlessFailed(g: Graph, o: Oracle, s: RunState)
    requires LegalOrder(o) && Ready(s) && s.status.Running? && !o.cancel(s.idx) && FillUps(g) == {}
    ensures var q := Step(g, o, s); var b := Batch(g, o, s);
            q.status.Failed? || ((q.status.Running? || q.status.Finished?) && q.path == b.path && q.idx == |Pruned(g, s).path| &&
                                 q.counter == b.counter && q.outs == b.outs && q.errs == b.errs)
  {
    hide Batch, Pruned;
    BatchRuns(g, o, s);
    KeepNone(Batch(g, o, s).path[|Pruned(g, s).path|..], FillUps(g));
  }
}
