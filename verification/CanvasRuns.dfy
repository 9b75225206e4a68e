/**
 What every run of the scheduler keeps: executed entries never change, every entry comes
 from an executed one along an edge of the graph, inputs are there before they are read,
 errors cut back exactly one batch, suspensions lose nothing, and acyclic graphs stop.
 */
module CanvasRuns {
  import opened Prelude
  import opened CanvasModel

  /** `d` may be scheduled because `c` was executed. */
  predicate Edge(g: Graph, c: Id, d: Id) {
    var k := Lookup(g, c);
    || d in Goto(k)
    || (IsItem(k.kind) && d in Parent(g, k).downstream)
    || (if k.kind.Router? then d in k.routes
        else if IsContainer(k.kind) then d == StartOf(k.kind)
        else if k.kind.ExitLoop? && Parent(g, k).kind.Loop? then d in Parent(g, k).downstream
        else if k.downstream == [] && k.parent.Some? then d == StartOf(Parent(g, k).kind)
        else d in k.downstream)
  }

  predicate Known(g: Graph, path: seq<Id>) {
    forall p :: 0 <= p < |path| ==> path[p] in g
  }

  ghost predicate HasSource(g: Graph, path: seq<Id>, lo: nat, hi: nat, p: nat)
    requires p < |path|
  {
    exists q :: lo <= q < hi && q < p && Edge(g, path[q], path[p])
  }

  /** Every entry after `lo` was scheduled by an entry executed before it. */
  ghost predicate Sourced(g: Graph, path: seq<Id>, lo: nat, hi: nat) {
    forall p :: lo < p < |path| ==> HasSource(g, path, lo, hi, p)
  }

  predicate InputsBefore(g: Graph, path: seq<Id>, p: nat)
    requires p < |path|
  {
    var c := Lookup(g, path[p]);
    c.kind.Begin? || c.kind.UserFillUp? || forall r :: r in c.refs ==> r in path[..p]
  }

  /** The executed entries [lo, hi) found every component they refer to at an earlier position. */
  predicate InputsReady(g: Graph, path: seq<Id>, lo: nat, hi: nat)
    requires hi <= |path|
  {
    forall p :: lo <= p < hi ==> InputsBefore(g, path, p)
  }

  // ---------------------------------------------------------------- routing follows edges

  lemma TargetsAreEdges(g: Graph, o: Oracle, s: RunState, i: nat, d: Id)
    requires WellFormed(g) && LegalOracle(g, o) && i < |s.path| && s.path[i] in g
    requires d in Targets(g, s, s.path[i], o.answer(i, s.path[i]))
    ensures Edge(g, s.path[i], d)
  {
    assert RoutesDeclared(g, o, i, s.path[i]);
  }

  lemma EdgesStayKnown(g: Graph, c: Id, d: Id)
    requires WellFormed(g) && c in g && Edge(g, c, d)
    ensures d in g
  {
    assert ComponentOk(g, c);
    if g[c].parent.Some? {
      assert ComponentOk(g, g[c].parent.value);
    }
  }

  /** `d` has a source among the entries [i, end) of `path`. */
  ghost predicate FromBatch(g: Graph, path: seq<Id>, i: nat, end: nat, d: Id)
    requires end <= |path|
  {
    exists q :: i <= q < end && Edge(g, path[q], d)
  }

  lemma RouteEdges(g: Graph, o: Oracle, s: RunState, i: nat)
    requires WellFormed(g) && LegalOracle(g, o) && Known(g, s.path) && i < |s.path|
    ensures Known(g, Route(g, o, s, i).path)
    ensures forall p :: |s.path| <= p < |Route(g, o, s, i).path| ==> Edge(g, s.path[i], Route(g, o, s, i).path[p])
  {
    var id := s.path[i];
    var r := Route(g, o, s, i).path;
    var a := o.answer(i, id);
    ExtendGrows(s.path, Targets(g, s, id, a));
    forall p | |s.path| <= p < |r|
      ensures Edge(g, id, r[p]) && r[p] in g
    {
      if r[p] in Targets(g, s, id, a) {
        TargetsAreEdges(g, o, s, i, r[p]);
      }
      EdgesStayKnown(g, id, r[p]);
    }
  }

  lemma {:induction false} RouteAllEdges(g: Graph, o: Oracle, s: RunState, i: nat, end: nat)
    requires WellFormed(g) && LegalOracle(g, o) && Known(g, s.path) && i <= end <= |s.path|
    ensures Known(g, RouteAll(g, o, s, i, end).path)
    ensures forall p :: |s.path| <= p < |RouteAll(g, o, s, i, end).path| ==>
              FromBatch(g, s.path, i, end, RouteAll(g, o, s, i, end).path[p])
    decreases end - i
  {
    if i < end {
      var s1 := Route(g, o, s, i);
      RouteEdges(g, o, s, i);
      RouteAllEdges(g, o, s1, i + 1, end);
      var r := RouteAll(g, o, s, i, end).path;
      forall p | |s.path| <= p < |r|
        ensures FromBatch(g, s.path, i, end, r[p])
      {
        if p < |s1.path| {
          assert r[p] == s1.path[p];
        } else {
          assert FromBatch(g, s1.path, i + 1, end, r[p]);
        }
      }
    }
  }

  lemma PrunedShape(g: Graph, s: RunState)
    requires s.idx <= |s.path|
    ensures var path := Pruned(g, s).path;
            && s.path[..s.idx] <= path && |path| <= |s.path|
            && (forall p :: s.idx <= p < |path| ==> path[p] in s.path[s.idx..] && Kept(g, path[..p], path[p]))
            && (Known(g, s.path) ==> Known(g, path))
  {
    PruneShape(g, s.path[..s.idx], s.path[s.idx..]);
    var path := Pruned(g, s).path;
    forall p | 0 <= p < |path| && Known(g, s.path)
      ensures path[p] in g
    {
      if p < s.idx {
        assert path[p] == s.path[..s.idx][p];
      }
    }
  }

  /** The entries a batch adds all come from an entry of that batch. */
  lemma BatchEdges(g: Graph, o: Oracle, s: RunState)
    requires WellFormed(g) && LegalOracle(g, o) && Known(g, s.path) && s.idx <= |s.path|
    ensures var b := Batch(g, o, s).path; var end := |Pruned(g, s).path|;
            && Known(g, b)
            && forall p :: end <= p < |b| ==> FromBatch(g, Pruned(g, s).path, s.idx, end, b[p])
  {
    PrunedShape(g, s);
    var s1 := Pruned(g, s);
    RouteAllEdges(g, o, Invoked(g, o, s), s.idx, |s1.path|);
  }

  // ---------------------------------------------------------------- invariants over whole runs

  predicate Launched(g: Graph, s: RunState) {
    && Ready(s) && s.status.Running? && s.idx == |s.path| - 1 && Known(g, s.path)
    && (s.idx == 0 ==> s.path[0] == "begin" || NamesFillUp(s.path[0]))
  }

  /** `run` really starts in such a state, whatever known path an earlier run left. */
  lemma LaunchIsLaunched(g: Graph, s: RunState)
    requires WellFormed(g) && Known(g, s.path)
    ensures Launched(g, Launch(s))
  {
    if |Launch(s).path| == 1 && s.path != [] {
      assert s.path == Launch(s).path;
    }
  }

  /** A launch goes back to "begin" unless the path ends at a form; it keeps the indexes, takes every error back and
      empties every output that was there. */
  lemma LaunchClears(s: RunState, id: Id, name: string)
    ensures var r := Launch(s);
            && (if s.path != [] && NamesFillUp(s.path[|s.path| - 1]) then r.path == s.path else r.path == s.path + ["begin"])
            && r.idx + 1 == |r.path| && r.status == Running && r.counter == s.counter && r.errs == {}
            && Output(r, id, name) == (if name in Outputs(s, id) then Null else Text(""))
  {
    hide NamesFillUp;
  }

  /** What holds of a run from its launch `s0` until it is suspended. */
  ghost predicate Traced(g: Graph, s0: RunState, s: RunState)
    requires Ready(s0) && |s0.path| > 0
  {
    && s0.idx <= s.idx <= |s.path|
    && (s.idx == s0.idx ==> |s.path| <= s0.idx + 1)
    && Known(g, s.path)
    && s0.path[..s0.idx] <= s.path
    && (s.path != [] ==> s.path[0] == s0.path[0])
    && Sourced(g, s.path, s0.idx, s.idx)
    && (!NamesFillUp(s0.path[0]) ==> InputsReady(g, s.path, s0.idx, s.idx))
  }

  lemma PrunedStart(g: Graph, s0: RunState, s: RunState)
    requires WellFormed(g) && Launched(g, s0) && Traced(g, s0, s) && Ready(s) && s.status.Running?
    ensures Pruned(g, s).path != [] && Pruned(g, s).path[0] == s0.path[0]
  {
    PrunedShape(g, s);
    var path := Pruned(g, s).path;
    if s.idx == 0 {
      var x := s.path[0];
      assert s.path[..0] == [] && s.path[0..] == [x];
      assert Kept(g, [], x);
      assert Prune(g, [], [x]) == Prune(g, [] + [x], [x][1..]) == [x];
    } else {
      assert path[0] == s.path[..s.idx][0];
    }
  }

  /** The entries that survive the pruning keep their sources and have their inputs. */
  lemma PrunedTraced(g: Graph, s0: RunState, s: RunState)
    requires WellFormed(g) && Launched(g, s0) && Traced(g, s0, s) && Ready(s) && s.status.Running?
    ensures Sourced(g, Pruned(g, s).path, s0.idx, s.idx)
    ensures !NamesFillUp(s0.path[0]) ==> InputsReady(g, Pruned(g, s).path, s0.idx, |Pruned(g, s).path|)
  {
    PrunedShape(g, s);
    PrunedStart(g, s0, s);
    var path := Pruned(g, s).path;
    forall p | s0.idx < p < |path|
      ensures HasSource(g, path, s0.idx, s.idx, p)
    {
      var r := p;
      if s.idx <= p {
        r :| s.idx <= r < |s.path| && s.path[r] == path[p];
      }
      assert HasSource(g, s.path, s0.idx, s.idx, r);
      var q :| s0.idx <= q < s.idx && q < r && Edge(g, s.path[q], s.path[r]);
      assert path[q] == s.path[q] && s.path[r] == path[p];
    }
    forall p | s0.idx <= p < |path| && !NamesFillUp(s0.path[0])
      ensures InputsBefore(g, path, p)
    {
      if p < s.idx {
        assert InputsBefore(g, s.path, p) && path[..p] == s.path[..p];
      } else {
        assert Kept(g, path[..p], path[p]);
        if path[..p] != [] {
          assert path[..p][0] == path[0];
        } else {
          assert path[p] == s0.path[0] == "begin";
        }
      }
    }
  }

  lemma BatchTraced(g: Graph, o: Oracle, s0: RunState, s: RunState)
    requires WellFormed(g) && LegalOracle(g, o) && Launched(g, s0)
    requires Traced(g, s0, s) && Ready(s) && s.status.Running?
    ensures var b := Batch(g, o, s); var t := |Pruned(g, s).path|;
            && Known(g, b.path) && b.path != [] && b.path[0] == s0.path[0]
            && Sourced(g, b.path, s0.idx, t)
            && (!NamesFillUp(s0.path[0]) ==> InputsReady(g, b.path, s0.idx, t))
  {
    PrunedStart(g, s0, s);
    PrunedTraced(g, s0, s);
    BatchEdges(g, o, s);
    var path := Pruned(g, s).path;
    var b := Batch(g, o, s).path;
    forall p | s0.idx < p < |b|
      ensures HasSource(g, b, s0.idx, |path|, p)
    {
      if p < |path| {
        assert HasSource(g, path, s0.idx, s.idx, p);
        var q :| s0.idx <= q < s.idx && q < p && Edge(g, path[q], path[p]);
        assert b[q] == path[q] && b[p] == path[p];
      } else {
        assert FromBatch(g, path, s.idx, |path|, b[p]);
        var q :| s.idx <= q < |path| && Edge(g, path[q], b[p]);
        assert b[q] == path[q];
      }
    }
    forall p | s0.idx <= p < |path| && !NamesFillUp(s0.path[0])
      ensures InputsBefore(g, b, p)
    {
      assert InputsBefore(g, path, p) && b[..p] == path[..p];
    }
  }

  /** Cutting the path back to the executed entries keeps everything known about them. */
  lemma CutTraced(g: Graph, s0: RunState, s: RunState, r: RunState)
    requires Ready(s0) && |s0.path| > 0 && Traced(g, s0, s) && r.path == s.path[..s.idx] && r.idx == s.idx
    ensures Traced(g, s0, r)
  {
    forall p | s0.idx < p < s.idx
      ensures HasSource(g, r.path, s0.idx, s.idx, p)
    {
      assert HasSource(g, s.path, s0.idx, s.idx, p);
      var q :| s0.idx <= q < s.idx && q < p && Edge(g, s.path[q], s.path[p]);
      assert r.path[q] == s.path[q] && r.path[p] == s.path[p];
    }
    forall p | s0.idx <= p < s.idx && !NamesFillUp(s0.path[0])
      ensures InputsBefore(g, r.path, p)
    {
      assert InputsBefore(g, s.path, p) && r.path[..p] == s.path[..p];
    }
  }

  lemma AdvanceTraced(g: Graph, o: Oracle, s0: RunState, s: RunState, r: RunState)
    requires WellFormed(g) && LegalOracle(g, o) && Launched(g, s0)
    requires Traced(g, s0, s) && Ready(s) && s.status.Running?
    requires r.path == Batch(g, o, s).path && r.idx == |Pruned(g, s).path|
    ensures Traced(g, s0, r) && s.path[..s.idx] <= r.path && s.idx <= r.idx
  {
    BatchTraced(g, o, s0, s);
    BatchEdges(g, o, s);
    assert |r.path| > r.idx ==> FromBatch(g, Pruned(g, s).path, s.idx, r.idx, r.path[r.idx]);
    assert s0.path[..s0.idx] <= s.path[..s.idx];
  }

  lemma StepTraced(g: Graph, o: Oracle, s0: RunState, s: RunState)
    requires WellFormed(g) && LegalOracle(g, o) && Launched(g, s0)
    requires Traced(g, s0, s) && Ready(s) && s.status.Running? && !Step(g, o, s).status.Suspended?
    ensures Traced(g, s0, Step(g, o, s))
    ensures s.path[..s.idx] <= Step(g, o, s).path && s.idx <= Step(g, o, s).idx
  {
    var r := Step(g, o, s);
    if o.cancel(s.idx) {
      assert r.path == s.path && r.idx == s.idx;
    } else if Batch(g, o, s).status.Failed? {
      CutTraced(g, s0, s, r);
    } else {
      AdvanceTraced(g, o, s0, s, r);
    }
  }

  lemma LaunchTraced(g: Graph, s0: RunState)
    requires Launched(g, s0)
    ensures Traced(g, s0, s0)
  {
  }

  lemma StoppedStays(g: Graph, o: Oracle, s: RunState)
    requires Ready(s) && LegalOrder(o) && !s.status.Running?
    ensures Step(g, o, s) == s
  {
  }

  lemma AfterSucc(g: Graph, o: Oracle, s: RunState, n: nat)
    requires Ready(s) && LegalOrder(o)
    ensures After(g, o, s, n + 1) == Step(g, o, After(g, o, s, n))
    ensures After(g, o, s, 0) == s
  {
    hide Step;
  }

  lemma {:induction false} AfterSplit(g: Graph, o: Oracle, s: RunState, a: nat, b: nat)
    requires Ready(s) && LegalOrder(o)
    ensures After(g, o, s, a + b) == After(g, o, After(g, o, s, a), b)
  {
    hide Step;
    if b > 0 {
      AfterSplit(g, o, s, a, b - 1);
    }
  }

  lemma {:induction false} RunningBefore(g: Graph, o: Oracle, s: RunState, a: nat, b: nat)
    requires Ready(s) && LegalOrder(o) && a <= b
    ensures After(g, o, s, b).status.Running? ==> After(g, o, s, a).status.Running?
    decreases b
  {
    hide Step;
    if a < b {
      RunningBefore(g, o, s, a, b - 1);
      if !After(g, o, s, b - 1).status.Running? {
        StoppedStays(g, o, After(g, o, s, b - 1));
      }
    }
  }

  /** Main safety result: until it is suspended, every reachable state is traced. */
  lemma {:induction false} RunsAreTraced(g: Graph, o: Oracle, s0: RunState, n: nat)
    requires WellFormed(g) && LegalOracle(g, o) && Launched(g, s0)
    ensures !After(g, o, s0, n).status.Suspended? ==> Traced(g, s0, After(g, o, s0, n))
  {
    hide Step, Traced;
    if n == 0 {
      LaunchTraced(g, s0);
    } else {
      RunsAreTraced(g, o, s0, n - 1);
      var s := After(g, o, s0, n - 1);
      if !s.status.Running? {
        StoppedStays(g, o, s);
      } else if !Step(g, o, s).status.Suspended? {
        StepTraced(g, o, s0, s);
      }
    }
  }

  /** Main safety result for batches: whatever becomes of the batch a running state starts (it may fail, be
      cut back or suspend), every entry of it has its inputs and its source before it on the path. */
  lemma EveryBatchIsTraced(g: Graph, o: Oracle, s0: RunState, n: nat)
    requires WellFormed(g) && LegalOracle(g, o) && Launched(g, s0)
    ensures var s := After(g, o, s0, n);
            s.status.Running? ==>
              && Sourced(g, Pruned(g, s).path, s0.idx, s.idx)
              && (!NamesFillUp(s0.path[0]) ==> InputsReady(g, Pruned(g, s).path, s0.idx, |Pruned(g, s).path|))
  {
    hide After, WellFormed, Edge, Sourced, InputsReady, NamesFillUp;
    RunsAreTraced(g, o, s0, n);
    if After(g, o, s0, n).status.Running? {
      PrunedTraced(g, s0, After(g, o, s0, n));
    }
  }

  /** The executed part of the path, once written, is a prefix of every later path. */
  lemma {:induction false} ExecutedEntriesNeverChange(g: Graph, o: Oracle, s0: RunState, m: nat, n: nat)
    requires WellFormed(g) && LegalOracle(g, o) && Launched(g, s0) && m <= n
    requires !After(g, o, s0, n).status.Suspended?
    ensures After(g, o, s0, m).idx <= After(g, o, s0, n).idx
    ensures After(g, o, s0, m).path[..After(g, o, s0, m).idx] <= After(g, o, s0, n).path
    decreases n - m
  {
    hide Step, Traced;
    if m < n {
      var s := After(g, o, s0, n - 1);
      RunsAreTraced(g, o, s0, n - 1);
      if s.status.Running? {
        StepTraced(g, o, s0, s);
      } else {
        StoppedStays(g, o, s);
      }
      ExecutedEntriesNeverChange(g, o, s0, m, n - 1);
    }
  }

  // ---------------------------------------------------------------- errors

  /** The entry's component holds an error and has neither a goto nor a default value for it. */
  predicate Unhandled(g: Graph, s: RunState, id: Id) {
    var c := Lookup(g, id);
    id in s.errs && Goto(c) == [] && !(c.handler.Handler? && c.handler.hasDefault)
  }

  lemma RouteFails(g: Graph, o: Oracle, s: RunState, i: nat)
    requires i < |s.path| && s.status.Running?
    ensures var r := Route(g, o, s, i);
            && s.path <= r.path && (r.status.Running? || r.status.Failed?)
            && (r.status.Failed? <==> Unhandled(g, s, s.path[i]))
            && forall id :: Unhandled(g, r, id) <==> Unhandled(g, s, id)
  {
  }

  lemma {:induction false} RouteAllFails(g: Graph, o: Oracle, s: RunState, i: nat, end: nat)
    requires i <= end <= |s.path| && s.status.Running?
    ensures RouteAll(g, o, s, i, end).status.Failed? <==> exists k :: i <= k < end && Unhandled(g, s, s.path[k])
    decreases end - i
  {
    hide Route, Unhandled;
    if i < end {
      RouteFails(g, o, s, i);
      var s1 := Route(g, o, s, i);
      if s1.status.Failed? {
        RouteAllKeepsFailure(g, o, s1, i + 1, end);
      } else {
        RouteAllFails(g, o, s1, i + 1, end);
        assert forall k :: i + 1 <= k < end ==> s1.path[k] == s.path[k];
      }
    }
  }

  lemma RouteAllKeepsFailure(g: Graph, o: Oracle, s: RunState, i: nat, end: nat)
    requires i <= end <= |s.path| && s.status.Failed?
    ensures RouteAll(g, o, s, i, end).status.Failed?
  {
  }

  /** A batch fails exactly when an entry that ran holds an unhandled error; then nothing the
      batch dropped, ran or appended stays on the path. */
  lemma ErrorCutsBackTheBatch(g: Graph, o: Oracle, s: RunState)
    requires LegalOrder(o) && Ready(s) && s.status.Running? && !o.cancel(s.idx)
    ensures Step(g, o, s).status.Failed? <==>
              exists k :: s.idx <= k < |Pruned(g, s).path| && Unhandled(g, Invoked(g, o, s), Pruned(g, s).path[k])
    ensures Step(g, o, s).status.Failed? ==>
              Step(g, o, s).path == s.path[..s.idx] && Step(g, o, s).idx == s.idx
  {
    hide Unhandled, Prune, InvokeAll, RouteAll, FillUps, Keep;
    PrunedShape(g, s);
    var path := Pruned(g, s).path;
    RouteAllFails(g, o, Invoked(g, o, s), s.idx, |path|);
  }

  /** A cancellation in front of a batch ends the run as it is, with the batch still pending; nothing else cancels it. */
  lemma CancellationChangesNothing(g: Graph, o: Oracle, s: RunState)
    requires LegalOrder(o) && Ready(s) && s.status.Running?
    ensures var r := Step(g, o, s);
            && (r.status.Canceled? <==> o.cancel(s.idx))
            && (r.status.Canceled? ==> r.path == s.path && r.idx == s.idx && r.counter == s.counter && r.errs == s.errs && r.outs == s.outs)
  {
    hide Prune, InvokeAll, FillUps, Keep, RouteAll;
    var t := Batch(g, o, s).status;
    assert t.Failed? || t == Running;
  }

  // ---------------------------------------------------------------- suspension

  /** The positions, counted from `off`, of the elements of `s` that lie in `keep`. */
  function Positions<T(==)>(s: seq<T>, keep: set<T>, off: nat): seq<nat> {
    if s == [] then [] else (if s[0] in keep then [off] else []) + Positions(s[1..], keep, off + 1)
  }

  lemma {:induction false} PositionsIncrease<T(!new)>(s: seq<T>, keep: set<T>, off: nat)
    ensures var ix := Positions(s, keep, off);
            && |ix| == |Keep(s, keep)|
            && (forall k :: 0 <= k < |ix| ==> off <= ix[k] < off + |s| && s[ix[k] - off] == Keep(s, keep)[k])
            && (forall j, k :: 0 <= j < k < |ix| ==> ix[j] < ix[k])
  {
    if s != [] {
      PositionsIncrease(s[1..], keep, off + 1);
    }
  }

  lemma {:induction false} PositionsComplete<T(!new)>(s: seq<T>, keep: set<T>, off: nat, p: nat)
    requires off <= p < off + |s|
    ensures p in Positions(s, keep, off) <==> s[p - off] in keep
  {
    PositionsIncrease(s[1..], keep, off + 1);
    if p > off {
      PositionsComplete(s[1..], keep, off + 1, p);
    }
  }

  lemma PositionsArePicked<T(!new)>(s: seq<T>, keep: set<T>)
    ensures PickedBy(s, Positions(s, keep, 0), Keep(s, keep))
  {
    hide Positions, Keep;
    PositionsIncrease(s, keep, 0);
  }

  lemma KeepIsPicked<T(!new)>(s: seq<T>, keep: set<T>)
    ensures PickedBy(s, Positions(s, keep, 0), Keep(s, keep))
    ensures forall p: nat :: p < |s| ==> (p in Positions(s, keep, 0) <==> s[p] in keep)
  {
    hide Positions, Keep, PickedBy;
    PositionsArePicked(s, keep);
    var ix := Positions(s, keep, 0);
    forall p: nat | p < |s|
      ensures p in ix <==> s[p] in keep
    {
      PositionsComplete(s, keep, 0, p);
      assert s[p - 0] == s[p];
    }
  }

  lemma {:induction false} WithoutIsKeep<T(!new)>(s: seq<T>, drop: set<T>, rest: set<T>)
    requires forall x :: x in s ==> (x in rest <==> x !in drop)
    ensures Without(s, drop) == Keep(s, rest)
    ensures multiset(Keep(s, drop)) + multiset(Without(s, drop)) == multiset(s)
  {
    if s != [] {
      WithoutIsKeep(s[1..], drop, rest);
      assert s == [s[0]] + s[1..];
    }
  }

  /** Moving the fill-ups to the front loses nothing and keeps both parts in order. */
  lemma ResuspendIsStable(g: Graph, pending: seq<Id>)
    returns (fillUps: seq<nat>, others: seq<nat>)
    ensures var path := Resuspend(g, pending);
            && multiset(path) == multiset(pending)
            && |fillUps| + |others| == |path|
            && PickedBy(pending, fillUps, path[..|fillUps|])
            && PickedBy(pending, others, path[|fillUps|..])
    ensures forall p :: 0 <= p < |pending| ==> (p in fillUps <==> Lookup(g, pending[p]).kind.UserFillUp?)
    ensures forall p :: 0 <= p < |pending| ==> (p in others <==> !Lookup(g, pending[p]).kind.UserFillUp?)
  {
    var rest := set x | x in pending && x !in FillUps(g);
    fillUps, others := Positions(pending, FillUps(g), 0), Positions(pending, rest, 0);
    KeepIsPicked(pending, FillUps(g));
    KeepIsPicked(pending, rest);
    WithoutIsKeep(pending, FillUps(g), rest);
    var path := Resuspend(g, pending);
    assert path == Keep(pending, FillUps(g)) + Keep(pending, rest);
    assert path[..|fillUps|] == Keep(pending, FillUps(g));
    assert path[|fillUps|..] == Keep(pending, rest);
  }

  /** A suspended path holds exactly the pending entries: the fill-ups first, then the others,
      each part in the order it was scheduled in. */
  lemma SuspensionKeepsThePending(g: Graph, o: Oracle, s: RunState)
    returns (pending: seq<Id>, fillUps: seq<nat>, others: seq<nat>)
    requires LegalOrder(o) && Ready(s) && s.status.Running? && Step(g, o, s).status.Suspended?
    ensures pending == Batch(g, o, s).path[|Pruned(g, s).path|..]
    ensures var path := Step(g, o, s).path;
            && multiset(path) == multiset(pending)
            && |fillUps| + |others| == |path| && |fillUps| > 0
            && PickedBy(pending, fillUps, path[..|fillUps|])
            && PickedBy(pending, others, path[|fillUps|..])
    ensures forall p :: 0 <= p < |pending| ==> (p in fillUps <==> Lookup(g, pending[p]).kind.UserFillUp?)
    ensures forall p :: 0 <= p < |pending| ==> (p in others <==> !Lookup(g, pending[p]).kind.UserFillUp?)
  {
    pending := Batch(g, o, s).path[|Pruned(g, s).path|..];
    assert Step(g, o, s).path == Resuspend(g, pending) && Keep(pending, FillUps(g)) != [];
    hide Step, Batch, Resuspend;
    fillUps, others := ResuspendIsStable(g, pending);
    var x := Keep(pending, FillUps(g))[0];
    assert x in pending && x in FillUps(g);
    var p :| 0 <= p < |pending| && pending[p] == x;
    assert p in fillUps;
  }

  /** A run that goes on or finishes has no fill-up pending; one that is suspended has. */
  lemma SuspendsExactlyOnFillUps(g: Graph, o: Oracle, s: RunState)
    requires LegalOrder(o) && Ready(s) && s.status.Running? && !o.cancel(s.idx) && !Batch(g, o, s).status.Failed?
    ensures Step(g, o, s).status.Suspended? <==>
              exists p :: |Pruned(g, s).path| <= p < |Batch(g, o, s).path| && Lookup(g, Batch(g, o, s).path[p]).kind.UserFillUp?
  {
    hide Step, Batch, Pruned;
    SuspendsOnPending(g, o, s);
  }

  lemma SuspendsOnPending(g: Graph, o: Oracle, s: RunState)
    requires LegalOrder(o) && Ready(s) && s.status.Running? && !o.cancel(s.idx) && !Batch(g, o, s).status.Failed?
    ensures Step(g, o, s).status.Suspended? <==>
              exists p :: |Pruned(g, s).path| <= p < |Batch(g, o, s).path| && Batch(g, o, s).path[p] in FillUps(g)
  {
    var b := Batch(g, o, s).path;
    var pending := b[|Pruned(g, s).path|..];
    if Keep(pending, FillUps(g)) != [] {
      assert Keep(pending, FillUps(g))[0] in pending;
    }
    forall p | |Pruned(g, s).path| <= p < |b| && b[p] in FillUps(g)
      ensures Keep(pending, FillUps(g)) != []
    {
      assert pending[p - |Pruned(g, s).path|] == b[p];
      assert b[p] in Keep(pending, FillUps(g));
    }
  }

  // ---------------------------------------------------------------- acyclic graphs stop

  ghost predicate Ranked(g: Graph, rank: Id -> nat) {
    forall c, d :: c in g && Edge(g, c, d) ==> rank(d) < rank(c)
  }

  ghost predicate PendingBelow(s: RunState, rank: Id -> nat, m: nat) {
    forall p :: s.idx <= p < |s.path| ==> rank(s.path[p]) < m
  }

  lemma PendingIsPositive(s: RunState, rank: Id -> nat, m: nat)
    requires Ready(s) && s.status.Running? && PendingBelow(s, rank, m)
    ensures m > 0
  {
    assert rank(s.path[s.idx]) < m;
  }

  lemma StepLowersRanks(g: Graph, o: Oracle, s: RunState, rank: Id -> nat, m: nat)
    requires WellFormed(g) && LegalOracle(g, o) && Ranked(g, rank) && Known(g, s.path) && Ready(s) && s.status.Running?
    requires PendingBelow(s, rank, m)
    ensures Step(g, o, s).status.Running? ==> m > 1 && PendingBelow(Step(g, o, s), rank, m - 1)
  {
    var r := Step(g, o, s);
    if r.status.Running? {
      PrunedShape(g, s);
      BatchEdges(g, o, s);
      var path := Pruned(g, s).path;
      forall p | r.idx <= p < |r.path|
        ensures rank(r.path[p]) < m - 1
      {
        assert FromBatch(g, path, s.idx, |path|, r.path[p]);
        var q :| s.idx <= q < |path| && Edge(g, path[q], r.path[p]);
        assert path[q] in s.path[s.idx..] && path[q] in g;
      }
      assert 0 <= rank(r.path[r.idx]) < m - 1;
    }
  }

  /** A run over an acyclic successor relation stops after at most rank + 1 batches. */
  lemma {:induction false} AcyclicRunsStop(g: Graph, o: Oracle, s0: RunState, rank: Id -> nat)
    requires WellFormed(g) && LegalOracle(g, o) && Launched(g, s0) && Ranked(g, rank)
    ensures !After(g, o, s0, rank(s0.path[s0.idx]) + 1).status.Running?
  {
    var m := rank(s0.path[s0.idx]) + 1;
    RanksRunOut(g, o, s0, rank, m, m);
  }

  lemma {:induction false} RanksRunOut(g: Graph, o: Oracle, s0: RunState, rank: Id -> nat, m: nat, n: nat)
    requires WellFormed(g) && LegalOracle(g, o) && Launched(g, s0) && Ranked(g, rank)
    requires m == rank(s0.path[s0.idx]) + 1 && n <= m
    ensures After(g, o, s0, n).status.Running? ==> n < m && PendingBelow(After(g, o, s0, n), rank, m - n)
    decreases n
  {
    hide Step, Ranked, Edge;
    if n > 0 {
      RanksRunOut(g, o, s0, rank, m, n - 1);
      var s := After(g, o, s0, n - 1);
      if s.status.Running? {
        RunsAreTraced(g, o, s0, n - 1);
        StepLowersRanks(g, o, s, rank, m - n + 1);
      } else {
        StoppedStays(g, o, s);
      }
    }
  }
}
