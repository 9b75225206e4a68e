/**
 The scheduler in its own form: an object whose path is popped, appended to and cut in place.
 Every method is proved to take the state where the specification functions say it goes.
 */
module CanvasEngine {
  import opened Prelude
  import opened CanvasModel
  import opened CanvasRuns
  import opened CanvasContainer
  import opened CanvasEntry

  class Canvas {
    const components: Graph
    var path: seq<Id>
    var idx: nat
    var status: Status
    var counter: map<Id, int>
    var errs: set<Id>
    var outs: map<Id, map<string, Value>>

    function State(): (s: RunState)
      reads this
    {
      RunState(path, idx, status, counter, errs, outs)
    }

    constructor (g: Graph)
      ensures components == g && State() == RunState([], 0, Finished, map[], {}, map[])
    {
      components := g;
      path, idx, status, counter, errs, outs := [], 0, Finished, map[], {}, map[];
    }

    method Store(s: RunState)
      modifies this
      ensures State() == s
    {
      path, idx, status, counter, errs, outs := s.path, s.idx, s.status, s.counter, s.errs, s.outs;
    }

    /** Remove the pending entries that refer to a component not yet on the path before them. */
    method DropUnready()
      requires idx <= |path|
      modifies this`path
      ensures State() == Pruned(components, old(State()))
    {
      hide Kept;
      var i, t := idx, |path|;
      while i < t
        invariant idx <= i <= t == |path|
        invariant Prune(components, path[..i], path[i..]) == Prune(components, old(path)[..idx], old(path)[idx..])
        decreases t - i
      {
        assert path[i..] == [path[i]] + path[i + 1..];
        if Kept(components, path[..i], path[i]) {
          assert path[..i] + [path[i]] == path[..i + 1];
          i := i + 1;
        } else {
          ghost var rest := path[i + 1..];
          path := path[..i] + path[i + 1..];
          assert path[i..] == rest;
          t := t - 1;
        }
      }
      assert path[i..] == [] && path[..i] == path;
    }

    /** Invoke the components at the positions `ps`, in that order. */
    method InvokeBatch(o: Oracle, ps: seq<nat>)
      requires forall k :: 0 <= k < |ps| ==> ps[k] < |path|
      modifies this
      ensures State() == InvokeAll(components, o, old(State()), ps)
    {
      hide Invoke;
      var k := 0;
      while k < |ps|
        invariant 0 <= k <= |ps| && |path| == old(|path|)
        invariant InvokeAll(components, o, State(), ps[k..]) == InvokeAll(components, o, old(State()), ps)
      {
        Store(Invoke(components, o, State(), ps[k]));
        assert ps[k..][1..] == ps[k + 1..];
        k := k + 1;
      }
    }

    method Append(id: Id)
      modifies this`path
      ensures path == AppendPath(old(path), id)
    {
      if path != [] && path[|path| - 1] == id {
        return;
      }
      path := path + [id];
    }

    method Extend(ids: seq<Id>)
      modifies this`path
      ensures path == ExtendPath(old(path), ids)
    {
      var k := 0;
      while k < |ids|
        invariant 0 <= k <= |ids|
        invariant ExtendPath(path, ids[k..]) == ExtendPath(old(path), ids)
      {
        assert ids[k..][1..] == ids[k + 1..];
        Append(ids[k]);
        k := k + 1;
      }
    }

    /** Post-process the entry at position `i`: error handling, then its successors. */
    method RouteEntry(o: Oracle, i: nat)
      requires i < |path|
      modifies this
      ensures State() == Route(components, o, old(State()), i)
    {
      var id := path[i];
      var a := o.answer(i, id);
      var c := Lookup(components, id);
      var targets := Targets(components, State(), id, a);
      var ends := Ends(components, State(), id, a);
      var otherBranch := false;
      if id in errs {
        if Goto(c) != [] {
          path := path + Goto(c);
          otherBranch := true;
        } else if c.handler.Handler? && c.handler.hasDefault {
        } else {
          status := Failed;
        }
      }
      if ends {
        counter := counter[id := -1];
      }
      if !otherBranch {
        Extend(targets);
      }
    }

    method RouteBatch(o: Oracle, end: nat)
      requires idx <= end <= |path|
      modifies this
      ensures State() == RouteAll(components, o, old(State()), old(idx), end)
    {
      hide Route;
      var i := idx;
      while i < end
        invariant idx == old(idx) <= i <= end <= |path|
        invariant RouteAll(components, o, State(), i, end) == RouteAll(components, o, old(State()), old(idx), end)
      {
        RouteEntry(o, i);
        i := i + 1;
      }
    }

    /** Put the pending fill-ups first and hand the path over to the next run. */
    method Suspend(end: nat)
      requires end <= |path|
      modifies this
      ensures State() == old(State()).(path := Resuspend(components, old(path)[end..]), idx := 0, status := Suspended)
    {
      hide FillUps;
      var pending := path[end..];
      var forms := FillUps(components);
      var fillUps: seq<Id>, others: seq<Id> := [], [];
      var k := 0;
      while k < |pending|
        invariant 0 <= k <= |pending| && State() == old(State())
        invariant fillUps == Keep(pending[..k], forms) && others == Without(pending[..k], forms)
      {
        SplitOneMore(pending[..k], pending[k], forms);
        assert pending[..k + 1] == pending[..k] + [pending[k]];
        if pending[k] in forms {
          fillUps := fillUps + [pending[k]];
        } else {
          others := others + [pending[k]];
        }
        k := k + 1;
      }
      assert pending[..k] == pending;
      assert fillUps == Keep(pending, forms) && others == Without(pending, forms);
      path, idx, status := fillUps + others, 0, Suspended;
    }

    /** One turn of the batch loop. */
    method RunOneBatch(o: Oracle)
      requires Ready(State()) && status.Running? && LegalOrder(o)
      modifies this
      ensures State() == Step(components, o, old(State()))
    {
      hide Prune, Kept, InvokeAll, RouteAll, FillUps, Keep, Without;
      ghost var s := State();
      if o.cancel(idx) {
        status := Canceled;
        return;
      }
      PrunedShape(components, s);
      DropUnready();
      var end := |path|;
      var ps := o.order(idx, end);
      assert Permutes(ps, idx, end);
      InvokeBatch(o, ps);
      assert State() == Invoked(components, o, s);
      RouteBatch(o, end);
      assert State() == Batch(components, o, s);
      if status.Failed? {
        path := path[..idx];
        return;
      }
      var pending := path[end..];
      if Keep(pending, FillUps(components)) != [] {
        Suspend(end);
      } else {
        idx := end;
        status := if end == |path| then Finished else Running;
      }
    }

    /** A whole run, given that it stops after at most `limit` batches. */
    method Run(o: Oracle, ghost limit: nat)
      requires LegalOrder(o) && !After(components, o, Launch(State()), limit).status.Running?
      modifies this
      ensures State() == After(components, o, Launch(old(State())), limit) && !status.Running?
    {
      hide Step, NamesFillUp;
      ghost var s0 := Launch(State());
      Store(Launch(State()));
      ghost var n := 0;
      while status.Running?
        invariant n <= limit && State() == After(components, o, s0, n)
        decreases limit - n
      {
        StoppedLater(components, o, s0, n, limit);
        RunOneBatch(o);
        n := n + 1;
      }
      StoppedForGood(components, o, s0, n, limit);
    }

    /** Over an acyclic graph every run comes to an end, with nothing asked of the environment. */
    method RunAcyclic(o: Oracle, ghost rank: Id -> nat)
      requires WellFormed(components) && Known(components, path) && LegalOracle(components, o)
      requires Ranked(components, rank)
      modifies this
      ensures !status.Running? && (!status.Suspended? ==> Traced(components, Launch(old(State())), State()))
    {
      hide Step, Launch, WellFormed, Ranked, Traced, RoutesDeclared;
      ghost var s0 := Launch(State());
      LaunchIsLaunched(components, State());
      AcyclicRunsStop(components, o, s0, rank);
      ghost var limit := rank(s0.path[s0.idx]) + 1;
      RunsAreTraced(components, o, s0, limit);
      Run(o, limit);
    }

    /** So does every run into a fresh container with one way in that is the graph's only cycle. */
    method RunContainer(o: Oracle, ghost k: Cycle, ghost way: seq<Id>, ghost n: nat, ghost rank: Id -> nat)
      requires WellFormed(components) && LegalOracle(components, o) && ChainContainer(components, k)
      requires FreshLaunch(components, k, Launch(State()))
      requires OneWayIn(components, k, way) && Launch(State()).path[Launch(State()).idx] == way[0]
      requires PassesWithin(components, o, k, n) && RankedButPass(components, k, rank)
      modifies this
      ensures !status.Running? && (!status.Suspended? ==> Traced(components, Launch(old(State())), State()))
    {
      hide Step, Launch, WellFormed, ChainContainer, OneWayIn, PassesWithin, RankedButPass, Traced, RoutesDeclared;
      ghost var s0 := Launch(State());
      RunsIntoContainerStop(components, o, k, way, n, s0, rank);
      ChainIsDistinct(components, k);
      MulMono(0, n, rank(k.body[0]) + 1);
      ghost var limit := n * (rank(k.body[0]) + 1) + rank(s0.path[s0.idx]) + 1;
      RunsAreTraced(components, o, s0, limit);
      Run(o, limit);
    }
  }

  lemma SplitOneMore(s: seq<Id>, x: Id, forms: set<Id>)
    ensures Keep(s + [x], forms) == Keep(s, forms) + (if x in forms then [x] else [])
    ensures Without(s + [x], forms) == Without(s, forms) + (if x in forms then [] else [x])
  {
    KeepConcat(s, [x], forms);
    WithoutConcat(s, [x], forms);
    OneElement(x, forms);
  }

  lemma OneElement(x: Id, forms: set<Id>)
    ensures Keep([x], forms) == (if x in forms then [x] else [])
    ensures Without([x], forms) == (if x in forms then [] else [x])
  {
    assert [x][1..] == [];
  }

  lemma {:induction false} StoppedForGood(g: Graph, o: Oracle, s0: RunState, n: nat, limit: nat)
    requires Ready(s0) && LegalOrder(o) && n <= limit && !After(g, o, s0, n).status.Running?
    ensures After(g, o, s0, limit) == After(g, o, s0, n)
    decreases limit
  {
    hide Step;
    if n < limit {
      StoppedForGood(g, o, s0, n, limit - 1);
      StoppedStays(g, o, After(g, o, s0, limit - 1));
    }
  }

  lemma StoppedLater(g: Graph, o: Oracle, s0: RunState, n: nat, limit: nat)
    requires Ready(s0) && LegalOrder(o) && n <= limit && !After(g, o, s0, limit).status.Running?
    ensures After(g, o, s0, n).status.Running? ==> n < limit
  {
  }
}
