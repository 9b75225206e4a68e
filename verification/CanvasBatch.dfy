/**
 What one batch drops, stores and schedules, said of the path, the graph and the answers alone.
 Each result fixes one phase of `Batch` completely, without naming the functions that compute it.
 */
module CanvasBatch {
  import opened Prelude
  import opened CanvasModel
  import opened CanvasRuns
  import opened CanvasContainer
  import opened CanvasIteration

  // ---------------------------------------------------------------- what is dropped

  /** The elements of `s` whose flag is set, in order. */
  function Marked<T>(s: seq<T>, flags: seq<bool>): seq<T>
    requires |s| == |flags|
  {
    if s == [] then [] else (if flags[0] then [s[0]] else []) + Marked(s[1..], flags[1..])
  }

  /** The entries of `rest` left before entry `j`, behind `done`. */
  function LeftBefore(done: seq<Id>, rest: seq<Id>, flags: seq<bool>, j: nat): seq<Id>
    requires j <= |rest| == |flags|
  {
    done + Marked(rest[..j], flags[..j])
  }

  /** Entry `j` is kept as a start, as a form, in a resumed run, or because all it refers to is left before it. */
  predicate KeptAt(g: Graph, done: seq<Id>, rest: seq<Id>, flags: seq<bool>, j: nat)
    requires j < |rest| == |flags|
  {
    var left, c := LeftBefore(done, rest, flags, j), Lookup(g, rest[j]);
    || c.kind.Begin? || c.kind.UserFillUp?
    || NamesFillUp((left + [rest[j]])[0])
    || forall r :: r in c.refs ==> r in left
  }

  lemma LeftBeforeLater(done: seq<Id>, rest: seq<Id>, flags: seq<bool>, j: nat)
    requires 0 < j <= |rest| == |flags|
    ensures LeftBefore(done, rest, flags, j) ==
              LeftBefore(if flags[0] then done + [rest[0]] else done, rest[1..], flags[1..], j - 1)
  {
    assert rest[..j][1..] == rest[1..][..j - 1] && flags[..j][1..] == flags[1..][..j - 1];
    assert done + [rest[0]] + Marked(rest[1..][..j - 1], flags[1..][..j - 1])
        == done + ([rest[0]] + Marked(rest[1..][..j - 1], flags[1..][..j - 1]));
  }

  lemma {:induction false} PruneMarks(g: Graph, done: seq<Id>, rest: seq<Id>) returns (flags: seq<bool>)
    ensures |flags| == |rest| && Prune(g, done, rest) == done + Marked(rest, flags)
    ensures forall j :: 0 <= j < |rest| ==> (flags[j] <==> KeptAt(g, done, rest, flags, j))
    decreases |rest|
  {
    flags := [];
    if rest != [] {
      hide Kept, NamesFillUp, LeftBefore, KeptAt;
      var kept := Kept(g, done, rest[0]);
      var done1 := if kept then done + [rest[0]] else done;
      var later := PruneMarks(g, done1, rest[1..]);
      flags := [kept] + later;
      assert flags[1..] == later;
      assert Marked(rest, flags) == (if kept then [rest[0]] else []) + Marked(rest[1..], later);
      assert done + ([rest[0]] + Marked(rest[1..], later)) == done + [rest[0]] + Marked(rest[1..], later);
      hide Marked;
      FirstKept(g, done, rest, flags);
      forall j | 0 < j < |rest|
        ensures flags[j] <==> KeptAt(g, done, rest, flags, j)
      {
        LaterKept(g, done, rest, flags, j);
        assert later[j - 1] <==> KeptAt(g, done1, rest[1..], later, j - 1);
      }
    }
  }

  lemma FirstKept(g: Graph, done: seq<Id>, rest: seq<Id>, flags: seq<bool>)
    requires 0 < |rest| == |flags|
    ensures KeptAt(g, done, rest, flags, 0) <==> Kept(g, done, rest[0])
  {
    hide NamesFillUp;
    assert LeftBefore(done, rest, flags, 0) == done;
    assert (done + [rest[0]])[0] == if done == [] then rest[0] else done[0];
  }

  lemma LaterKept(g: Graph, done: seq<Id>, rest: seq<Id>, flags: seq<bool>, j: nat)
    requires 0 < j < |rest| == |flags|
    ensures KeptAt(g, done, rest, flags, j) <==>
              KeptAt(g, if flags[0] then done + [rest[0]] else done, rest[1..], flags[1..], j - 1)
  {
    hide NamesFillUp, LeftBefore;
    LeftBeforeLater(done, rest, flags, j);
  }

  /** A run that resumes at a form drops nothing. */
  lemma ResumedRunsDropNothing(g: Graph, s: RunState)
    requires s.idx <= |s.path| && s.path != [] && NamesFillUp(s.path[0])
    ensures Pruned(g, s).path == s.path
  {
    hide NamesFillUp;
    PruneResumed(g, s.path[..s.idx], s.path[s.idx..]);
  }

  lemma {:induction false} PruneResumed(g: Graph, done: seq<Id>, rest: seq<Id>)
    requires done + rest != [] && NamesFillUp((done + rest)[0])
    ensures Prune(g, done, rest) == done + rest
    decreases |rest|
  {
    hide NamesFillUp;
    if rest != [] {
      assert done + [rest[0]] + rest[1..] == done + rest;
      PruneResumed(g, done + [rest[0]], rest[1..]);
    }
  }

  /** Any other run drops exactly the pending entries that are neither a Begin nor a form and lack a component
      they refer to among the entries left before them. */
  lemma OtherRunsDropTheUnready(g: Graph, s: RunState) returns (flags: seq<bool>)
    requires s.idx <= |s.path| && s.path != [] && !NamesFillUp(s.path[0])
    requires s.idx > 0 || Lookup(g, s.path[0]).kind.Begin?
    ensures |flags| == |s.path| - s.idx && Pruned(g, s).path == s.path[..s.idx] + Marked(s.path[s.idx..], flags)
    ensures forall j :: 0 <= j < |flags| ==>
              var c := Lookup(g, s.path[s.idx + j]);
              (!flags[j] <==> && !c.kind.Begin? && !c.kind.UserFillUp?
                              && exists r :: r in c.refs && r !in LeftBefore(s.path[..s.idx], s.path[s.idx..], flags, j))
  {
    hide NamesFillUp;
    var done, rest := s.path[..s.idx], s.path[s.idx..];
    flags := PruneMarks(g, done, rest);
    forall j | 0 <= j < |flags|
      ensures KeptAt(g, done, rest, flags, j) <==>
                var c := Lookup(g, rest[j]);
                || c.kind.Begin? || c.kind.UserFillUp?
                || forall r :: r in c.refs ==> r in LeftBefore(done, rest, flags, j)
    {
      HeadStays(g, s, flags, j);
    }
  }

  lemma HeadStays(g: Graph, s: RunState, flags: seq<bool>, j: nat)
    requires s.idx <= |s.path| && j < |flags| == |s.path| - s.idx
    requires s.idx > 0 || (Lookup(g, s.path[0]).kind.Begin? && (flags[0] <==> KeptAt(g, s.path[..s.idx], s.path[s.idx..], flags, 0)))
    ensures (LeftBefore(s.path[..s.idx], s.path[s.idx..], flags, j) + [s.path[s.idx + j]])[0] == s.path[0]
  {
    hide NamesFillUp;
    var done, rest := s.path[..s.idx], s.path[s.idx..];
    if s.idx == 0 && j > 0 {
      LeftBeforeLater(done, rest, flags, j);
    }
  }

  /** The ids that resume a run: they spell the component's name, in any mix of cases. */
  lemma NamesFillUpExactly(id: Id)
    ensures NamesFillUp(id) <==> SpelledIn(id, "userfillup")
  {
    hide LowerCase, SpelledIn, Contains;
    FoundWhenSpelled(id, "userfillup");
  }

  // ---------------------------------------------------------------- what is stored

  /** The two states agree on what component `id` holds. */
  predicate SameAt(id: Id, a: RunState, b: RunState) {
    a.path == b.path && Counter(a, id) == Counter(b, id) && Outputs(a, id) == Outputs(b, id) && (id in a.errs <==> id in b.errs)
  }

  /** Only an invocation of `id` itself writes it, or of an item it is the parent of. */
  predicate Apart(g: Graph, path: seq<Id>, p: nat, id: Id)
    requires p < |path|
  {
    path[p] != id && !(Lookup(g, path[p]).kind.IterationItem? && Lookup(g, path[p]).parent == Some(id))
  }

  lemma {:induction false} InvokeAllApart(g: Graph, o: Oracle, s: RunState, ps: seq<nat>, id: Id)
    requires forall m :: 0 <= m < |ps| ==> ps[m] < |s.path| && Apart(g, s.path, ps[m], id)
    ensures SameAt(id, s, InvokeAll(g, o, s, ps))
    decreases |ps|
  {
    hide Invoke;
    if ps != [] {
      InvokeFrame(g, o, s, ps[0], id);
      InvokeAllApart(g, o, Invoke(g, o, s, ps[0]), ps[1..], id);
    }
  }

  /** A component that is no Iteration is written by its own invocations only. */
  lemma ApartUnlessItself(g: Graph, path: seq<Id>, p: nat, id: Id)
    requires WellFormed(g) && Known(g, path) && p < |path| && !Lookup(g, id).kind.Iteration?
    ensures Apart(g, path, p, id) <==> path[p] != id
  {
    assert ComponentOk(g, path[p]);
  }

  /** If `id` is invoked once, at `ps[m]`, the batch does to it what that invocation does. */
  lemma {:induction false} InvokeAllOnce(g: Graph, o: Oracle, s: RunState, ps: seq<nat>, m: nat, id: Id)
    returns (before: RunState)
    requires WellFormed(g) && Known(g, s.path) && !Lookup(g, id).kind.Iteration? && m < |ps|
    requires forall q :: 0 <= q < |ps| ==> ps[q] < |s.path| && (s.path[ps[q]] == id <==> q == m)
    ensures SameAt(id, s, before) && SameAt(id, Invoke(g, o, before, ps[m]), InvokeAll(g, o, s, ps))
    decreases |ps|
  {
    hide Invoke, WellFormed;
    forall q | 0 <= q < |ps|
      ensures Apart(g, s.path, ps[q], id) <==> q != m
    {
      ApartUnlessItself(g, s.path, ps[q], id);
    }
    var s1 := Invoke(g, o, s, ps[0]);
    if m == 0 {
      InvokeAllApart(g, o, s1, ps[1..], id);
      before := s;
    } else {
      InvokeFrame(g, o, s, ps[0], id);
      before := InvokeAllOnce(g, o, s1, ps[1..], m - 1, id);
    }
  }

  /** Position `p` is the only one of the batch that holds its component. */
  predicate OnceAt(path: seq<Id>, lo: nat, p: nat) {
    lo <= p < |path| && forall q :: lo <= q < |path| && q != p ==> path[q] != path[p]
  }

  lemma BatchOnce(g: Graph, o: Oracle, s: RunState, p: nat) returns (before: RunState)
    requires WellFormed(g) && LegalOrder(o) && Known(g, s.path) && s.idx <= |s.path|
    requires OnceAt(Pruned(g, s).path, s.idx, p) && !Lookup(g, Pruned(g, s).path[p]).kind.Iteration?
    ensures var id := Pruned(g, s).path[p];
            && SameAt(id, Pruned(g, s), before) && SameAt(id, Invoke(g, o, before, p), Invoked(g, o, s))
  {
    PrunedShape(g, s);
    var path := Pruned(g, s).path;
    var ps := o.order(s.idx, |path|);
    assert Permutes(ps, s.idx, |path|);
    var m := PermutationHits(ps, s.idx, |path|, p);
    hide Invoke, WellFormed, LegalOrder, Prune, Kept;
    before := InvokeAllOnce(g, o, Pruned(g, s), ps, m, path[p]);
  }

  /** A component that is neither an Iteration nor an item: its invocation stores what it answers. */
  predicate Plain(g: Graph, id: Id) {
    var k := Lookup(g, id).kind;
    !k.Iteration? && !IsItem(k)
  }

  lemma {:induction false} InvokeAllStores(g: Graph, o: Oracle, s: RunState, ps: seq<nat>, id: Id, name: string)
    returns (m: int)
    requires WellFormed(g) && Known(g, s.path) && Plain(g, id)
    requires forall q :: 0 <= q < |ps| ==> ps[q] < |s.path|
    ensures -1 <= m < |ps|
    ensures m >= 0 ==> s.path[ps[m]] == id && name in o.answer(ps[m], id).outputs &&
                       Output(InvokeAll(g, o, s, ps), id, name) == o.answer(ps[m], id).outputs[name]
    ensures m < 0 ==> Output(InvokeAll(g, o, s, ps), id, name) == Output(s, id, name)
    ensures forall q :: m < q < |ps| && s.path[ps[q]] == id ==> name !in o.answer(ps[q], id).outputs
    decreases |ps|
  {
    hide Invoke, WellFormed;
    m := -1;
    if ps != [] {
      var s1 := Invoke(g, o, s, ps[0]);
      var later := InvokeAllStores(g, o, s1, ps[1..], id, name);
      if s.path[ps[0]] == id {
        StoresItsAnswer(g, o, s, ps[0]);
      } else {
        ApartUnlessItself(g, s.path, ps[0], id);
        InvokeFrame(g, o, s, ps[0], id);
      }
      m := if later >= 0 then later + 1
           else if s.path[ps[0]] == id && name in o.answer(ps[0], id).outputs then 0 else -1;
    }
  }

  lemma StoresItsAnswer(g: Graph, o: Oracle, s: RunState, p: nat)
    requires p < |s.path| && Plain(g, s.path[p])
    ensures var id := s.path[p];
            forall name :: Output(Invoke(g, o, s, p), id, name) ==
              if name in o.answer(p, id).outputs then o.answer(p, id).outputs[name] else Output(s, id, name)
  {
  }

  /** After a batch, output `name` of a component is what the last of its invocations that answered the name
      answered, last in the order the tasks took effect; without one it is unchanged. */
  lemma BatchStores(g: Graph, o: Oracle, s: RunState, id: Id, name: string) returns (m: int)
    requires WellFormed(g) && LegalOrder(o) && Known(g, s.path) && s.idx <= |s.path| && Plain(g, id)
    ensures var path, ps := Pruned(g, s).path, o.order(s.idx, |Pruned(g, s).path|);
            && -1 <= m < |ps| && Permutes(ps, s.idx, |path|)
            && (m >= 0 ==> path[ps[m]] == id && name in o.answer(ps[m], id).outputs)
            && (forall q :: m < q < |ps| && path[ps[q]] == id ==> name !in o.answer(ps[q], id).outputs)
            && Output(Batch(g, o, s), id, name) == (if m >= 0 then o.answer(ps[m], id).outputs[name] else Output(s, id, name))
  {
    PrunedShape(g, s);
    var path := Pruned(g, s).path;
    var ps := o.order(s.idx, |path|);
    assert Permutes(ps, s.idx, |path|);
    hide Invoke, WellFormed, LegalOrder, Prune, Kept, RouteAll;
    m := InvokeAllStores(g, o, Pruned(g, s), ps, id, name);
  }

  /** If the component ran once, at `p`: every answered output holds the answer, the others are unchanged. */
  lemma BatchStoresTheAnswer(g: Graph, o: Oracle, s: RunState, p: nat)
    requires WellFormed(g) && LegalOrder(o) && Known(g, s.path) && s.idx <= |s.path|
    requires OnceAt(Pruned(g, s).path, s.idx, p) && Plain(g, Pruned(g, s).path[p])
    ensures var id := Pruned(g, s).path[p]; var a := o.answer(p, id);
            forall name :: Output(Batch(g, o, s), id, name) == if name in a.outputs then a.outputs[name] else Output(s, id, name)
  {
    hide Prune, Kept, WellFormed, Invoke, RouteAll, InvokeAll, LegalOrder;
    var before := BatchOnce(g, o, s, p);
    var id := Pruned(g, s).path[p];
    StoresItsAnswer(g, o, before, p);
    forall name
      ensures Output(Batch(g, o, s), id, name) == Output(Invoke(g, o, before, p), id, name)
      ensures Output(before, id, name) == Output(s, id, name)
    {
    }
  }

  /** What a batch does not run, it leaves alone: a component that is not invoked and is not the parent of an
      invoked iteration item keeps its outputs, its error and its index. */
  lemma OthersAreUntouched(g: Graph, o: Oracle, s: RunState, id: Id)
    requires LegalOrder(o) && s.idx <= |s.path|
    requires forall p :: s.idx <= p < |Pruned(g, s).path| ==> Apart(g, Pruned(g, s).path, p, id)
    ensures var b := Batch(g, o, s);
            Outputs(b, id) == Outputs(s, id) && (id in b.errs <==> id in s.errs) && Counter(b, id) == Counter(s, id)
  {
    hide Pruned, InvokeAll, RouteAll, Apart, LegalOrder;
    InvokedApart(g, o, s, id);
    ApartIsOther(g, Pruned(g, s).path, s.idx, id);
    RouteAllKeepsCounter(g, o, Invoked(g, o, s), s.idx, |Pruned(g, s).path|, id);
  }

  lemma ApartIsOther(g: Graph, path: seq<Id>, lo: nat, id: Id)
    requires forall p :: lo <= p < |path| ==> Apart(g, path, p, id)
    ensures forall p :: lo <= p < |path| ==> path[p] != id
  {
    forall p | lo <= p < |path|
      ensures path[p] != id
    {
      assert Apart(g, path, p, id);
    }
  }

  lemma InvokedApart(g: Graph, o: Oracle, s: RunState, id: Id)
    requires LegalOrder(o) && s.idx <= |s.path|
    requires forall p :: s.idx <= p < |Pruned(g, s).path| ==> Apart(g, Pruned(g, s).path, p, id)
    ensures var ran := Invoked(g, o, s);
            && Outputs(ran, id) == Outputs(s, id) && (id in ran.errs <==> id in s.errs) && Counter(ran, id) == Counter(s, id)
  {
    hide Apart, InvokeAll, Prune, Kept;
    PrunedShape(g, s);
    var path := Pruned(g, s).path;
    var ps := o.order(s.idx, |path|);
    assert Permutes(ps, s.idx, |path|);
    InvokeAllApart(g, o, Pruned(g, s), ps, id);
  }

  lemma {:induction false} InvokeAllErrs(g: Graph, o: Oracle, s: RunState, ps: seq<nat>, id: Id)
    requires !IsItem(Lookup(g, id).kind) && forall q :: 0 <= q < |ps| ==> ps[q] < |s.path|
    ensures id in InvokeAll(g, o, s, ps).errs <==>
              id in s.errs || exists q :: 0 <= q < |ps| && s.path[ps[q]] == id && o.answer(ps[q], id).fails
    decreases |ps|
  {
    hide Invoke;
    if ps != [] {
      var s1, later := Invoke(g, o, s, ps[0]), ps[1..];
      InvokeErr(g, o, s, ps[0], id);
      InvokeAllErrs(g, o, s1, later, id);
      if q :| 0 <= q < |later| && s.path[later[q]] == id && o.answer(later[q], id).fails {
        assert ps[q + 1] == later[q];
      }
      if q :| 0 < q < |ps| && s.path[ps[q]] == id && o.answer(ps[q], id).fails {
        assert later[q - 1] == ps[q];
      }
    }
  }

  lemma InvokeErr(g: Graph, o: Oracle, s: RunState, p: nat, id: Id)
    requires p < |s.path| && !IsItem(Lookup(g, id).kind)
    ensures id in Invoke(g, o, s, p).errs <==> id in s.errs || (s.path[p] == id && o.answer(p, id).fails)
  {
    hide Collation;
  }

  /** After a batch a component holds an error exactly if it did before or an invocation of it failed. */
  lemma BatchErrs(g: Graph, o: Oracle, s: RunState, id: Id)
    requires LegalOrder(o) && s.idx <= |s.path| && !IsItem(Lookup(g, id).kind)
    ensures id in Batch(g, o, s).errs <==>
              || id in s.errs
              || exists p :: s.idx <= p < |Pruned(g, s).path| && Pruned(g, s).path[p] == id && o.answer(p, id).fails
  {
    PrunedShape(g, s);
    var path := Pruned(g, s).path;
    var ps := o.order(s.idx, |path|);
    assert Permutes(ps, s.idx, |path|);
    hide Invoke, LegalOrder, Prune, Kept;
    InvokeAllErrs(g, o, Pruned(g, s), ps, id);
    if p :| s.idx <= p < |path| && path[p] == id && o.answer(p, id).fails {
      var m := PermutationHits(ps, s.idx, |path|, p);
    }
  }

  // ---------------------------------------------------------------- items

  /** A loop item that ran once: it counts up to the Loop's maximum, then ends; a failure does not count. */
  lemma LoopItemCounts(g: Graph, o: Oracle, s: RunState, p: nat, most: int, start: Id)
    requires WellFormed(g) && LegalOrder(o) && Known(g, s.path) && s.idx <= |s.path| && OnceAt(Pruned(g, s).path, s.idx, p)
    requires var c := Lookup(g, Pruned(g, s).path[p]);
             c.kind.LoopItem? && c.parent.Some? && Lookup(g, c.parent.value).kind == Loop(start, most)
    ensures var id := Pruned(g, s).path[p]; var a, n := o.answer(p, id), Counter(s, id); var ran := Invoked(g, o, s);
            && Outputs(ran, id) == Outputs(s, id)
            && Counter(ran, id) == (if a.fails || a.raises then n else if n < most then n + 1 else -1)
            && (id in ran.errs <==> id in s.errs || a.fails || (a.raises && !Lookup(g, id).swallows))
  {
    hide Prune, Kept, WellFormed, RouteAll, InvokeAll, LegalOrder;
    var before := BatchOnce(g, o, s, p);
  }

  /** An iteration item that ran once with index `n`: presents the element at `n`, counting from the end of the
      array if `n` is negative, ends behind the last one, or errs. */
  lemma IterationItemPresents(g: Graph, o: Oracle, s: RunState, p: nat, arr: seq<Value>)
    requires WellFormed(g) && LegalOrder(o) && Known(g, s.path) && s.idx <= |s.path| && OnceAt(Pruned(g, s).path, s.idx, p)
    requires var id := Pruned(g, s).path[p]; Lookup(g, id).kind.IterationItem? && o.answer(p, id).items == Some(arr)
    ensures var id := Pruned(g, s).path[p]; var a, n := o.answer(p, id), Counter(s, id); var ran := Invoked(g, o, s);
            var silent := Lookup(g, id).swallows; var shows := !a.fails && !a.raises && n < |arr| && !a.cancelLate && n >= -|arr|;
            && (shows ==>
                  && Counter(ran, id) == n + 1 && Output(ran, id, "index") == Number(n)
                  && Output(ran, id, "item") == arr[if n < 0 then |arr| + n else n])
            && (!shows ==>
                  && Outputs(ran, id) == Outputs(s, id)
                  && Counter(ran, id) == (if !a.fails && !a.raises && n >= |arr| then -1 else n))
            && (id in ran.errs <==>
                  || id in s.errs || a.fails || (a.raises && !silent) || (!a.raises && n < |arr| && a.cancelLate)
                  || (!a.raises && n < -|arr| && !silent))
  {
    ItemIsNotItsParent(g, s, p);
    hide Prune, Kept, WellFormed, RouteAll, InvokeAll, LegalOrder, InvokeIterationItem;
    var before := BatchOnce(g, o, s, p);
    var id := Pruned(g, s).path[p];
    ItemPresents(g, before, id, o.answer(p, id), arr);
    var r := Invoke(g, o, before, p);
    assert r == InvokeIterationItem(g, before, id, o.answer(p, id));
    assert Output(r, id, "index") == Output(Invoked(g, o, s), id, "index");
    assert Output(r, id, "item") == Output(Invoked(g, o, s), id, "item");
  }

  lemma ItemPresents(g: Graph, s: RunState, id: Id, a: Answer, arr: seq<Value>)
    requires a.items == Some(arr) && Lookup(g, id).parent != Some(id)
    ensures var n, ran := Counter(s, id), InvokeIterationItem(g, s, id, a);
            var silent := Lookup(g, id).swallows; var shows := !a.fails && !a.raises && n < |arr| && !a.cancelLate && n >= -|arr|;
            && (shows ==>
                  && Counter(ran, id) == n + 1 && Output(ran, id, "index") == Number(n)
                  && Output(ran, id, "item") == arr[if n < 0 then |arr| + n else n])
            && (!shows ==>
                  && Outputs(ran, id) == Outputs(s, id)
                  && Counter(ran, id) == (if !a.fails && !a.raises && n >= |arr| then -1 else n))
            && (id in ran.errs <==>
                  || id in s.errs || a.fails || (a.raises && !silent) || (!a.raises && n < |arr| && a.cancelLate)
                  || (!a.raises && n < -|arr| && !silent))
  {
    hide Collation;
  }

  /** Without an array the item ends, with an error unless its exceptions are replaced. */
  lemma IterationItemWithoutArray(g: Graph, o: Oracle, s: RunState, p: nat)
    requires WellFormed(g) && LegalOrder(o) && Known(g, s.path) && s.idx <= |s.path| && OnceAt(Pruned(g, s).path, s.idx, p)
    requires var id := Pruned(g, s).path[p]; Lookup(g, id).kind.IterationItem? && o.answer(p, id).items.None?
    ensures var id := Pruned(g, s).path[p]; var a, n := o.answer(p, id), Counter(s, id); var ran := Invoked(g, o, s);
            && Outputs(ran, id) == Outputs(s, id)
            && Counter(ran, id) == (if a.fails || a.raises then n else -1)
            && (id in ran.errs <==> id in s.errs || a.fails || !Lookup(g, id).swallows)
  {
    ItemIsNotItsParent(g, s, p);
    hide Prune, Kept, WellFormed, RouteAll, InvokeAll, LegalOrder, Collation;
    var before := BatchOnce(g, o, s, p);
  }

  lemma ItemIsNotItsParent(g: Graph, s: RunState, p: nat)
    requires WellFormed(g) && Known(g, s.path) && s.idx <= |s.path| && p < |Pruned(g, s).path|
    requires Lookup(g, Pruned(g, s).path[p]).kind.IterationItem?
    ensures Lookup(g, Pruned(g, s).path[p]).parent != Some(Pruned(g, s).path[p])
  {
    PrunedShape(g, s);
    assert ComponentOk(g, Pruned(g, s).path[p]);
  }

  // ---------------------------------------------------------------- what is scheduled

  /** `after` is `path` with `ids` appended in order, an id equal to the entry right before it not repeated:
      id `j` is at position `at[j]`, and every appended position is one of these. */
  predicate Appends(path: seq<Id>, ids: seq<Id>, after: seq<Id>, at: seq<nat>) {
    && path <= after && |at| == |ids|
    && (forall j :: 0 <= j < |ids| ==> |path| - 1 <= at[j] < |after| && after[at[j]] == ids[j])
    && (forall i, j :: 0 <= i < j < |ids| ==> at[i] <= at[j])
    && (forall p :: |path| <= p < |after| ==> p in at)
    && (forall p :: |path| <= p < |after| && p > 0 ==> after[p - 1] != after[p])
  }

  ghost predicate Scheduled(path: seq<Id>, ids: seq<Id>, after: seq<Id>) {
    exists at :: Appends(path, ids, after, at)
  }

  lemma {:induction false} ExtendAppends(path: seq<Id>, ids: seq<Id>) returns (at: seq<nat>)
    ensures Appends(path, ids, ExtendPath(path, ids), at)
    decreases |ids|
  {
    at := [];
    if ids != [] {
      var path1 := AppendPath(path, ids[0]);
      var later := ExtendAppends(path1, ids[1..]);
      at := [|path1| - 1] + later;
      var after := ExtendPath(path, ids);
      assert after[|path1| - 1] == path1[|path1| - 1] == ids[0];
      forall p | |path| <= p < |after|
        ensures p in at
      {
        if p < |path1| {
          assert at[0] == p;
        } else {
          assert p in later;
        }
      }
    }
  }

  lemma ExtendIsScheduled(path: seq<Id>, ids: seq<Id>)
    ensures Scheduled(path, ids, ExtendPath(path, ids))
  {
    var at := ExtendAppends(path, ids);
  }

  /** The item at position `p` of the batch has ended when it is routed: its index is -1, or the Loop's stop
      condition held at `p` or at an earlier entry of the same item. */
  ghost predicate Ended(g: Graph, o: Oracle, ran: RunState, lo: nat, p: nat)
    requires p < |ran.path|
  {
    var id := ran.path[p];
    Counter(ran, id) == -1 || (Lookup(g, id).kind.LoopItem? && exists q :: lo <= q <= p && ran.path[q] == id && o.answer(q, id).stop)
  }

  /** The path grows from `before` to `after` when a component goes on the ordinary way. */
  ghost predicate Proceeds(g: Graph, c: Component, before: seq<Id>, after: seq<Id>) {
    if c.downstream == [] && c.parent.Some? then
      match Lookup(g, c.parent.value).kind
      case Iteration(start, _) => Scheduled(before, [start], after)
      case Loop(start, _) => Scheduled(before, [start], after)
      case _ => false
    else
      Scheduled(before, c.downstream, after)
  }

  /** What entry `p` adds: its error goto; else, by kind, the answered successors, the container's start, or the
      container's successors if it is left; else its own successors, or the start of the next pass. */
  ghost predicate Follows(g: Graph, o: Oracle, ran: RunState, lo: nat, p: nat, before: seq<Id>, after: seq<Id>)
    requires p < |ran.path|
  {
    var id := ran.path[p];
    var c := Lookup(g, id);
    if id in ran.errs && c.handler.Handler? && c.handler.goto != [] then after == before + c.handler.goto
    else match c.kind
      case Router => Scheduled(before, o.answer(p, id).next, after)
      case Iteration(start, _) => Scheduled(before, [start], after)
      case Loop(start, _) => Scheduled(before, [start], after)
      case IterationItem => if Ended(g, o, ran, lo, p) then Scheduled(before, Parent(g, c).downstream, after) else Proceeds(g, c, before, after)
      case LoopItem => if Ended(g, o, ran, lo, p) then Scheduled(before, Parent(g, c).downstream, after) else Proceeds(g, c, before, after)
      case ExitLoop => if Parent(g, c).kind.Loop? then Scheduled(before, Parent(g, c).downstream, after) else Proceeds(g, c, before, after)
      case _ => Proceeds(g, c, before, after)
  }

  lemma RouteFollows(g: Graph, o: Oracle, ran: RunState, s: RunState, lo: nat, p: nat)
    requires WellFormed(g) && lo <= p < |ran.path| && ran.path <= s.path && s.errs == ran.errs && s.path[p] in g
    requires IsItem(Lookup(g, s.path[p]).kind) ==> (Ends(g, s, s.path[p], o.answer(p, s.path[p])) <==> Ended(g, o, ran, lo, p))
    ensures Follows(g, o, ran, lo, p, s.path, Route(g, o, s, p).path)
  {
    var id := s.path[p];
    var a := o.answer(p, id);
    hide Ended, Ends, ExtendPath, WellFormed, Scheduled, Targets, Proceeds;
    if id !in s.errs || Goto(Lookup(g, id)) == [] {
      ExtendIsScheduled(s.path, Targets(g, s, id, a));
      TargetsFollow(g, o, ran, s, lo, p, Route(g, o, s, p).path);
    }
  }

  lemma TargetsFollow(g: Graph, o: Oracle, ran: RunState, s: RunState, lo: nat, p: nat, after: seq<Id>)
    requires WellFormed(g) && lo <= p < |ran.path| && ran.path <= s.path && s.errs == ran.errs && s.path[p] in g
    requires IsItem(Lookup(g, s.path[p]).kind) ==> (Ends(g, s, s.path[p], o.answer(p, s.path[p])) <==> Ended(g, o, ran, lo, p))
    requires s.path[p] !in s.errs || Goto(Lookup(g, s.path[p])) == []
    requires Scheduled(s.path, Targets(g, s, s.path[p], o.answer(p, s.path[p])), after)
    ensures Follows(g, o, ran, lo, p, s.path, after)
  {
    var id := s.path[p];
    assert ComponentOk(g, id);
    hide Ended, Ends, WellFormed, Scheduled;
    EndsIsForItems(g, s, id, o.answer(p, id));
  }

  lemma EndsIsForItems(g: Graph, s: RunState, id: Id, a: Answer)
    ensures Ends(g, s, id, a) ==> IsItem(Lookup(g, id).kind)
  {
  }

  /** The Loop's stop condition held at an entry of `id` among [lo, hi). */
  ghost predicate Stopped(g: Graph, o: Oracle, path: seq<Id>, lo: nat, hi: nat, id: Id)
    requires hi <= |path|
  {
    Lookup(g, id).kind.LoopItem? && exists q :: lo <= q < hi && path[q] == id && o.answer(q, id).stop
  }

  /** The index of each component once the entries [lo, p) are routed. */
  ghost predicate Indexed(g: Graph, o: Oracle, ran: RunState, s: RunState, lo: nat, p: nat)
    requires p <= |ran.path|
  {
    forall id {:trigger Stopped(g, o, ran.path, lo, p, id)} ::
      Counter(s, id) == if Stopped(g, o, ran.path, lo, p, id) then -1 else Counter(ran, id)
  }

  lemma StoppedMore(g: Graph, o: Oracle, path: seq<Id>, lo: nat, p: nat, id: Id)
    requires lo <= p < |path|
    ensures Stopped(g, o, path, lo, p + 1, id) <==>
              Stopped(g, o, path, lo, p, id) || (path[p] == id && Lookup(g, id).kind.LoopItem? && o.answer(p, id).stop)
  {
  }

  lemma RouteIndexes(g: Graph, o: Oracle, ran: RunState, s: RunState, lo: nat, p: nat)
    requires lo <= p < |ran.path| && ran.path <= s.path && Indexed(g, o, ran, s, lo, p)
    ensures Indexed(g, o, ran, Route(g, o, s, p), lo, p + 1)
    ensures IsItem(Lookup(g, s.path[p]).kind) ==> (Ends(g, s, s.path[p], o.answer(p, s.path[p])) <==> Ended(g, o, ran, lo, p))
  {
    var x := s.path[p];
    var r := Route(g, o, s, p);
    assert Counter(r, x) == if Ends(g, s, x, o.answer(p, x)) then -1 else Counter(s, x);
    hide Stopped, Targets;
    StoppedMore(g, o, ran.path, lo, p, x);
    assert Counter(s, x) == if Stopped(g, o, ran.path, lo, p, x) then -1 else Counter(ran, x);
    forall id
      ensures Counter(r, id) == if Stopped(g, o, ran.path, lo, p + 1, id) then -1 else Counter(ran, id)
    {
      StoppedMore(g, o, ran.path, lo, p, id);
      if id != x {
        RouteKeepsCounter(g, o, s, p, id);
        assert Counter(s, id) == if Stopped(g, o, ran.path, lo, p, id) then -1 else Counter(ran, id);
      }
    }
  }

  /** The path after each entry of [p, end) was routed, as lengths of the final path. */
  ghost predicate Cut(g: Graph, o: Oracle, ran: RunState, lo: nat, p: nat, end: nat, path: seq<Id>, cuts: seq<nat>)
    requires p <= end <= |ran.path|
  {
    && |cuts| == end - p + 1 && cuts[|cuts| - 1] == |path|
    && (forall j :: 0 <= j < |cuts| ==> cuts[j] <= |path|)
    && (forall i, j :: 0 <= i < j < |cuts| ==> cuts[i] <= cuts[j])
    && (forall j: nat :: j < end - p ==> FollowsAt(g, o, ran, lo, p, path, cuts, j))
  }

  /** Entry `p + j` takes the path from its `j`-th cut to the next. */
  ghost predicate FollowsAt(g: Graph, o: Oracle, ran: RunState, lo: nat, p: nat, path: seq<Id>, cuts: seq<nat>, j: nat)
    requires p + j < |ran.path| && j + 1 < |cuts| && cuts[j] <= |path| && cuts[j + 1] <= |path|
  {
    Follows(g, o, ran, lo, p + j, path[..cuts[j]], path[..cuts[j + 1]])
  }

  lemma CutFirst(g: Graph, o: Oracle, ran: RunState, lo: nat, p: nat, end: nat, path: seq<Id>, n: nat, later: seq<nat>)
    requires p < end <= |ran.path| && Cut(g, o, ran, lo, p + 1, end, path, later) && n <= later[0]
    requires Follows(g, o, ran, lo, p, path[..n], path[..later[0]])
    ensures Cut(g, o, ran, lo, p, end, path, [n] + later)
  {
    hide Follows;
    var cuts := [n] + later;
    forall j: nat | j < end - p
      ensures FollowsAt(g, o, ran, lo, p, path, cuts, j)
    {
      if j > 0 {
        assert FollowsAt(g, o, ran, lo, p + 1, path, later, j - 1);
      }
    }
  }

  lemma {:induction false} RouteAllFollows(g: Graph, o: Oracle, ran: RunState, s: RunState, lo: nat, p: nat, end: nat)
    returns (cuts: seq<nat>)
    requires WellFormed(g) && Known(g, ran.path)
    requires lo <= p <= end <= |ran.path| && ran.path <= s.path && s.errs == ran.errs && Indexed(g, o, ran, s, lo, p)
    ensures var r := RouteAll(g, o, s, p, end);
            Cut(g, o, ran, lo, p, end, r.path, cuts) && cuts[0] == |s.path| && Indexed(g, o, ran, r, lo, end)
    decreases end - p
  {
    hide Route, Follows, FollowsAt, Indexed, WellFormed, Ends, Ended;
    if p == end {
      cuts := [|s.path|];
    } else {
      var s1 := Route(g, o, s, p);
      assert s.path[p] == ran.path[p];
      RouteKeepsErrors(g, o, s, p);
      RouteIndexes(g, o, ran, s, lo, p);
      RouteFollows(g, o, ran, s, lo, p);
      var later := RouteAllFollows(g, o, ran, s1, lo, p + 1, end);
      cuts := [|s.path|] + later;
      var path := RouteAll(g, o, s, p, end).path;
      assert path[..|s.path|] == s.path && path[..|s1.path|] == s1.path;
      CutFirst(g, o, ran, lo, p, end, path, |s.path|, later);
    }
  }

  /** Main result, scheduling: the path after a batch is the path before it, followed for each entry in its turn
      by what the entry's kind, the graph and its answer say, and by nothing else; and the index of a loop item
      is set to -1 exactly if its stop condition held. */
  lemma BatchSchedules(g: Graph, o: Oracle, s: RunState) returns (cuts: seq<nat>)
    requires WellFormed(g) && LegalOrder(o) && Known(g, s.path) && s.idx <= |s.path|
    ensures var ran, b, end := Invoked(g, o, s), Batch(g, o, s), |Pruned(g, s).path|;
            Cut(g, o, ran, s.idx, s.idx, end, b.path, cuts) && cuts[0] == end && Indexed(g, o, ran, b, s.idx, end)
  {
    PrunedShape(g, s);
    var ran := Invoked(g, o, s);
    assert Known(g, ran.path);
    hide Invoked, Pruned, RouteAll, Follows, WellFormed, LegalOrder, Known;
    assert Indexed(g, o, ran, ran, s.idx, s.idx);
    cuts := RouteAllFollows(g, o, ran, ran, s.idx, s.idx, |Pruned(g, s).path|);
  }

  /** Whatever an entry schedules is pending after the batch, or was its last entry. */
  lemma ScheduledIsPending(g: Graph, o: Oracle, s: RunState, before: seq<Id>, ids: seq<Id>, after: seq<Id>, d: Id)
    requires LegalOrder(o) && s.idx <= |s.path| && s.idx < |Pruned(g, s).path| <= |before| && after <= Batch(g, o, s).path
    requires Scheduled(before, ids, after) && d in ids
    ensures d in Batch(g, o, s).path[|Pruned(g, s).path| - 1..]
  {
    hide Prune, RouteAll, InvokeAll;
    var end, b := |Pruned(g, s).path|, Batch(g, o, s).path;
    var at :| Appends(before, ids, after, at);
    var j :| 0 <= j < |ids| && ids[j] == d;
    assert b[end - 1..][at[j] - (end - 1)] == d;
  }

  /** In particular: each answered successor of a Categorize or Switch without an error, and each goto of an
      entry with one. */
  lemma AnswersAreScheduled(g: Graph, o: Oracle, s: RunState, p: nat, d: Id)
    requires WellFormed(g) && LegalOrder(o) && Known(g, s.path) && s.idx <= |s.path| && s.idx <= p < |Pruned(g, s).path|
    requires var id := Pruned(g, s).path[p]; var c := Lookup(g, id);
             if id in Invoked(g, o, s).errs && c.handler.Handler? && c.handler.goto != [] then d in c.handler.goto
             else c.kind.Router? && d in o.answer(p, id).next
    ensures d in Batch(g, o, s).path[|Pruned(g, s).path| - 1..]
  {
    hide Prune, RouteAll, InvokeAll, WellFormed, LegalOrder, Indexed, Scheduled, Batch;
    var cuts := BatchSchedules(g, o, s);
    var end, b, j := |Pruned(g, s).path|, Batch(g, o, s).path, p - s.idx;
    var id := Pruned(g, s).path[p];
    var c := Lookup(g, id);
    var before, after := b[..cuts[j]], b[..cuts[j + 1]];
    assert FollowsAt(g, o, Invoked(g, o, s), s.idx, s.idx, b, cuts, j);
    assert Follows(g, o, Invoked(g, o, s), s.idx, p, before, after);
    if id in Invoked(g, o, s).errs && c.handler.Handler? && c.handler.goto != [] {
      var i :| 0 <= i < |c.handler.goto| && c.handler.goto[i] == d;
      assert after[cuts[j] + i] == d && cuts[j] >= cuts[0] == end;
      assert b[end - 1..][cuts[j] + i - (end - 1)] == d;
    } else {
      ScheduledIsPending(g, o, s, before, o.answer(p, id).next, after, d);
    }
  }
}
