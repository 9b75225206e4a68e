/**
 Runs through one Iteration or Loop container whose body is a chain.
 The container holds at most one pending entry (its token). Each batch moves the token one
 place along the chain and back to the item, so passes can be counted and results collected.
 */
module CanvasContainer {
  import opened Prelude
  import opened CanvasModel
  import opened CanvasRuns

  /** A container `it`, the item it starts with, and the chain of its body. */
  datatype Cycle = Cycle(it: Id, item: Id, body: seq<Id>)

  function Inside(k: Cycle): set<Id> {
    {k.it, k.item} + set x | x in k.body
  }

  /** Place `r` of a pass: the item, then the body. */
  function At(k: Cycle, r: nat): Id
    requires r <= |k.body|
  {
    if r == 0 then k.item else k.body[r - 1]
  }

  predicate Distinct(k: Cycle) {
    && |k.body| > 0 && k.it != k.item && k.it !in k.body && k.item !in k.body
    && forall i, j :: 0 <= i < j < |k.body| ==> k.body[i] != k.body[j]
  }

  predicate ChainLink(g: Graph, k: Cycle, j: nat)
    requires j < |k.body|
  {
    && k.body[j] in g
    && g[k.body[j]].kind.Other?
    && g[k.body[j]].parent == Some(k.it)
    && g[k.body[j]].downstream == if j + 1 < |k.body| then [k.body[j + 1]] else []
  }

  predicate LeavesOnly(k: Cycle, ids: seq<Id>) {
    forall d :: d in ids ==> d !in Inside(k)
  }

  /** The body is a chain, entered only through `it`, left only through `it`'s downstream or a goto. */
  ghost predicate ChainContainer(g: Graph, k: Cycle) {
    && Distinct(k)
    && k.it in g && k.item in g
    && IsContainer(g[k.it].kind) && StartOf(g[k.it].kind) == k.item && g[k.item].parent == Some(k.it)
    && (if g[k.it].kind.Iteration? then g[k.item].kind.IterationItem? else g[k.item].kind.LoopItem?)
    && g[k.item].downstream == [k.body[0]]
    && (forall j: nat :: j < |k.body| ==> ChainLink(g, k, j))
    && LeavesOnly(k, g[k.it].downstream)
    && (forall x :: x in Inside(k) ==> LeavesOnly(k, Goto(Lookup(g, x))))
    && (forall c, d {:trigger Edge(g, c, d)} :: c in g && c !in Inside(k) && d in Inside(k) && Edge(g, c, d) ==> d == k.it)
    && (forall c {:trigger g[c].parent} :: c in g && g[c].parent == Some(k.it) ==> c in Inside(k))
  }

  ghost function NextOf(k: Cycle, x: Id): Id
    requires Distinct(k) && x in Inside(k)
  {
    if x == k.it then k.item
    else if x == k.item then k.body[0]
    else var j :| 0 <= j < |k.body| && k.body[j] == x; if j + 1 < |k.body| then k.body[j + 1] else k.item
  }

  lemma NextAt(k: Cycle, r: nat)
    requires Distinct(k) && r <= |k.body|
    ensures At(k, r) in Inside(k)
    ensures NextOf(k, At(k, r)) == if r < |k.body| then At(k, r + 1) else k.item
  {
  }

  lemma NextDiffers(k: Cycle, x: Id)
    requires Distinct(k) && x in Inside(k)
    ensures NextOf(k, x) != x && NextOf(k, x) in Inside(k) && NextOf(k, x) != k.it
    ensures NextOf(k, x) == k.body[0] <==> x == k.item
  {
  }

  lemma TargetsInside(g: Graph, k: Cycle, s: RunState, x: Id, a: Answer)
    requires ChainContainer(g, k) && x in Inside(k)
    ensures Targets(g, s, x, a) == if Ends(g, s, x, a) then g[k.it].downstream else [NextOf(k, x)]
    ensures Ends(g, s, x, a) ==> x == k.item
  {
    hide Edge;
    if x != k.it && x != k.item {
      var j :| 0 <= j < |k.body| && k.body[j] == x;
      assert ChainLink(g, k, j);
    }
  }

  // ---------------------------------------------------------------- the token in a routing phase

  /** The container's entries among the positions from `n` on. */
  function Tokens(k: Cycle, path: seq<Id>, n: nat): seq<Id>
    requires n <= |path|
  {
    Keep(path[n..], Inside(k))
  }

  lemma TokensGrow(k: Cycle, a: seq<Id>, b: seq<Id>, n: nat)
    requires n <= |a| && a <= b
    ensures Tokens(k, b, n) == Tokens(k, a, n) + Keep(b[|a|..], Inside(k))
  {
    assert b[n..] == a[n..] + b[|a|..];
    KeepConcat(a[n..], b[|a|..], Inside(k));
  }

  lemma ExtendOutside(k: Cycle, path: seq<Id>, ids: seq<Id>, n: nat)
    requires n <= |path| && LeavesOnly(k, ids)
    ensures path <= ExtendPath(path, ids) && Tokens(k, ExtendPath(path, ids), n) == Tokens(k, path, n)
  {
    ExtendGrows(path, ids);
    var r := ExtendPath(path, ids);
    TokensGrow(k, path, r, n);
    KeepNone(r[|path|..], Inside(k));
  }

  lemma SuffixGrows(a: seq<Id>, b: seq<Id>, n: nat)
    requires n <= |a| && a <= b
    ensures forall x :: x in a[n..] ==> x in b[n..]
  {
    assert b[n..] == a[n..] + b[|a|..];
  }

  lemma {:induction false} ExtendContains(path: seq<Id>, ids: seq<Id>, d: Id)
    requires d in ids
    ensures exists p :: |path| - 1 <= p < |ExtendPath(path, ids)| && p >= 0 && ExtendPath(path, ids)[p] == d
    decreases |ids|
  {
    var p1 := AppendPath(path, ids[0]);
    ExtendGrows(p1, ids[1..]);
    if d == ids[0] {
      assert p1[|p1| - 1] == d && ExtendPath(path, ids)[|p1| - 1] == d;
    } else {
      ExtendContains(p1, ids[1..], d);
      var p :| |p1| - 1 <= p < |ExtendPath(p1, ids[1..])| && p >= 0 && ExtendPath(p1, ids[1..])[p] == d;
      assert ExtendPath(path, ids)[p] == d && |path| <= |p1|;
    }
  }

  /** Routing an entry outside the container touches neither the token nor the item's counter. */
  lemma RouteOutside(g: Graph, o: Oracle, k: Cycle, s: RunState, i: nat, n: nat)
    requires WellFormed(g) && LegalOracle(g, o) && ChainContainer(g, k) && Known(g, s.path)
    requires i < n <= |s.path| && s.path[i] !in Inside(k)
    requires k.it !in Route(g, o, s, i).path[n..]
    ensures s.path <= Route(g, o, s, i).path
    ensures Tokens(k, Route(g, o, s, i).path, n) == Tokens(k, s.path, n)
    ensures Counter(Route(g, o, s, i), k.item) == Counter(s, k.item)
  {
    RouteEdges(g, o, s, i);
    var r := Route(g, o, s, i).path;
    hide Edge, Targets, Keep;
    TokensGrow(k, s.path, r, n);
    forall x | x in r[|s.path|..]
      ensures x !in Inside(k)
    {
      var p :| |s.path| <= p < |r| && r[p] == x;
      assert Edge(g, s.path[i], r[p]);
      assert r[n..][p - n] == x;
    }
    KeepNone(r[|s.path|..], Inside(k));
  }

  /** The entry jumps to its error goto instead of being routed. */
  predicate Jumps(g: Graph, s: RunState, x: Id) {
    x in s.errs && Goto(Lookup(g, x)) != []
  }

  lemma RouteInsidePath(g: Graph, o: Oracle, k: Cycle, s: RunState, i: nat)
    requires ChainContainer(g, k) && i < |s.path| && s.path[i] in Inside(k)
    ensures var x := s.path[i]; var a := o.answer(i, x); var r := Route(g, o, s, i);
            && r.path == (if Jumps(g, s, x) then s.path + Goto(Lookup(g, x))
                          else ExtendPath(s.path, if Ends(g, s, x, a) then g[k.it].downstream else [NextOf(k, x)]))
            && Counter(r, k.item) == (if Ends(g, s, x, a) then -1 else Counter(s, k.item))
            && LeavesOnly(k, Goto(Lookup(g, x)))
  {
    hide Edge, Targets, Ends, ChainLink, ExtendPath;
    TargetsInside(g, k, s, s.path[i], o.answer(i, s.path[i]));
  }

  lemma ExtendByOne(k: Cycle, path: seq<Id>, d: Id, n: nat)
    requires 0 < n <= |path| && path[|path| - 1] != d && d in Inside(k)
    ensures path <= ExtendPath(path, [d]) && Tokens(k, ExtendPath(path, [d]), n) == Tokens(k, path, n) + [d]
  {
    assert ExtendPath(path, [d]) == ExtendPath(path + [d], [d][1..]) == path + [d];
    TokensGrow(k, path, path + [d], n);
    assert (path + [d])[|path|..] == [d];
    assert Keep([d], Inside(k)) == [d] + Keep([d][1..], Inside(k)) == [d];
  }

  lemma ExtendByMany(k: Cycle, path: seq<Id>, ids: seq<Id>, n: nat)
    requires 0 < n <= |path| && LeavesOnly(k, ids)
    ensures path <= ExtendPath(path, ids) && Tokens(k, ExtendPath(path, ids), n) == Tokens(k, path, n)
    ensures forall d :: d in ids ==> d in ExtendPath(path, ids)[n - 1..]
  {
    hide LeavesOnly;
    ExtendOutside(k, path, ids, n);
    var r := ExtendPath(path, ids);
    forall d | d in ids
      ensures d in r[n - 1..]
    {
      ExtendContains(path, ids, d);
      var p :| |path| - 1 <= p < |r| && p >= 0 && r[p] == d;
      assert r[n - 1..][p - n + 1] == d;
    }
  }

  lemma JumpOutside(k: Cycle, path: seq<Id>, ids: seq<Id>, n: nat)
    requires n <= |path| && LeavesOnly(k, ids)
    ensures Tokens(k, path + ids, n) == Tokens(k, path, n)
  {
    TokensGrow(k, path, path + ids, n);
    assert (path + ids)[|path|..] == ids;
    KeepNone(ids, Inside(k));
  }

  /** Routing the token moves it to its next place, unless the item ended or an error goto left the container. */
  lemma RouteInside(g: Graph, o: Oracle, k: Cycle, s: RunState, i: nat, n: nat)
    requires ChainContainer(g, k) && i < n <= |s.path| && s.path[i] in Inside(k)
    requires s.path[|s.path| - 1] != NextOf(k, s.path[i])
    ensures var x := s.path[i]; var a := o.answer(i, x); var r := Route(g, o, s, i);
            && s.path <= r.path
            && Tokens(k, r.path, n) == Tokens(k, s.path, n) +
                 (if Jumps(g, s, x) || Ends(g, s, x, a) then [] else [NextOf(k, x)])
            && Counter(r, k.item) == (if Ends(g, s, x, a) then -1 else Counter(s, k.item))
            && (!Jumps(g, s, x) && Ends(g, s, x, a) ==>
                  forall d :: d in g[k.it].downstream ==> d in r.path[n - 1..])
  {
    hide Edge, Targets, Ends, Route, Jumps, ChainLink, ExtendPath, Tokens, LeavesOnly;
    var x := s.path[i];
    RouteInsidePath(g, o, k, s, i);
    NextDiffers(k, x);
    JumpOutside(k, s.path, Goto(Lookup(g, x)), n);
    ExtendByOne(k, s.path, NextOf(k, x), n);
    ExtendByMany(k, s.path, g[k.it].downstream, n);
  }

  lemma {:induction false} RouteAllWithoutToken(g: Graph, o: Oracle, k: Cycle, s: RunState, i: nat, end: nat)
    requires WellFormed(g) && LegalOracle(g, o) && ChainContainer(g, k) && Known(g, s.path)
    requires i <= end <= |s.path|
    requires forall p :: i <= p < end ==> s.path[p] !in Inside(k)
    requires k.it !in RouteAll(g, o, s, i, end).path[end..]
    ensures Tokens(k, RouteAll(g, o, s, i, end).path, end) == Tokens(k, s.path, end)
    ensures Counter(RouteAll(g, o, s, i, end), k.item) == Counter(s, k.item)
    decreases end - i
  {
    hide Edge, Targets, Keep, Route;
    if i < end {
      var s1 := Route(g, o, s, i);
      var r := RouteAll(g, o, s, i, end);
      RouteEdges(g, o, s, i);
      assert s1.path <= r.path;
      SuffixGrows(s1.path, r.path, end);
      RouteOutside(g, o, k, s, i, end);
      RouteAllWithoutToken(g, o, k, s1, i + 1, end);
    }
  }

  /** The token sits at position `p`, and nowhere else among [i, end). */
  predicate OnlyAt(k: Cycle, path: seq<Id>, i: nat, end: nat, p: nat)
    requires end <= |path|
  {
    && i <= p < end && path[p] in Inside(k)
    && forall q :: i <= q < end && q != p ==> path[q] !in Inside(k)
  }

  lemma NextNotLast(k: Cycle, path: seq<Id>, i: nat, end: nat)
    requires Distinct(k) && end <= |path| && OnlyAt(k, path, i, end, i) && Tokens(k, path, end) == []
    ensures path[|path| - 1] != NextOf(k, path[i])
  {
    NextDiffers(k, path[i]);
    var last := path[|path| - 1];
    if |path| > end {
      assert last == path[end..][|path| - 1 - end] && last !in Keep(path[end..], Inside(k));
    }
  }

  lemma ChainIsDistinct(g: Graph, k: Cycle)
    requires ChainContainer(g, k)
    ensures Distinct(k) && k.it in g && k.body != []
  {
  }

  lemma {:induction false} RouteAllToken(g: Graph, o: Oracle, k: Cycle, s: RunState, i: nat, end: nat, p: nat)
    requires WellFormed(g) && LegalOracle(g, o) && ChainContainer(g, k) && Known(g, s.path)
    requires i <= end <= |s.path| && OnlyAt(k, s.path, i, end, p) && Tokens(k, s.path, end) == []
    requires k.it !in RouteAll(g, o, s, i, end).path[end..]
    ensures var x := s.path[p]; var a := o.answer(p, x); var r := RouteAll(g, o, s, i, end);
            && Tokens(k, r.path, end) == (if Jumps(g, s, x) || EndsAt(g, k, s, x, a) then [] else [NextOf(k, x)])
            && Counter(r, k.item) == (if EndsAt(g, k, s, x, a) then -1 else Counter(s, k.item))
            && (!Jumps(g, s, x) && EndsAt(g, k, s, x, a) ==>
                  forall d :: d in g[k.it].downstream ==> d in r.path[end - 1..])
    decreases end - i
  {
    hide Edge, Targets, Keep, Route, ChainContainer, WellFormed, LegalOracle, Ends, NextOf, Inside;
    ChainIsDistinct(g, k);
    var x := s.path[p];
    var s1 := Route(g, o, s, i);
    var r := RouteAll(g, o, s, i, end);
    RouteEdges(g, o, s, i);
    RouteKeepsErrors(g, o, s, i);
    assert s.path <= s1.path <= r.path;
    SuffixGrows(s1.path, r.path, end);
    EndsDependsOnCounter(g, k, s, x, o.answer(p, x));
    if i == p {
      NextNotLast(k, s.path, i, end);
      RouteInside(g, o, k, s, i, end);
      RouteAllWithoutToken(g, o, k, s1, i + 1, end);
      SuffixGrows(s1.path, r.path, end - 1);
    } else {
      RouteOutside(g, o, k, s, i, end);
      RouteAllToken(g, o, k, s1, i + 1, end, p);
    }
  }

  lemma RouteKeepsErrors(g: Graph, o: Oracle, s: RunState, i: nat)
    requires i < |s.path|
    ensures Route(g, o, s, i).errs == s.errs && Route(g, o, s, i).outs == s.outs
  {
  }

  /** `Ends` for a place of the container: only the item ends, by its counter or the stop condition. */
  predicate EndsAt(g: Graph, k: Cycle, s: RunState, x: Id, a: Answer) {
    x == k.item && (Counter(s, k.item) == -1 || (Lookup(g, k.item).kind.LoopItem? && a.stop))
  }

  lemma EndsDependsOnCounter(g: Graph, k: Cycle, s: RunState, x: Id, a: Answer)
    requires ChainContainer(g, k) && x in Inside(k)
    ensures Ends(g, s, x, a) <==> EndsAt(g, k, s, x, a)
  {
    TargetsInside(g, k, s, x, a);
  }

  // ---------------------------------------------------------------- the token in an invocation phase

  /** The two states agree on everything the container's components read or write. */
  ghost predicate SameInside(k: Cycle, a: RunState, b: RunState) {
    && a.path == b.path
    && Counter(a, k.item) == Counter(b, k.item)
    && forall x :: x in Inside(k) ==>
         Outputs(a, x) == Outputs(b, x) && (x in a.errs <==> x in b.errs)
  }

  lemma IterationItemFrame(g: Graph, s: RunState, id: Id, a: Answer, x: Id)
    requires x != id && Lookup(g, id).parent != Some(x)
    ensures var r := InvokeIterationItem(g, s, id, a);
            && Counter(r, x) == Counter(s, x) && Outputs(r, x) == Outputs(s, x)
            && (x in r.errs <==> x in s.errs)
  {
    hide Collation;
  }

  /** An invocation writes only its own component, and its parent if it is an iteration item. */
  lemma InvokeFrame(g: Graph, o: Oracle, s: RunState, p: nat, x: Id)
    requires p < |s.path| && x != s.path[p]
    requires Lookup(g, s.path[p]).kind.IterationItem? ==> Lookup(g, s.path[p]).parent != Some(x)
    ensures var r := Invoke(g, o, s, p);
            && Counter(r, x) == Counter(s, x) && Outputs(r, x) == Outputs(s, x)
            && (x in r.errs <==> x in s.errs)
  {
    hide Collation, InvokeIterationItem;
    var id := s.path[p];
    if Lookup(g, id).kind.IterationItem? {
      IterationItemFrame(g, s, id, o.answer(p, id), x);
    }
  }

  lemma OnlyContainer(g: Graph, k: Cycle, x: Id)
    requires ChainContainer(g, k) && x in Inside(k)
    ensures x in g && (IsContainer(g[x].kind) ==> x == k.it)
  {
    hide Edge;
    if x in k.body {
      var j :| 0 <= j < |k.body| && k.body[j] == x;
      assert ChainLink(g, k, j);
    }
  }

  lemma InvokeOutside(g: Graph, o: Oracle, k: Cycle, s: RunState, p: nat)
    requires WellFormed(g) && ChainContainer(g, k) && Known(g, s.path)
    requires p < |s.path| && s.path[p] !in Inside(k)
    ensures SameInside(k, s, Invoke(g, o, s, p))
  {
    hide Edge, Invoke;
    var id := s.path[p];
    assert ComponentOk(g, id);
    forall x | x in Inside(k)
      ensures Lookup(g, id).kind.IterationItem? ==> Lookup(g, id).parent != Some(x)
    {
      OnlyContainer(g, k, x);
    }
    forall x | x in Inside(k)
      ensures var r := Invoke(g, o, s, p);
              Counter(r, x) == Counter(s, x) && Outputs(r, x) == Outputs(s, x) && (x in r.errs <==> x in s.errs)
    {
      InvokeFrame(g, o, s, p, x);
    }
    assert k.item in Inside(k);
  }

  lemma {:induction false} InvokeAllOutside(g: Graph, o: Oracle, k: Cycle, s: RunState, ps: seq<nat>)
    requires WellFormed(g) && ChainContainer(g, k) && Known(g, s.path)
    requires forall m :: 0 <= m < |ps| ==> ps[m] < |s.path| && s.path[ps[m]] !in Inside(k)
    ensures SameInside(k, s, InvokeAll(g, o, s, ps))
    decreases |ps|
  {
    hide Invoke, ChainContainer;
    if ps != [] {
      InvokeOutside(g, o, k, s, ps[0]);
      InvokeAllOutside(g, o, k, Invoke(g, o, s, ps[0]), ps[1..]);
    }
  }

  /** In whatever order a batch runs, the container sees only its token's invocation, in a
      state `before` that agrees with the one the batch started from. */
  lemma {:induction false} InvokeAllToken(g: Graph, o: Oracle, k: Cycle, s: RunState, ps: seq<nat>, m: nat)
    returns (before: RunState)
    requires WellFormed(g) && ChainContainer(g, k) && Known(g, s.path) && m < |ps|
    requires forall q :: 0 <= q < |ps| ==> ps[q] < |s.path| && (s.path[ps[q]] in Inside(k) <==> q == m)
    ensures SameInside(k, s, before)
    ensures SameInside(k, Invoke(g, o, before, ps[m]), InvokeAll(g, o, s, ps))
    decreases |ps|
  {
    hide Invoke, ChainContainer;
    var s1 := Invoke(g, o, s, ps[0]);
    if m == 0 {
      InvokeAllOutside(g, o, k, s1, ps[1..]);
      before := s;
    } else {
      InvokeOutside(g, o, k, s, ps[0]);
      before := InvokeAllToken(g, o, k, s1, ps[1..], m - 1);
    }
  }

  // ---------------------------------------------------------------- the token over one batch

  lemma {:induction false} OneKept(s: seq<Id>, keep: set<Id>, x: Id) returns (p: nat)
    requires Keep(s, keep) == [x]
    ensures p < |s| && s[p] == x && x in keep && forall q :: 0 <= q < |s| && q != p ==> s[q] !in keep
  {
    if s[0] in keep {
      p := 0;
      forall q | 0 < q < |s|
        ensures s[q] !in keep
      {
        assert s[q] == s[1..][q - 1] && s[q] !in Keep(s[1..], keep);
      }
    } else {
      var r := OneKept(s[1..], keep, x);
      p := r + 1;
    }
  }

  /** The inputs of `id` are all in `done`, so it is never dropped after `done`. */
  predicate InputsIn(g: Graph, done: seq<Id>, id: Id) {
    forall r :: r in Lookup(g, id).refs ==> r in done
  }

  lemma KeptWhenReady(g: Graph, done: seq<Id>, id: Id, x: Id)
    ensures InputsIn(g, done, x) ==> Kept(g, done, x) && InputsIn(g, done + [id], x)
  {
    hide NamesFillUp;
  }

  lemma {:induction false} PruneToken(g: Graph, k: Cycle, done: seq<Id>, rest: seq<Id>)
    requires |Keep(rest, Inside(k))| <= 1
    ensures done <= Prune(g, done, rest)
    ensures var left := Keep(Prune(g, done, rest)[|done|..], Inside(k));
            && (left == [] || left == Keep(rest, Inside(k)))
            && ((forall x :: x in Keep(rest, Inside(k)) ==> InputsIn(g, done, x)) ==> left == Keep(rest, Inside(k)))
    decreases |rest|
  {
    hide Kept, InputsIn, Inside;
    var r := Prune(g, done, rest);
    PruneShape(g, done, rest);
    if rest != [] {
      forall x | InputsIn(g, done, x)
        ensures Kept(g, done, x) && InputsIn(g, done + [rest[0]], x)
      {
        KeptWhenReady(g, done, rest[0], x);
      }
      if Kept(g, done, rest[0]) {
        PruneToken(g, k, done + [rest[0]], rest[1..]);
        assert r[|done|..] == [rest[0]] + r[|done| + 1..];
      } else {
        PruneToken(g, k, done, rest[1..]);
      }
    }
  }

  lemma NoTokenLeft(g: Graph, k: Cycle, s: RunState)
    requires Ready(s) && Keep(Pruned(g, s).path[s.idx..], Inside(k)) == []
    ensures forall p :: s.idx <= p < |Pruned(g, s).path| ==> Pruned(g, s).path[p] !in Inside(k)
  {
    var path := Pruned(g, s).path;
    hide Pruned;
    forall p | s.idx <= p < |path|
      ensures path[p] !in Inside(k)
    {
      assert path[p] == path[s.idx..][p - s.idx];
    }
  }

  /** If no token survives the pruning, only `it` itself can become pending. */
  lemma OnlyEntryFollows(g: Graph, o: Oracle, k: Cycle, s: RunState)
    requires WellFormed(g) && LegalOracle(g, o) && ChainContainer(g, k) && Known(g, s.path) && Ready(s)
    requires Keep(Pruned(g, s).path[s.idx..], Inside(k)) == []
    ensures forall x :: x in Batch(g, o, s).path[|Pruned(g, s).path|..] && x in Inside(k) ==> x == k.it
  {
    PrunedShape(g, s);
    BatchEdges(g, o, s);
    NoTokenLeft(g, k, s);
    var path := Pruned(g, s).path;
    var b := Batch(g, o, s).path;
    hide Batch, Pruned, Edge;
    forall x | x in b[|path|..] && x in Inside(k)
      ensures x == k.it
    {
      var p :| |path| <= p < |b| && b[p] == x;
      assert FromBatch(g, path, s.idx, |path|, b[p]);
      var q :| s.idx <= q < |path| && Edge(g, path[q], b[p]);
    }
  }

  /** How one batch treats the token `x`, kept at position `p` and invoked in state `before`. */
  ghost predicate TokenMoves(g: Graph, o: Oracle, k: Cycle, s: RunState, x: Id, p: nat, before: RunState)
    requires LegalOrder(o) && Ready(s) && Distinct(k) && x in Inside(k)
  {
    var path := Pruned(g, s).path;
    var b := Batch(g, o, s);
    var ran := Invoked(g, o, s);
    var a := o.answer(p, x);
    && s.idx <= p < |path| && path[p] == x
    && SameInside(k, Pruned(g, s), before)
    && SameInside(k, Invoke(g, o, before, p), ran)
    && Tokens(k, b.path, |path|) == (if Jumps(g, ran, x) || EndsAt(g, k, ran, x, a) then [] else [NextOf(k, x)])
    && Counter(b, k.item) == (if EndsAt(g, k, ran, x, a) then -1 else Counter(ran, k.item))
    && (!Jumps(g, ran, x) && EndsAt(g, k, ran, x, a) ==>
          forall d :: d in Lookup(g, k.it).downstream ==> d in b.path[|path| - 1..])
  }

  lemma TokenPosition(k: Cycle, path: seq<Id>, i: nat, x: Id) returns (p: nat)
    requires i <= |path| && Keep(path[i..], Inside(k)) == [x]
    ensures OnlyAt(k, path, i, |path|, p) && path[p] == x
  {
    var off := OneKept(path[i..], Inside(k), x);
    p := i + off;
    forall q | i <= q < |path|
      ensures path[q] in Inside(k) <==> q == p
    {
      assert path[q] == path[i..][q - i];
    }
  }

  lemma OrderHits(k: Cycle, path: seq<Id>, ps: seq<nat>, i: nat, p: nat) returns (m: nat)
    requires i <= |path| && OnlyAt(k, path, i, |path|, p) && Permutes(ps, i, |path|)
    ensures m < |ps| && ps[m] == p
    ensures forall q :: 0 <= q < |ps| ==> ps[q] < |path| && (path[ps[q]] in Inside(k) <==> q == m)
  {
    m := PermutationHits(ps, i, |path|, p);
  }

  lemma TokenRuns(g: Graph, o: Oracle, k: Cycle, s: RunState, p: nat) returns (before: RunState)
    requires WellFormed(g) && LegalOracle(g, o) && ChainContainer(g, k) && Known(g, s.path) && Ready(s)
    requires OnlyAt(k, Pruned(g, s).path, s.idx, |Pruned(g, s).path|, p)
    ensures SameInside(k, Pruned(g, s), before)
    ensures SameInside(k, Invoke(g, o, before, p), Invoked(g, o, s))
  {
    PrunedShape(g, s);
    var path := Pruned(g, s).path;
    var ps := o.order(s.idx, |path|);
    assert Permutes(ps, s.idx, |path|);
    hide Invoke, ChainContainer, Edge, WellFormed, LegalOracle, Pruned, Known, Keep;
    assert Known(g, path);
    var m := OrderHits(k, path, ps, s.idx, p);
    hide OnlyAt, Permutes;
    before := InvokeAllToken(g, o, k, Pruned(g, s), ps, m);
  }

  lemma NoTokensYet(k: Cycle, path: seq<Id>)
    ensures Tokens(k, path, |path|) == []
  {
    assert path[|path|..] == [];
  }

  lemma BatchWithToken(g: Graph, o: Oracle, k: Cycle, s: RunState, x: Id) returns (p: nat, before: RunState)
    requires WellFormed(g) && LegalOracle(g, o) && ChainContainer(g, k) && Known(g, s.path) && Ready(s)
    requires x in Inside(k) && Keep(Pruned(g, s).path[s.idx..], Inside(k)) == [x]
    requires k.it !in Batch(g, o, s).path[|Pruned(g, s).path|..]
    ensures TokenMoves(g, o, k, s, x, p, before)
  {
    hide Prune, Kept, Edge, Invoke, ChainContainer, EndsAt, Jumps, WellFormed, RoutesDeclared, LegalOrder, Invoked, Pruned, Known,
         Keep, SameInside, OnlyAt, Batch;
    ChainIsDistinct(g, k);
    PrunedShape(g, s);
    var path := Pruned(g, s).path;
    p := TokenPosition(k, path, s.idx, x);
    TokenIsInside(k, path, s.idx, p);
    before := TokenRuns(g, o, k, s, p);
    NoTokensYet(k, path);
    assert Known(g, Invoked(g, o, s).path);
    BatchIs(g, o, s);
    RouteAllToken(g, o, k, Invoked(g, o, s), s.idx, |path|, p);
  }

  lemma TokenIsInside(k: Cycle, path: seq<Id>, i: nat, p: nat)
    requires OnlyAt(k, path, i, |path|, p)
    ensures i <= p < |path|
  {
  }

  lemma BatchIs(g: Graph, o: Oracle, s: RunState)
    requires LegalOrder(o) && Ready(s)
    ensures Batch(g, o, s) == RouteAll(g, o, Invoked(g, o, s), s.idx, |Pruned(g, s).path|)
  {
  }

  // ---------------------------------------------------------------- counting passes

  /** An error of the item neither fails the run nor leaves the container: the next pass starts, uncounted. */
  predicate FallsThrough(g: Graph, k: Cycle) {
    var h := Lookup(g, k.item).handler;
    h.Handler? && h.goto == [] && h.hasDefault
  }

  /** The graph lets a failure of the item start a pass nobody counts: its exceptions are swallowed, or its
      errors fall through. */
  predicate Hides(g: Graph, k: Cycle) {
    Lookup(g, k.item).swallows || FallsThrough(g, k)
  }

  /** In this environment the item does not fail in a way that is hidden. */
  ghost predicate ItemAdvances(g: Graph, o: Oracle, k: Cycle) {
    forall p: nat {:trigger o.answer(p, k.item)} ::
      var a := o.answer(p, k.item);
      && (Lookup(g, k.item).swallows ==> !a.raises)
      && (FallsThrough(g, k) ==> !a.fails && !a.raises && !a.cancelLate)
  }

  /** The container makes at most `n` passes: the length of the array, or the Loop's maximum. */
  ghost predicate Within(g: Graph, o: Oracle, k: Cycle, n: nat) {
    var kind := Lookup(g, k.it).kind;
    if kind.Loop? then kind.maxLoops <= n
    else forall p: nat {:trigger o.answer(p, k.item)} ::
           o.answer(p, k.item).items.Some? ==> |o.answer(p, k.item).items.value| <= n
  }

  /** All its passes are counted, too: the graph hides no failure of the item, or there is none to hide. */
  ghost predicate PassesWithin(g: Graph, o: Oracle, k: Cycle, n: nat) {
    Within(g, o, k, n) && (Hides(g, k) ==> ItemAdvances(g, o, k))
  }

  lemma ItemCounts(g: Graph, o: Oracle, k: Cycle, s: RunState, p: nat, n: nat)
    requires ChainContainer(g, k) && PassesWithin(g, o, k, n)
    requires p < |s.path| && s.path[p] == k.item && 0 <= Counter(s, k.item) <= n
    ensures var r := Invoke(g, o, s, p);
            && (Counter(r, k.item) == Counter(s, k.item) ==> k.item in r.errs && !FallsThrough(g, k))
            && (Counter(r, k.item) in {Counter(s, k.item), -1} || Counter(r, k.item) == Counter(s, k.item) + 1 <= n)
  {
    hide Edge, ChainLink, Collation;
    var a := o.answer(p, k.item);
    assert Hides(g, k) ==> (Lookup(g, k.item).swallows ==> !a.raises);
    assert FallsThrough(g, k) ==> !a.fails && !a.raises && !a.cancelLate;
    assert a.items.Some? && Lookup(g, k.it).kind.Iteration? ==> |o.answer(p, k.item).items.value| <= n;
    assert ComponentKind(g, k);
  }

  predicate ComponentKind(g: Graph, k: Cycle) {
    Parent(g, Lookup(g, k.item)) == Lookup(g, k.it)
  }

  lemma OthersDoNotCount(g: Graph, o: Oracle, k: Cycle, s: RunState, p: nat)
    requires ChainContainer(g, k) && p < |s.path| && s.path[p] in Inside(k) && s.path[p] != k.item
    ensures Counter(Invoke(g, o, s, p), k.item) == Counter(s, k.item)
  {
    hide Edge;
    if s.path[p] in k.body {
      var j :| 0 <= j < |k.body| && k.body[j] == s.path[p];
      assert ChainLink(g, k, j);
    }
  }

  predicate AtMostOnce(path: seq<Id>, lo: nat, x: Id) {
    forall i, j :: lo <= i < j < |path| ==> !(path[i] == x && path[j] == x)
  }

  predicate Executed(path: seq<Id>, lo: nat, hi: nat, x: Id)
    requires hi <= |path|
  {
    exists p :: lo <= p < hi && path[p] == x
  }

  /** One token at most; anything but a fresh counter and a waiting `it` means `it` has been executed;
      once the item ended, no token is left. */
  ghost predicate TokenInv(k: Cycle, n: nat, lo: nat, s: RunState)
    requires Ready(s)
  {
    var tokens := Tokens(k, s.path, s.idx);
    var c := Counter(s, k.item);
    && lo <= s.idx && |tokens| <= 1 && -1 <= c <= n
    && (c != 0 || (tokens != [] && tokens[0] != k.it) ==> Executed(s.path, lo, s.idx, k.it))
    && (c == -1 ==> tokens == [])
  }

  /** What one batch does to the counter: a pass is used up exactly when the body is entered. */
  ghost predicate Progress(k: Cycle, n: nat, s: RunState, r: RunState)
    requires Ready(r)
  {
    var c := Counter(s, k.item);
    var c' := Counter(r, k.item);
    && (c' == c || c' == -1 || (0 <= c && c' == c + 1 <= n))
    && (k.body != [] && k.body[0] in Tokens(k, r.path, r.idx) ==> 0 <= c && c' == c + 1)
  }

  lemma RouteKeepsCounter(g: Graph, o: Oracle, s: RunState, i: nat, x: Id)
    requires i < |s.path| && s.path[i] != x
    ensures Counter(Route(g, o, s, i), x) == Counter(s, x)
  {
  }

  lemma {:induction false} RouteAllKeepsCounter(g: Graph, o: Oracle, s: RunState, i: nat, end: nat, x: Id)
    requires i <= end <= |s.path| && forall p :: i <= p < end ==> s.path[p] != x
    ensures Counter(RouteAll(g, o, s, i, end), x) == Counter(s, x)
    decreases end - i
  {
    hide Route;
    if i < end {
      RouteKeepsCounter(g, o, s, i, x);
      RouteAllKeepsCounter(g, o, Route(g, o, s, i), i + 1, end, x);
    }
  }

  lemma CounterWithoutToken(g: Graph, o: Oracle, k: Cycle, s: RunState)
    requires WellFormed(g) && LegalOracle(g, o) && ChainContainer(g, k) && Known(g, s.path) && Ready(s)
    requires Keep(Pruned(g, s).path[s.idx..], Inside(k)) == []
    ensures Counter(Batch(g, o, s), k.item) == Counter(s, k.item)
  {
    PrunedShape(g, s);
    NoTokenLeft(g, k, s);
    var path := Pruned(g, s).path;
    var ps := o.order(s.idx, |path|);
    assert Permutes(ps, s.idx, |path|);
    InvokeAllOutside(g, o, k, Pruned(g, s), ps);
    RouteAllKeepsCounter(g, o, Invoked(g, o, s), s.idx, |path|, k.item);
  }

  lemma {:induction false} KeepRepeats(s: seq<Id>, keep: set<Id>, x: Id)
    requires (forall y :: y in s && y in keep ==> y == x) && AtMostOnce(s, 0, x)
    ensures Keep(s, keep) == [] || Keep(s, keep) == [x]
  {
    if s != [] {
      if s[0] in keep {
        assert forall j :: 0 < j < |s| ==> s[j] == s[1..][j - 1];
        KeepNone(s[1..], keep);
      } else {
        KeepRepeats(s[1..], keep, x);
      }
    }
  }

  lemma ExecutedOnce(path: seq<Id>, lo: nat, hi: nat, x: Id)
    requires hi <= |path| && Executed(path, lo, hi, x) && AtMostOnce(path, lo, x)
    ensures x !in path[hi..]
  {
  }

  lemma ExecutedStays(a: seq<Id>, b: seq<Id>, lo: nat, i: nat, j: nat, x: Id)
    requires i <= |a| && i <= j <= |b| && a[..i] <= b && Executed(a, lo, i, x)
    ensures Executed(b, lo, j, x)
  {
    var p :| lo <= p < i && a[p] == x;
    assert a[..i][p] == x && b[p] == x;
  }

  lemma AtMostOnceIn(path: seq<Id>, lo: nat, hi: nat, x: Id)
    requires lo <= hi <= |path| && AtMostOnce(path, lo, x)
    ensures AtMostOnce(path[hi..], 0, x)
  {
  }

  /** What `Step` leaves when the run goes on. */
  lemma RunningStep(g: Graph, o: Oracle, s: RunState)
    requires LegalOrder(o) && Ready(s) && s.status.Running? && Step(g, o, s).status.Running?
    ensures var r := Step(g, o, s); var b := Batch(g, o, s);
            && r.path == b.path && r.idx == |Pruned(g, s).path| && r.counter == b.counter
            && r.errs == b.errs && r.outs == b.outs && !b.status.Failed?
            && s.idx <= r.idx && s.path[..s.idx] <= r.path && Pruned(g, s).path <= r.path
  {
  }

  /** A batch in which no token runs: `it` may become pending, for the first time. */
  lemma StepWithoutToken(g: Graph, o: Oracle, k: Cycle, n: nat, lo: nat, s: RunState)
    requires WellFormed(g) && LegalOracle(g, o) && ChainContainer(g, k) && Known(g, s.path) && Ready(s)
    requires TokenInv(k, n, lo, s) && Step(g, o, s).status.Running? && s.status.Running?
    requires AtMostOnce(Step(g, o, s).path, lo, k.it)
    requires Keep(Pruned(g, s).path[s.idx..], Inside(k)) == []
    ensures TokenInv(k, n, lo, Step(g, o, s)) && Progress(k, n, s, Step(g, o, s))
  {
    hide Step, Batch, Pruned, ChainContainer, Edge, WellFormed, LegalOracle, Keep, AtMostOnce, Known;
    OracleHasOrder(g, o);
    ChainIsDistinct(g, k);
    var r := Step(g, o, s);
    RunningStep(g, o, s);
    CounterWithoutToken(g, o, k, s);
    OnlyEntryFollows(g, o, k, s);
    NextDiffers(k, k.it);
    AtMostOnceIn(r.path, lo, r.idx, k.it);
    KeepRepeats(r.path[r.idx..], Inside(k), k.it);
    if Counter(s, k.item) != 0 {
      ExecutedStays(s.path, r.path, lo, s.idx, r.idx, k.it);
      ExecutedOnce(r.path, lo, r.idx, k.it);
      KeepNone(r.path[r.idx..], Inside(k));
    }
  }

  /** A batch that runs the token `x`. */
  lemma StepWithToken(g: Graph, o: Oracle, k: Cycle, n: nat, lo: nat, s: RunState, x: Id)
    requires WellFormed(g) && LegalOracle(g, o) && ChainContainer(g, k) && Known(g, s.path) && Ready(s)
    requires TokenInv(k, n, lo, s) && Step(g, o, s).status.Running? && s.status.Running?
    requires AtMostOnce(Step(g, o, s).path, lo, k.it) && PassesWithin(g, o, k, n) && x in Inside(k)
    requires Tokens(k, s.path, s.idx) == [x] && Keep(Pruned(g, s).path[s.idx..], Inside(k)) == [x]
    ensures TokenInv(k, n, lo, Step(g, o, s)) && Progress(k, n, s, Step(g, o, s))
  {
    hide Edge, Step, Batch, Pruned, WellFormed, PassesWithin, Keep, ChainContainer, AtMostOnce, Executed, LegalOracle, Known;
    ChainIsDistinct(g, k);
    OracleHasOrder(g, o);
    RunningStep(g, o, s);
    EntryIsExecuted(g, k, n, lo, s, x, Step(g, o, s));
    TokenBatch(g, o, k, n, s, x);
  }

  lemma OracleHasOrder(g: Graph, o: Oracle)
    requires LegalOracle(g, o)
    ensures LegalOrder(o)
  {
  }

  lemma TokenBatch(g: Graph, o: Oracle, k: Cycle, n: nat, s: RunState, x: Id)
    requires WellFormed(g) && LegalOracle(g, o) && ChainContainer(g, k) && Known(g, s.path) && Ready(s)
    requires x in Inside(k) && Keep(Pruned(g, s).path[s.idx..], Inside(k)) == [x] && PassesWithin(g, o, k, n)
    requires 0 <= Counter(s, k.item) <= n && s.status.Running? && !Batch(g, o, s).status.Failed?
    requires k.it !in Batch(g, o, s).path[|Pruned(g, s).path|..]
    ensures var b := Batch(g, o, s); var end := |Pruned(g, s).path|;
            var c, c' := Counter(s, k.item), Counter(b, k.item);
            && |Tokens(k, b.path, end)| <= 1
            && (c' == c || c' == -1 || c' == c + 1 <= n)
            && (c' == -1 ==> Tokens(k, b.path, end) == [])
            && (k.body[0] in Tokens(k, b.path, end) ==> c' == c + 1)
  {
    var p, before := BatchWithToken(g, o, k, s, x);
    hide Edge, Batch, Pruned, WellFormed, PassesWithin, TokenMoves, Keep;
    TokenCounts(g, o, k, n, s, x, p, before);
    TokenCountIsOne(g, o, k, s, x, p, before);
  }

  lemma EntryIsExecuted(g: Graph, k: Cycle, n: nat, lo: nat, s: RunState, x: Id, r: RunState)
    requires Ready(s) && TokenInv(k, n, lo, s) && Ready(r) && AtMostOnce(r.path, lo, k.it)
    requires Tokens(k, s.path, s.idx) == [x] && Keep(Pruned(g, s).path[s.idx..], Inside(k)) == [x]
    requires r.idx == |Pruned(g, s).path| && Pruned(g, s).path <= r.path
    ensures Executed(r.path, lo, r.idx, k.it) && k.it !in r.path[r.idx..]
  {
    hide AtMostOnce;
    var path := Pruned(g, s).path;
    hide Pruned;
    if x == k.it {
      var off := OneKept(path[s.idx..], Inside(k), x);
      assert path[s.idx..][off] == k.it;
      assert r.path[s.idx + off] == k.it;
    } else {
      ExecutedStays(s.path, r.path, lo, s.idx, r.idx, k.it);
    }
    ExecutedOnce(r.path, lo, r.idx, k.it);
  }

  lemma TokenCountIsOne(g: Graph, o: Oracle, k: Cycle, s: RunState, x: Id, p: nat, before: RunState)
    requires LegalOrder(o) && Ready(s) && Distinct(k) && x in Inside(k) && TokenMoves(g, o, k, s, x, p, before)
    ensures |Tokens(k, Batch(g, o, s).path, |Pruned(g, s).path|)| <= 1
  {
    hide Batch, Pruned, SameInside, EndsAt, Jumps, Tokens;
  }

  lemma TokenCounts(g: Graph, o: Oracle, k: Cycle, n: nat, s: RunState, x: Id, p: nat, before: RunState)
    requires LegalOrder(o) && Ready(s) && ChainContainer(g, k) && x in Inside(k) && PassesWithin(g, o, k, n)
    requires TokenMoves(g, o, k, s, x, p, before) && 0 <= Counter(s, k.item) <= n
    requires s.status.Running? && !Batch(g, o, s).status.Failed?
    ensures var b := Batch(g, o, s); var end := |Pruned(g, s).path|;
            var c, c' := Counter(s, k.item), Counter(b, k.item);
            && (c' == c || c' == -1 || c' == c + 1 <= n)
            && (c' == -1 ==> Tokens(k, b.path, end) == [])
            && (k.body[0] in Tokens(k, b.path, end) ==> c' == c + 1)
  {
    var ran := Invoked(g, o, s);
    NextDiffers(k, x);
    assert before.path[p] == x;
    if x == k.item {
      ItemCounts(g, o, k, before, p, n);
      if k.item in ran.errs {
        NotUnhandled(g, o, s, p);
      }
    } else {
      OthersDoNotCount(g, o, k, before, p);
    }
  }

  lemma NotUnhandled(g: Graph, o: Oracle, s: RunState, p: nat)
    requires LegalOrder(o) && Ready(s) && s.status.Running? && !Batch(g, o, s).status.Failed?
    requires s.idx <= p < |Pruned(g, s).path|
    ensures !Unhandled(g, Invoked(g, o, s), Pruned(g, s).path[p])
  {
    RouteAllFails(g, o, Invoked(g, o, s), s.idx, |Pruned(g, s).path|);
  }

  lemma OneToken(k: Cycle, n: nat, lo: nat, s: RunState)
    requires Ready(s) && TokenInv(k, n, lo, s)
    ensures |Tokens(k, s.path, s.idx)| <= 1
  {
  }

  lemma StepKeepsToken(g: Graph, o: Oracle, k: Cycle, n: nat, lo: nat, s: RunState)
    requires WellFormed(g) && LegalOracle(g, o) && ChainContainer(g, k) && Known(g, s.path) && Ready(s)
    requires TokenInv(k, n, lo, s) && Step(g, o, s).status.Running? && s.status.Running?
    requires AtMostOnce(Step(g, o, s).path, lo, k.it) && PassesWithin(g, o, k, n)
    ensures TokenInv(k, n, lo, Step(g, o, s)) && Progress(k, n, s, Step(g, o, s))
  {
    hide TokenInv, Progress, AtMostOnce, PassesWithin, WellFormed, ChainContainer, Edge, Kept, Step, Prune, RoutesDeclared, LegalOrder,
         Known, Keep;
    var tokens := Tokens(k, s.path, s.idx);
    OneToken(k, n, lo, s);
    PruneToken(g, k, s.path[..s.idx], s.path[s.idx..]);
    if Keep(Pruned(g, s).path[s.idx..], Inside(k)) == [] {
      StepWithoutToken(g, o, k, n, lo, s);
    } else {
      assert tokens == [tokens[0]] && tokens[0] in tokens;
      StepWithToken(g, o, k, n, lo, s, tokens[0]);
    }
  }

  /** `it` is scheduled at most once in the run. */
  ghost predicate EnteredOnce(g: Graph, o: Oracle, s0: RunState, k: Cycle)
    requires Ready(s0) && LegalOrder(o)
  {
    forall m: nat {:trigger After(g, o, s0, m)} ::
      After(g, o, s0, m).status.Running? ==> AtMostOnce(After(g, o, s0, m).path, s0.idx, k.it)
  }

  /** A launch in front of the container, with an item no run has used yet. */
  predicate FreshLaunch(g: Graph, k: Cycle, s0: RunState) {
    Launched(g, s0) && s0.path[s0.idx] !in Inside(k) && Counter(s0, k.item) == 0
  }

  lemma {:induction false} TokenAlways(g: Graph, o: Oracle, k: Cycle, n: nat, s0: RunState, m: nat)
    requires WellFormed(g) && LegalOracle(g, o) && ChainContainer(g, k) && FreshLaunch(g, k, s0)
    requires EnteredOnce(g, o, s0, k) && PassesWithin(g, o, k, n)
    ensures After(g, o, s0, m).status.Running? ==> TokenInv(k, n, s0.idx, After(g, o, s0, m))
  {
    hide Step, ChainContainer, WellFormed, PassesWithin, Traced;
    if m == 0 {
      KeepNone(s0.path[s0.idx..], Inside(k));
    } else {
      var s := After(g, o, s0, m - 1);
      TokenAlways(g, o, k, n, s0, m - 1);
      if s.status.Running? {
        RunsAreTraced(g, o, s0, m - 1);
        KnownWhenTraced(g, s0, s);
        if After(g, o, s0, m).status.Running? {
          StepKeepsToken(g, o, k, n, s0.idx, s);
        }
      } else {
        StoppedStays(g, o, s);
      }
    }
  }

  lemma KnownWhenTraced(g: Graph, s0: RunState, s: RunState)
    requires Ready(s0) && |s0.path| > 0 && Traced(g, s0, s)
    ensures Known(g, s.path)
  {
  }

  // ---------------------------------------------------------------- one container cannot keep a run alive

  /** Ranks fall along every edge except the one that starts a pass. */
  ghost predicate RankedButPass(g: Graph, k: Cycle, rank: Id -> nat)
    requires k.body != []
  {
    forall c, d {:trigger Edge(g, c, d)} :: c in g && Edge(g, c, d) && !(c == k.item && d == k.body[0]) ==> rank(d) < rank(c)
  }

  function PassesLeft(k: Cycle, n: nat, s: RunState): int {
    if Counter(s, k.item) == -1 then 0 else n - Counter(s, k.item)
  }

  /** What one batch leaves to be scheduled is lower, except for the first entry of a new pass. */
  lemma StepLowersButPass(g: Graph, o: Oracle, k: Cycle, s: RunState, rank: Id -> nat, m: nat)
    requires WellFormed(g) && LegalOracle(g, o) && Known(g, s.path) && Ready(s) && s.status.Running?
    requires Distinct(k) && RankedButPass(g, k, rank) && PendingBelow(s, rank, m) && Step(g, o, s).status.Running?
    ensures var r := Step(g, o, s);
            forall p :: r.idx <= p < |r.path| ==> r.path[p] == k.body[0] || rank(r.path[p]) < m - 1
  {
    var r := Step(g, o, s);
    RunningStep(g, o, s);
    PrunedShape(g, s);
    BatchEdges(g, o, s);
    var path := Pruned(g, s).path;
    hide Step, Batch, Pruned, WellFormed, LegalOracle, Edge, Kept;
    forall p | r.idx <= p < |r.path|
      ensures r.path[p] == k.body[0] || rank(r.path[p]) < m - 1
    {
      assert FromBatch(g, path, s.idx, |path|, r.path[p]);
      var q :| s.idx <= q < |path| && Edge(g, path[q], r.path[p]);
      assert path[q] in s.path[s.idx..] && path[q] in g;
    }
  }

  /** Passes left, weighted by the height of a pass, plus the highest pending rank, fall in every batch. */
  lemma StepLowersPotential(g: Graph, o: Oracle, k: Cycle, n: nat, lo: nat, s: RunState, rank: Id -> nat, m: nat)
    returns (m': nat)
    requires WellFormed(g) && LegalOracle(g, o) && ChainContainer(g, k) && Known(g, s.path) && Ready(s)
    requires s.status.Running? && Step(g, o, s).status.Running? && PassesWithin(g, o, k, n)
    requires TokenInv(k, n, lo, s) && AtMostOnce(Step(g, o, s).path, lo, k.it)
    requires RankedButPass(g, k, rank) && PendingBelow(s, rank, m)
    ensures m > 0
    ensures var r := Step(g, o, s); var height := rank(k.body[0]) + 1;
            && m' > 0 && PendingBelow(r, rank, m')
            && PassesLeft(k, n, r) * height + m' < PassesLeft(k, n, s) * height + m
  {
    assert rank(s.path[s.idx]) < m;
    StepKeepsToken(g, o, k, n, lo, s);
    StepLowersButPass(g, o, k, s, rank, m);
    hide Step, ChainContainer, WellFormed, LegalOracle, PassesWithin, RankedButPass, AtMostOnce, Executed, Keep, Known, Edge;
    m' := PotentialFalls(k, n, s, Step(g, o, s), rank, m);
  }

  lemma PotentialFalls(k: Cycle, n: nat, s: RunState, r: RunState, rank: Id -> nat, m: nat) returns (m': nat)
    requires Ready(r) && r.status.Running? && k.body != [] && m > 0
    requires -1 <= Counter(s, k.item) <= n && Progress(k, n, s, r)
    requires forall p :: r.idx <= p < |r.path| ==> r.path[p] == k.body[0] || rank(r.path[p]) < m - 1
    ensures var height := rank(k.body[0]) + 1;
            && m' > 0 && PendingBelow(r, rank, m')
            && PassesLeft(k, n, r) * height + m' < PassesLeft(k, n, s) * height + m
  {
    hide Keep;
    var height := rank(k.body[0]) + 1;
    var left, left' := PassesLeft(k, n, s), PassesLeft(k, n, r);
    if k.body[0] in Tokens(k, r.path, r.idx) {
      m' := m - 1 + height;
      assert left' * height == left * height - height by { assert left' == left - 1; }
    } else {
      FirstIsToken(k, r);
      assert rank(r.path[r.idx]) < m - 1;
      m' := m - 1;
      MulMono(left', left, height);
    }
  }

  lemma FirstIsToken(k: Cycle, r: RunState)
    requires Ready(r) && k.body != [] && k.body[0] !in Tokens(k, r.path, r.idx)
    ensures forall p :: r.idx <= p < |r.path| ==> r.path[p] != k.body[0]
  {
    forall p | r.idx <= p < |r.path|
      ensures r.path[p] != k.body[0]
    {
      assert r.path[p] == r.path[r.idx..][p - r.idx];
    }
  }

  lemma MulMono(a: int, b: int, c: nat)
    requires a <= b
    ensures a * c <= b * c
  {
  }

  lemma {:induction false} PotentialRunsOut(g: Graph, o: Oracle, k: Cycle, n: nat, s0: RunState, rank: Id -> nat, t: nat)
    returns (m: nat)
    requires WellFormed(g) && LegalOracle(g, o) && ChainContainer(g, k) && FreshLaunch(g, k, s0)
    requires EnteredOnce(g, o, s0, k) && PassesWithin(g, o, k, n) && RankedButPass(g, k, rank)
    ensures After(g, o, s0, t).status.Running? ==>
              var s := After(g, o, s0, t); var height := rank(k.body[0]) + 1;
              m > 0 && PendingBelow(s, rank, m) &&
              PassesLeft(k, n, s) * height + m + t <= n * height + rank(s0.path[s0.idx]) + 1
  {
    hide Step, ChainContainer, WellFormed, PassesWithin, Traced, TokenInv, RankedButPass, Edge;
    m := rank(s0.path[s0.idx]) + 1;
    if t > 0 {
      var s := After(g, o, s0, t - 1);
      var m0 := PotentialRunsOut(g, o, k, n, s0, rank, t - 1);
      if s.status.Running? {
        RunsAreTraced(g, o, s0, t - 1);
        KnownWhenTraced(g, s0, s);
        TokenAlways(g, o, k, n, s0, t - 1);
        if After(g, o, s0, t).status.Running? {
          m := StepLowersPotential(g, o, k, n, s0.idx, s, rank, m0);
        }
      } else {
        StoppedStays(g, o, s);
      }
    }
  }

  lemma PassesLeftNonneg(k: Cycle, n: nat, lo: nat, s: RunState, height: nat)
    requires Ready(s)
    ensures TokenInv(k, n, lo, s) ==> PassesLeft(k, n, s) * height >= 0
  {
    hide Tokens, Executed;
    if TokenInv(k, n, lo, s) {
      MulMono(0, PassesLeft(k, n, s), height);
    }
  }

  /** A run whose only cycle is one fresh container, entered once and making at most `n` passes, stops. */
  lemma ContainerRunsStop(g: Graph, o: Oracle, k: Cycle, n: nat, s0: RunState, rank: Id -> nat)
    requires WellFormed(g) && LegalOracle(g, o) && ChainContainer(g, k) && FreshLaunch(g, k, s0)
    requires EnteredOnce(g, o, s0, k) && PassesWithin(g, o, k, n) && RankedButPass(g, k, rank)
    ensures !After(g, o, s0, n * (rank(k.body[0]) + 1) + rank(s0.path[s0.idx]) + 1).status.Running?
  {
    hide ChainContainer, Edge, WellFormed, RankedButPass, PendingBelow, EnteredOnce, PassesWithin, Step, Executed, Tokens;
    ChainIsDistinct(g, k);
    var height := rank(k.body[0]) + 1;
    var t := n * height + rank(s0.path[s0.idx]) + 1;
    var m := PotentialRunsOut(g, o, k, n, s0, rank, t);
    TokenAlways(g, o, k, n, s0, t);
    PassesLeftNonneg(k, n, s0.idx, After(g, o, s0, t), height);
  }

  /** The body's first entry waits: a pass begins. */
  predicate PassBegins(k: Cycle, s: RunState)
    requires Ready(s)
  {
    s.status.Running? && k.body != [] && k.body[0] in Tokens(k, s.path, s.idx)
  }

  /** How many of the first `m` batches ended with the body waiting to start a pass. */
  ghost function Passes(g: Graph, o: Oracle, k: Cycle, s0: RunState, m: nat): nat
    requires Ready(s0) && LegalOrder(o)
  {
    if m == 0 then 0 else
    Passes(g, o, k, s0, m - 1) + if PassBegins(k, After(g, o, s0, m)) then 1 else 0
  }

  predicate PassesUpTo(k: Cycle, n: nat, s: RunState, count: nat) {
    count <= n && (s.status.Running? && Counter(s, k.item) != -1 ==> count <= Counter(s, k.item))
  }

  /** No run makes more passes than the container allows: a Loop's maximum, or the length of the array. */
  lemma {:induction false} PassesAreBounded(g: Graph, o: Oracle, k: Cycle, n: nat, s0: RunState, m: nat)
    requires WellFormed(g) && LegalOracle(g, o) && ChainContainer(g, k) && FreshLaunch(g, k, s0)
    requires EnteredOnce(g, o, s0, k) && PassesWithin(g, o, k, n)
    ensures PassesUpTo(k, n, After(g, o, s0, m), Passes(g, o, k, s0, m))
  {
    if m > 0 {
      PassesAreBounded(g, o, k, n, s0, m - 1);
      hide PassBegins, PassesUpTo, EnteredOnce, WellFormed, ChainContainer, PassesWithin, FreshLaunch, Step;
      OnePassMore(g, o, k, n, s0, m, Passes(g, o, k, s0, m - 1), Passes(g, o, k, s0, m));
    }
  }

  lemma OnePassMore(g: Graph, o: Oracle, k: Cycle, n: nat, s0: RunState, m: nat, before: nat, count: nat)
    requires WellFormed(g) && LegalOracle(g, o) && ChainContainer(g, k) && FreshLaunch(g, k, s0)
    requires EnteredOnce(g, o, s0, k) && PassesWithin(g, o, k, n) && m > 0
    requires PassesUpTo(k, n, After(g, o, s0, m - 1), before)
    requires count == before + if PassBegins(k, After(g, o, s0, m)) then 1 else 0
    ensures PassesUpTo(k, n, After(g, o, s0, m), count)
  {
    hide Step, ChainContainer, WellFormed, PassesWithin, Traced, Edge, TokenInv, AtMostOnce, Progress, Tokens;
    var s := After(g, o, s0, m - 1);
    if !s.status.Running? {
      StoppedStays(g, o, s);
    } else if After(g, o, s0, m).status.Running? {
      RunsAreTraced(g, o, s0, m - 1);
      KnownWhenTraced(g, s0, s);
      TokenAlways(g, o, k, n, s0, m - 1);
      StepKeepsToken(g, o, k, n, s0.idx, s);
      PassCounted(k, n, s, After(g, o, s0, m), s0.idx, before, count);
    }
  }

  lemma PassCounted(k: Cycle, n: nat, s: RunState, r: RunState, lo: nat, before: nat, count: nat)
    requires Ready(s) && Ready(r) && Progress(k, n, s, r) && TokenInv(k, n, lo, s)
    requires s.status.Running? && PassesUpTo(k, n, s, before)
    requires count == before + if PassBegins(k, r) then 1 else 0
    ensures PassesUpTo(k, n, r, count)
  {
  }
}
