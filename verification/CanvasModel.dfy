/**
 The batch scheduler of `Canvas.run`, as a state machine over values.
 One step is one turn of the outer loop: drop the pending entries whose inputs are
 not ready, invoke the rest in some order, route every finished entry, then fail,
 suspend, finish or go on.
 */
module CanvasModel {
  import opened Prelude

  type Id = string

  datatype Value = Null | Text(s: string) | Number(n: int) | Items(elems: seq<Value>)

  datatype Kind =
    | Begin
    | UserFillUp
    | Iteration(itStart: Id, collects: map<string, (Id, string)>)
    | IterationItem
    | Loop(loopStart: Id, maxLoops: int)
    | LoopItem
    | ExitLoop
    | Router                // Categorize and Switch
    | Other

  datatype Handler = NoHandler | Handler(goto: seq<Id>, hasDefault: bool)

  /** `swallows`: an exception is replaced by the default value and leaves no error behind. */
  datatype Component = Component(
    kind: Kind,
    downstream: seq<Id>,
    parent: Option<Id>,
    refs: seq<Id>,
    routes: set<Id>,
    handler: Handler,
    swallows: bool)

  type Graph = map<Id, Component>

  /** What one invocation answers. Nothing restricts it except that routes are declared ones. */
  datatype Answer = Answer(
    fails: bool,                  // an error is recorded
    raises: bool,                 // an item raises before it reads the array or counts
    cancelLate: bool,             // cancelled between collecting a pass and presenting the next item
    next: seq<Id>,
    items: Option<seq<Value>>,    // the array an Iteration runs over; None: not an array
    stop: bool,                   // the Loop's termination condition
    outputs: map<string, Value>)

  /**
   The environment. A path position is invoked at most once in a run, so positions index the answers.
   `order(f, t)` is the order in which the concurrent tasks of batch [f, t) take effect.
   */
  datatype Oracle = Oracle(
    answer: (nat, Id) -> Answer,
    cancel: nat -> bool,
    order: (nat, nat) -> seq<nat>)

  datatype Status = Running | Finished | Failed | Suspended | Canceled

  datatype RunState = RunState(
    path: seq<Id>,
    idx: nat,
    status: Status,
    counter: map<Id, int>,                  // `_idx` of the container items
    errs: set<Id>,                          // components holding an `_ERROR` output
    outs: map<Id, map<string, Value>>)

  const NOTHING := Component(Other, [], None, [], {}, NoHandler, false)

  function Lookup(g: Graph, id: Id): Component {
    if id in g then g[id] else NOTHING
  }

  predicate IsContainer(k: Kind) { k.Iteration? || k.Loop? }

  predicate IsItem(k: Kind) { k.IterationItem? || k.LoopItem? }

  function StartOf(k: Kind): Id {
    match k
    case Iteration(s, _) => s
    case Loop(s, _) => s
    case _ => ""
  }

  function Parent(g: Graph, c: Component): Component {
    if c.parent.Some? then Lookup(g, c.parent.value) else NOTHING
  }

  function Goto(c: Component): seq<Id> {
    if c.handler.Handler? then c.handler.goto else []
  }

  function FillUps(g: Graph): set<Id> {
    set id | id in g && g[id].kind.UserFillUp?
  }

  /** The scheduler recognises a resumed path by the text of an id, not by a component's type. */
  predicate NamesFillUp(id: Id) {
    Contains(LowerCase(id), "userfillup")
  }

  ghost predicate WellFormed(g: Graph) {
    && "begin" in g && g["begin"].kind.Begin?
    && forall id {:trigger ComponentOk(g, id)} :: id in g ==> ComponentOk(g, id)
  }

  ghost predicate ComponentOk(g: Graph, id: Id)
    requires id in g
  {
    var c := g[id];
    && (forall d :: d in c.downstream || d in c.routes || d in Goto(c) ==> d in g)
    && (c.parent.Some? ==> c.parent.value in g && IsContainer(g[c.parent.value].kind))
    && (IsItem(c.kind) || c.kind.ExitLoop? ==> c.parent.Some?)
    && (c.kind.IterationItem? ==> Parent(g, c).kind.Iteration?)
    && (c.kind.LoopItem? ==> Parent(g, c).kind.Loop?)
    && (c.swallows ==> c.handler.Handler? && c.handler.hasDefault)
    && (IsContainer(c.kind) ==>
          var s := StartOf(c.kind);
          && s in g && g[s].parent == Some(id)
          && (if c.kind.Iteration? then g[s].kind.IterationItem? else g[s].kind.LoopItem?))
  }

  ghost predicate RoutesDeclared(g: Graph, o: Oracle, p: nat, id: Id)
    requires id in g
  {
    forall d :: d in o.answer(p, id).next ==> d in g[id].routes
  }

  ghost predicate LegalOracle(g: Graph, o: Oracle) {
    && (forall p: nat, id {:trigger RoutesDeclared(g, o, p, id)} :: id in g ==> RoutesDeclared(g, o, p, id))
    && LegalOrder(o)
  }

  ghost predicate LegalOrder(o: Oracle) {
    forall f: nat, t: nat {:trigger o.order(f, t)} :: f <= t ==> Permutes(o.order(f, t), f, t)
  }

  // ---------------------------------------------------------------- dropping entries that are not ready

  predicate Kept(g: Graph, done: seq<Id>, id: Id) {
    var c := Lookup(g, id);
    || c.kind.Begin?
    || c.kind.UserFillUp?
    || NamesFillUp(if done == [] then id else done[0])
    || forall r :: r in c.refs ==> r in done
  }

  function Prune(g: Graph, done: seq<Id>, rest: seq<Id>): seq<Id>
    decreases |rest|
  {
    if rest == [] then done
    else if Kept(g, done, rest[0]) then Prune(g, done + [rest[0]], rest[1..])
    else Prune(g, done, rest[1..])
  }

  // ---------------------------------------------------------------- invoking components

  function Counter(s: RunState, id: Id): int {
    if id in s.counter then s.counter[id] else 0
  }

  function Outputs(s: RunState, id: Id): map<string, Value> {
    if id in s.outs then s.outs[id] else map[]
  }

  function Output(s: RunState, id: Id, name: string): Value {
    if name in Outputs(s, id) then Outputs(s, id)[name] else Text("")
  }

  function AsList(v: Value): seq<Value> {
    if v.Items? then v.elems else []
  }

  function Write(s: RunState, id: Id, values: map<string, Value>): RunState {
    s.(outs := s.outs[id := Outputs(s, id) + values])
  }

  function Fail(s: RunState, id: Id): RunState {
    s.(errs := s.errs + {id})
  }

  /** Each output of Iteration `pid` that refers to a child, extended by the child's current value. */
  function Collation(g: Graph, s: RunState, pid: Id): map<string, Value> {
    var k := Lookup(g, pid).kind;
    if !k.Iteration? then map[] else
    map name | name in k.collects && Lookup(g, k.collects[name].0).parent == Some(pid) ::
      Items(AsList(Output(s, pid, name)) + [Output(s, k.collects[name].0, k.collects[name].1)])
  }

  function Collate(g: Graph, s: RunState, pid: Id): RunState {
    Write(s, pid, Collation(g, s, pid))
  }

  function InvokeIterationItem(g: Graph, s: RunState, id: Id, a: Answer): RunState {
    var c := Lookup(g, id);
    var n := Counter(s, id);
    if a.fails then Fail(s, id)
    else if a.raises then (if c.swallows then s else Fail(s, id))
    else if a.items.None? then
      var s1 := s.(counter := s.counter[id := -1]);
      if c.swallows then s1 else Fail(s1, id)
    else
      var arr := a.items.value;
      var s1 := if n > 0 && c.parent.Some? then Collate(g, s, c.parent.value) else s;
      if n >= |arr| then s1.(counter := s1.counter[id := -1])
      else if a.cancelLate then Fail(s1, id)
      else if n < 0 && |arr| + n < 0 then (if c.swallows then s1 else Fail(s1, id))   // index out of range
      else
        var e := if n < 0 then arr[|arr| + n] else arr[n];                            // -1 is the last element
        Write(s1, id, map["item" := e, "index" := Number(n)]).(counter := s1.counter[id := n + 1])
  }

  function InvokeLoopItem(g: Graph, s: RunState, id: Id, a: Answer): RunState {
    var k := Parent(g, Lookup(g, id)).kind;
    var most := if k.Loop? then k.maxLoops else 0;
    if a.fails then Fail(s, id)
    else if a.raises then (if Lookup(g, id).swallows then s else Fail(s, id))
    else if Counter(s, id) >= most then s.(counter := s.counter[id := -1])
    else s.(counter := s.counter[id := Counter(s, id) + 1])
  }

  function Invoke(g: Graph, o: Oracle, s: RunState, p: nat): (r: RunState)
    requires p < |s.path|
    ensures r.path == s.path && r.idx == s.idx && r.status == s.status
  {
    var id := s.path[p];
    var a := o.answer(p, id);
    match Lookup(g, id).kind
    case IterationItem => InvokeIterationItem(g, s, id, a)
    case LoopItem => InvokeLoopItem(g, s, id, a)
    case Iteration(_, _) => if a.fails then Fail(s, id) else s
    case _ =>
      var s1 := Write(s, id, a.outputs);
      if a.fails then Fail(s1, id) else s1
  }

  function InvokeAll(g: Graph, o: Oracle, s: RunState, ps: seq<nat>): (r: RunState)
    requires forall k :: 0 <= k < |ps| ==> ps[k] < |s.path|
    ensures r.path == s.path && r.idx == s.idx && r.status == s.status
    decreases |ps|
  {
    if ps == [] then s else InvokeAll(g, o, Invoke(g, o, s, ps[0]), ps[1..])
  }

  // ---------------------------------------------------------------- routing finished entries

  function AppendPath(path: seq<Id>, id: Id): seq<Id> {
    if path != [] && path[|path| - 1] == id then path else path + [id]
  }

  function ExtendPath(path: seq<Id>, ids: seq<Id>): seq<Id>
    decreases |ids|
  {
    if ids == [] then path else ExtendPath(AppendPath(path, ids[0]), ids[1..])
  }

  predicate Ends(g: Graph, s: RunState, id: Id, a: Answer) {
    && IsItem(Lookup(g, id).kind)
    && (Counter(s, id) == -1 || (Lookup(g, id).kind.LoopItem? && a.stop))
  }

  function Targets(g: Graph, s: RunState, id: Id, a: Answer): seq<Id> {
    var c := Lookup(g, id);
    if Ends(g, s, id, a) then Parent(g, c).downstream
    else if c.kind.Router? then a.next
    else if IsContainer(c.kind) then [StartOf(c.kind)]
    else if c.kind.ExitLoop? && Parent(g, c).kind.Loop? then Parent(g, c).downstream
    else if c.downstream == [] && c.parent.Some? then [StartOf(Parent(g, c).kind)]
    else c.downstream
  }

  function Route(g: Graph, o: Oracle, s: RunState, i: nat): (r: RunState)
    requires i < |s.path|
    ensures s.path <= r.path
  {
    var id := s.path[i];
    var a := o.answer(i, id);
    var c := Lookup(g, id);
    ExtendGrows(s.path, Targets(g, s, id, a));
    var err := id in s.errs;
    var jumps := err && Goto(c) != [];
    var path1 := if jumps then s.path + Goto(c) else ExtendPath(s.path, Targets(g, s, id, a));
    var fatal := err && !jumps && !(c.handler.Handler? && c.handler.hasDefault);
    s.(path := path1,
       status := if fatal then Failed else s.status,
       counter := if Ends(g, s, id, a) then s.counter[id := -1] else s.counter)
  }

  function RouteAll(g: Graph, o: Oracle, s: RunState, i: nat, end: nat): (r: RunState)
    requires i <= end <= |s.path|
    ensures s.path <= r.path && r.idx == s.idx && r.errs == s.errs && r.outs == s.outs
    ensures s.status.Failed? ==> r.status.Failed?
    ensures !r.status.Failed? ==> r.status == s.status
    decreases end - i
  {
    if i == end then s else RouteAll(g, o, Route(g, o, s, i), i + 1, end)
  }

  lemma {:induction false} ExtendGrows(path: seq<Id>, ids: seq<Id>)
    ensures path <= ExtendPath(path, ids)
    ensures forall p :: |path| <= p < |ExtendPath(path, ids)| ==> ExtendPath(path, ids)[p] in ids
    decreases |ids|
  {
    if ids != [] {
      ExtendGrows(AppendPath(path, ids[0]), ids[1..]);
    }
  }

  // ---------------------------------------------------------------- one batch

  function Resuspend(g: Graph, pending: seq<Id>): seq<Id> {
    Keep(pending, FillUps(g)) + Without(pending, FillUps(g))
  }

  function Advance(g: Graph, s: RunState, end: nat): RunState
    requires end <= |s.path|
  {
    var pending := s.path[end..];
    if Keep(pending, FillUps(g)) != [] then s.(path := Resuspend(g, pending), idx := 0, status := Suspended)
    else s.(idx := end, status := if end == |s.path| then Finished else Running)
  }

  predicate Ready(s: RunState) {
    s.idx <= |s.path| && (s.status.Running? ==> s.idx < |s.path|)
  }

  lemma {:induction false} PruneShape(g: Graph, done: seq<Id>, rest: seq<Id>)
    ensures done <= Prune(g, done, rest) && |Prune(g, done, rest)| <= |done| + |rest|
    ensures forall p :: |done| <= p < |Prune(g, done, rest)| ==>
              Prune(g, done, rest)[p] in rest && Kept(g, Prune(g, done, rest)[..p], Prune(g, done, rest)[p])
    decreases |rest|
  {
    if rest == [] {
    } else if Kept(g, done, rest[0]) {
      PruneShape(g, done + [rest[0]], rest[1..]);
      var r := Prune(g, done, rest);
      assert r[..|done|] == done;
    } else {
      PruneShape(g, done, rest[1..]);
    }
  }

  /** The state once the entries that are not ready have been dropped. */
  function Pruned(g: Graph, s: RunState): (r: RunState)
    requires s.idx <= |s.path|
    ensures s.path[..s.idx] <= r.path
  {
    PruneShape(g, s.path[..s.idx], s.path[s.idx..]);
    s.(path := Prune(g, s.path[..s.idx], s.path[s.idx..]))
  }

  /** The state after invoking the entries that are ready. */
  ghost function Invoked(g: Graph, o: Oracle, s: RunState): (r: RunState)
    requires s.idx <= |s.path| && LegalOrder(o)
    ensures r.path == Pruned(g, s).path && r.idx == s.idx && r.status == s.status
  {
    InvokeAll(g, o, Pruned(g, s), o.order(s.idx, |Pruned(g, s).path|))
  }

  /** The state after invoking and routing the batch, before the run fails, suspends or goes on. */
  ghost function Batch(g: Graph, o: Oracle, s: RunState): (r: RunState)
    requires s.idx <= |s.path| && LegalOrder(o)
    ensures Pruned(g, s).path <= r.path && s.path[..s.idx] <= r.path && s.idx <= |Pruned(g, s).path|
  {
    RouteAll(g, o, Invoked(g, o, s), s.idx, |Pruned(g, s).path|)
  }

  ghost function Step(g: Graph, o: Oracle, s: RunState): (r: RunState)
    requires Ready(s) && LegalOrder(o)
    ensures Ready(r)
  {
    if !s.status.Running? then s
    else if o.cancel(s.idx) then s.(status := Canceled)
    else
      var b := Batch(g, o, s);
      if b.status.Failed? then b.(path := b.path[..s.idx])
      else Advance(g, b, |Pruned(g, s).path|)
  }

  /** The state after `n` batches. */
  ghost function After(g: Graph, o: Oracle, s: RunState, n: nat): (r: RunState)
    requires Ready(s) && LegalOrder(o)
    ensures Ready(r)
  {
    if n == 0 then s else Step(g, o, After(g, o, s, n - 1))
  }

  /** How `run` starts from the path, counters and outputs the previous run left behind. */
  function Launch(s: RunState): (r: RunState)
    ensures Ready(r) && r.status.Running? && r.idx == |r.path| - 1
  {
    var path := if s.path == [] || !NamesFillUp(s.path[|s.path| - 1]) then s.path + ["begin"] else s.path;
    RunState(path, |path| - 1, Running, s.counter, {},
             map id | id in s.outs :: map name | name in s.outs[id] :: Null)
  }
}
