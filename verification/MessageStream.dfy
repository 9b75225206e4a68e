/** A message template filled in while it streams, against filling it in at once. */
module MessageStream {
  import opened Prelude

  /** What a reference stands for: nothing, a text, a lazy stream of texts (from a plain or an
      asynchronous generator), an awaitable text, or another value with its JSON form, if it has one,
      and its printed form. */
  datatype Value =
    | Nothing
    | Text(text: string)
    | Chunks(chunks: seq<string>, isAsync: bool)
    | Awaitable(text: string)
    | Other(dump: Option<string>, repr: string)

  type Environment = map<string, Value>

  /** A literal followed by a reference. */
  datatype Part = Part(literal: string, exp: string)

  datatype Template = Template(parts: seq<Part>, tail: string)

  /** The text a reader should see for a value. */
  function Shown(v: Value): string {
    match v
    case Nothing => ""
    case Text(s) => s
    case Chunks(cs, _) => Concat(cs)
    case Awaitable(s) => s
    case Other(dump, repr) => if dump.Some? then dump.value else repr
  }

  predicate Resolves(parts: seq<Part>, env: Environment) {
    forall k :: 0 <= k < |parts| ==> parts[k].exp in env
  }

  /** The template with every reference replaced by its text. */
  function RenderParts(parts: seq<Part>, env: Environment): string
    requires Resolves(parts, env)
  {
    if parts == [] then "" else
    var n := |parts| - 1;
    RenderParts(parts[..n], env) + parts[n].literal + Shown(env[parts[n].exp])
  }

  function Render(t: Template, env: Environment): string
    requires Resolves(t.parts, env)
  {
    RenderParts(t.parts, env) + t.tail
  }

  // ---------------------------------------------------------------- the stream

  datatype Halt = Running | Canceled | Raised

  /** The pieces handed out, the content gathered, the answers taken from the cancellation flag and the
      input values recorded. */
  datatype Play = Play(pieces: seq<string>, content: string, checks: nat, inputs: map<string, string>, halt: Halt)

  function Check(p: Play, cancel: nat -> bool): Play {
    if p.halt != Running then p
    else if cancel(p.checks) then p.(checks := p.checks + 1, halt := Canceled)
    else p.(checks := p.checks + 1)
  }

  function Say(p: Play, s: string): Play {
    if p.halt != Running then p else p.(pieces := p.pieces + [s], content := p.content + s)
  }

  function Record(p: Play, exp: string, s: string): Play {
    if p.halt != Running then p else p.(inputs := p.inputs[exp := s])
  }

  function PlayChunks(p: Play, chunks: seq<string>, cancel: nat -> bool): Play {
    if chunks == [] then p else
    var n := |chunks| - 1;
    Say(Check(PlayChunks(p, chunks[..n], cancel), cancel), chunks[n])
  }

  /** The value of a reference: a stream piece by piece, anything else in one piece. */
  function PlayValue(p: Play, exp: string, env: Environment, cancel: nat -> bool): Play {
    if p.halt != Running then p
    else if exp !in env then p.(halt := Raised)
    else match env[exp]
      case Chunks(cs, _) => Record(PlayChunks(p, cs, cancel), exp, Concat(cs))
      case v => Record(Say(p, Shown(v)), exp, Shown(v))
  }

  function PlayParts(p: Play, parts: seq<Part>, env: Environment, cancel: nat -> bool): Play {
    if parts == [] then p else
    var n := |parts| - 1;
    PlayValue(Say(Check(PlayParts(p, parts[..n], env, cancel), cancel), parts[n].literal), parts[n].exp, env, cancel)
  }

  /** A whole run, without a cache. */
  function PlayAll(p: Play, t: Template, env: Environment, cancel: nat -> bool): Play {
    var q := PlayParts(p, t.parts, env, cancel);
    if t.tail == "" then q else Say(Check(q, cancel), t.tail)
  }

  function Fresh(inputs: map<string, string>): Play {
    Play([], "", 0, inputs, Running)
  }

  /** The component, with the output and the inputs a run leaves behind. */
  class Message {
    var content: Option<string>
    var inputs: map<string, string>

    constructor ()
      ensures content == None && inputs == map[]
    {
      content, inputs := None, map[];
    }

    /** The chunks of one lazy value. `ended` says that the run was canceled among them. */
    method StreamChunks(chunks: seq<string>, cancel: nat -> bool, ghost start: Play,
                        pieces0: seq<string>, all0: string, checks0: nat)
      returns (pieces: seq<string>, all: string, cnt: string, checks: nat, ended: bool)
      requires start == Play(pieces0, all0, checks0, start.inputs, Running)
      ensures PlayChunks(start, chunks, cancel)
              == Play(pieces, all, checks, start.inputs, if ended then Canceled else Running)
      ensures !ended ==> cnt == Concat(chunks)
    {
      pieces, all, cnt, checks := pieces0, all0, "", checks0;
      var i := 0;
      while i < |chunks|
        invariant 0 <= i <= |chunks|
        invariant PlayChunks(start, chunks[..i], cancel) == Play(pieces, all, checks, start.inputs, Running)
        invariant cnt == Concat(chunks[..i])
      {
        assert chunks[..i + 1][..i] == chunks[..i] && chunks[..i + 1] == chunks[..i] + [chunks[i]];
        ConcatSnoc(chunks[..i], chunks[i]);
        var stop := cancel(checks);
        checks := checks + 1;
        if stop {
          ChunksStayHalted(start, chunks, i + 1, cancel);
          return pieces, all, cnt, checks, true;
        }
        all := all + chunks[i];
        cnt := cnt + chunks[i];
        pieces := pieces + [chunks[i]];
        i := i + 1;
      }
      assert chunks[..i] == chunks;
      ended := false;
    }

    /** The streaming generator, with its cache of values already shown, does what a run without a
        cache does; the output is set only when the run ends by itself. */
    method Stream(t: Template, env: Environment, cancel: nat -> bool)
      returns (pieces: seq<string>, ghost end: Play)
      modifies this
      ensures end == PlayAll(Fresh(old(inputs)), t, env, cancel)
      ensures pieces == end.pieces && inputs == end.inputs
      ensures content == if end.halt == Running then Some(end.content) else old(content)
    {
      hide PlayAll, Shown, PlayParts, PlayChunks, Concat;
      ghost var start := Fresh(inputs);
      ghost var parts := t.parts;
      PlayAllSteps(start, t, env, cancel);
      var all, checks, cache := "", 0, map[];
      pieces := [];
      end := PlayAll(start, t, env, cancel);
      var i := 0;
      while i < |t.parts|
        invariant 0 <= i <= |parts| && content == old(content)
        invariant PlayParts(start, parts[..i], env, cancel) == Play(pieces, all, checks, inputs, Running)
        invariant forall exp :: exp in cache ==>
                    exp in env && !env[exp].Chunks? && cache[exp] == Shown(env[exp]) &&
                    exp in inputs && inputs[exp] == cache[exp]
      {
        ghost var before := Play(pieces, all, checks, inputs, Running);
        PlayPartsStep(start, parts, i, env, cancel);
        if cancel(checks) {
          PartsStayHalted(start, t, i + 1, env, cancel);
          return;
        }
        checks := checks + 1;
        all := all + t.parts[i].literal;
        pieces := pieces + [t.parts[i].literal];
        var exp := t.parts[i].exp;
        ghost var said := Play(pieces, all, checks, inputs, Running);
        assert said == Say(Check(before, cancel), parts[i].literal);
        if exp in cache {
          pieces := pieces + [cache[exp]];
          all := all + cache[exp];
          assert inputs[exp := cache[exp]] == inputs;
        } else if exp !in env {
          PartsStayHalted(start, t, i + 1, env, cancel);
          return;
        } else if env[exp].Chunks? {
          var cnt, ended;
          pieces, all, cnt, checks, ended := StreamChunks(env[exp].chunks, cancel, said, pieces, all, checks);
          if ended {
            PartsStayHalted(start, t, i + 1, env, cancel);
            return;
          }
          inputs := inputs[exp := cnt];
        } else {
          var v := Shown(env[exp]);
          pieces := pieces + [v];
          inputs := inputs[exp := v];
          all := all + v;
          cache := cache[exp := v];
        }
        i := i + 1;
      }
      assert parts[..i] == parts;
      if |t.tail| > 0 {
        if cancel(checks) {
          return;
        }
        all := all + t.tail;
        pieces := pieces + [t.tail];
      }
      content := Some(all);
    }
  }

  lemma {:induction false} ChunksStayHalted(p: Play, chunks: seq<string>, k: nat, cancel: nat -> bool)
    requires k <= |chunks| && PlayChunks(p, chunks[..k], cancel).halt != Running
    ensures PlayChunks(p, chunks, cancel) == PlayChunks(p, chunks[..k], cancel)
    decreases |chunks|
  {
    if k < |chunks| {
      var n := |chunks| - 1;
      assert chunks[..n][..k] == chunks[..k];
      ChunksStayHalted(p, chunks[..n], k, cancel);
    } else {
      assert chunks[..k] == chunks;
    }
  }

  lemma PlayAllSteps(p: Play, t: Template, env: Environment, cancel: nat -> bool)
    ensures PlayParts(p, t.parts[..0], env, cancel) == p
    ensures var q := PlayParts(p, t.parts, env, cancel);
            PlayAll(p, t, env, cancel) == if t.tail == "" then q else Say(Check(q, cancel), t.tail)
  {
  }

  lemma PlayPartsStep(p: Play, parts: seq<Part>, i: nat, env: Environment, cancel: nat -> bool)
    requires i < |parts|
    ensures PlayParts(p, parts[..i + 1], env, cancel)
            == PlayValue(Say(Check(PlayParts(p, parts[..i], env, cancel), cancel), parts[i].literal),
                         parts[i].exp, env, cancel)
  {
    hide PlayValue, Say, Check;
    assert parts[..i + 1][..i] == parts[..i];
  }

  lemma {:induction false} PartsHalted(p: Play, parts: seq<Part>, k: nat, env: Environment, cancel: nat -> bool)
    requires k <= |parts| && PlayParts(p, parts[..k], env, cancel).halt != Running
    ensures PlayParts(p, parts, env, cancel) == PlayParts(p, parts[..k], env, cancel)
    decreases |parts|
  {
    if k < |parts| {
      var n := |parts| - 1;
      assert parts[..n][..k] == parts[..k];
      PartsHalted(p, parts[..n], k, env, cancel);
    } else {
      assert parts[..k] == parts;
    }
  }

  lemma PartsStayHalted(p: Play, t: Template, k: nat, env: Environment, cancel: nat -> bool)
    requires k <= |t.parts| && PlayParts(p, t.parts[..k], env, cancel).halt != Running
    ensures PlayAll(p, t, env, cancel) == PlayParts(p, t.parts[..k], env, cancel)
  {
    hide PlayParts;
    PartsHalted(p, t.parts, k, env, cancel);
  }

  // ---------------------------------------------------------------- what a run hands out

  /** A stream still running has handed out all its chunks. */
  lemma {:induction false} ChunksPlayed(p: Play, chunks: seq<string>, cancel: nat -> bool)
    requires p.content == Concat(p.pieces) && p.halt == Running
    ensures var q := PlayChunks(p, chunks, cancel);
            q.content == Concat(q.pieces) && q.halt != Raised && q.inputs == p.inputs &&
            (q.halt == Running ==> q.content == p.content + Concat(chunks))
    decreases |chunks|
  {
    if chunks != [] {
      hide Concat;
      var n := |chunks| - 1;
      ChunksPlayed(p, chunks[..n], cancel);
      assert chunks == chunks[..n] + [chunks[n]];
      ConcatSnoc(chunks[..n], chunks[n]);
      ConcatSnoc(PlayChunks(p, chunks[..n], cancel).pieces, chunks[n]);
    }
  }

  /** A reference that resolves adds its text and records it. */
  lemma ValuePlayed(p: Play, exp: string, env: Environment, cancel: nat -> bool)
    requires p.content == Concat(p.pieces) && p.halt == Running
    ensures var q := PlayValue(p, exp, env, cancel);
            q.content == Concat(q.pieces) && (q.halt == Raised <==> exp !in env) &&
            (q.halt == Running ==> q.content == p.content + Shown(env[exp]) &&
                                   q.inputs == p.inputs[exp := Shown(env[exp])])
  {
    if exp in env {
      if env[exp].Chunks? {
        hide PlayChunks, Concat;
        ChunksPlayed(p, env[exp].chunks, cancel);
      } else {
        hide Concat;
        ConcatSnoc(p.pieces, Shown(env[exp]));
      }
    }
  }

  lemma CheckedLiteral(p: Play, literal: string, cancel: nat -> bool)
    requires p.content == Concat(p.pieces)
    ensures var q := Say(Check(p, cancel), literal);
            q.content == Concat(q.pieces) && (q.halt == Raised <==> p.halt == Raised) && q.inputs == p.inputs &&
            (q.halt == Running ==> p.halt == Running && q.content == p.content + literal)
  {
    hide Concat;
    ConcatSnoc(p.pieces, literal);
  }

  /** What holds of the state after some of the parts. */
  predicate Told(q: Play, p: Play, parts: seq<Part>, env: Environment) {
    && q.content == Concat(q.pieces)
    && (q.halt == Raised ==> !Resolves(parts, env))
    && (q.halt == Running ==> Resolves(parts, env) && q.content == p.content + RenderParts(parts, env))
  }

  lemma ToldOneMore(p: Play, parts: seq<Part>, env: Environment, q: Play, r: Play)
    requires parts != [] && Told(q, p, parts[..|parts| - 1], env)
    requires var part := parts[|parts| - 1];
             r.content == Concat(r.pieces) &&
             (r.halt == Running ==> q.halt == Running && part.exp in env &&
                                    r.content == q.content + part.literal + Shown(env[part.exp])) &&
             (r.halt == Raised ==> q.halt == Raised || part.exp !in env)
    ensures Told(r, p, parts, env)
  {
    hide Shown, Concat;
    var n := |parts| - 1;
    assert forall k :: 0 <= k < n ==> parts[..n][k] == parts[k];
  }

  lemma {:induction false} PartsPlayed(p: Play, parts: seq<Part>, env: Environment, cancel: nat -> bool)
    requires p.content == Concat(p.pieces) && p.halt == Running
    ensures Told(PlayParts(p, parts, env, cancel), p, parts, env)
    decreases |parts|
  {
    if parts != [] {
      hide PlayValue, Say, Check, Shown, Concat, Told;
      var n := |parts| - 1;
      PartsPlayed(p, parts[..n], env, cancel);
      var q := PlayParts(p, parts[..n], env, cancel);
      PartPlayed(q, parts[n], env, cancel);
      var r := PlayParts(p, parts, env, cancel);
      ToldOneMore(p, parts, env, q, r);
    }
  }

  lemma PartPlayed(q: Play, part: Part, env: Environment, cancel: nat -> bool)
    requires q.content == Concat(q.pieces)
    ensures var r := PlayValue(Say(Check(q, cancel), part.literal), part.exp, env, cancel);
            r.content == Concat(r.pieces) &&
            (r.halt == Running ==> q.halt == Running && part.exp in env &&
                                   r.content == q.content + part.literal + Shown(env[part.exp])) &&
            (r.halt == Raised ==> q.halt == Raised || part.exp !in env)
  {
    hide PlayValue, Say, Check, Shown, Concat;
    CheckedLiteral(q, part.literal, cancel);
    var said := Say(Check(q, cancel), part.literal);
    if said.halt == Running {
      ValuePlayed(said, part.exp, env, cancel);
    } else {
      HaltedValue(said, part.exp, env, cancel);
    }
  }

  lemma HaltedValue(p: Play, exp: string, env: Environment, cancel: nat -> bool)
    requires p.halt != Running
    ensures PlayValue(p, exp, env, cancel) == p
  {
  }

  /** Main result: whatever the cancellation flag answers, the stored content is the pieces handed out;
      a run that ends by itself handed out the whole rendered text; a run fails only on a reference that
      does not resolve. */
  lemma StreamShowsTheText(t: Template, env: Environment, inputs: map<string, string>, cancel: nat -> bool)
    ensures var q := PlayAll(Fresh(inputs), t, env, cancel);
            q.content == Concat(q.pieces) && (q.halt == Raised ==> !Resolves(t.parts, env)) &&
            (q.halt == Running ==> Resolves(t.parts, env) && q.content == Render(t, env))
  {
    hide PlayParts, RenderParts;
    PartsPlayed(Fresh(inputs), t.parts, env, cancel);
    CheckedLiteral(PlayParts(Fresh(inputs), t.parts, env, cancel), t.tail, cancel);
  }

  /** What a reader sees of each kind of value, and what is recorded as the input: nothing, the text itself, the chunks
      one after the other, the text awaited, and for any other value its JSON form or else its printed form. */
  lemma EachValueShows(exp: string, v: Value, never: nat -> bool)
    requires forall c: nat :: !never(c)
    ensures var q := PlayAll(Fresh(map[]), Template([Part("", exp)], ""), map[exp := v], never);
            && q.halt == Running && q.inputs == map[exp := q.content]
            && (v.Nothing? ==> q.content == "")
            && (v.Text? || v.Awaitable? ==> q.content == v.text)
            && (v.Chunks? ==> q.content == Concat(v.chunks))
            && (v.Other? && v.dump.Some? ==> q.content == v.dump.value)
            && (v.Other? && v.dump.None? ==> q.content == v.repr)
  {
    hide Concat, PlayChunks;
    ConcatNone();
    var env := map[exp := v];
    var part := Part("", exp);
    var p := Fresh(map[]);
    assert [part][..0] == [];
    var said := Say(Check(p, never), "");
    CheckedLiteral(p, "", never);
    assert PlayParts(p, [part], env, never) == PlayValue(said, exp, env, never);
    ValuePlayed(said, exp, env, never);
    if v.Chunks? {
      ChunksGoOn(said, v.chunks, never);
    }
    var q := PlayValue(said, exp, env, never);
    assert q.halt == Running && q.content == said.content + Shown(v) == Shown(v);
    assert said.inputs == map[] && said.inputs[exp := Shown(v)] == map[exp := Shown(v)];
  }

  lemma {:induction false} ChunksGoOn(p: Play, chunks: seq<string>, never: nat -> bool)
    requires p.halt == Running && forall c: nat :: !never(c)
    ensures PlayChunks(p, chunks, never).halt == Running
    decreases |chunks|
  {
    if chunks != [] {
      ChunksGoOn(p, chunks[..|chunks| - 1], never);
    }
  }

  // ---------------------------------------------------------------- cancellation

  /** How often a reference makes the run look at the cancellation flag: once for each chunk of a lazy value. */
  function ValueChecks(v: Value): nat {
    if v.Chunks? then |v.chunks| else 0
  }

  /** How often the parts do: once before each literal, and as their values ask for. */
  function PartChecks(parts: seq<Part>, env: Environment): nat
    requires Resolves(parts, env)
  {
    if parts == [] then 0 else
    var n := |parts| - 1;
    PartChecks(parts[..n], env) + 1 + ValueChecks(env[parts[n].exp])
  }

  /** Every answer taken was no, but for the last one of a canceled run. */
  predicate Asked(p: Play, cancel: nat -> bool) {
    && (p.halt == Canceled ==> p.checks > 0 && cancel(p.checks - 1))
    && forall c: nat :: c < (if p.halt == Canceled then p.checks - 1 else p.checks) ==> !cancel(c)
  }

  lemma CheckAsks(p: Play, s: string, cancel: nat -> bool)
    requires Asked(p, cancel)
    ensures var q := Say(Check(p, cancel), s);
            && Asked(q, cancel) && (q.halt == Running ==> p.halt == Running && q.checks == p.checks + 1 && q.inputs == p.inputs)
            && (q.halt == Raised ==> p.halt == Raised)
  {
  }

  lemma {:induction false} ChunksAsk(p: Play, chunks: seq<string>, cancel: nat -> bool)
    requires Asked(p, cancel)
    ensures var q := PlayChunks(p, chunks, cancel);
            && Asked(q, cancel) && (q.halt == Running ==> p.halt == Running && q.checks == p.checks + |chunks| && q.inputs == p.inputs)
    decreases |chunks|
  {
    if chunks != [] {
      hide Asked, Say, Check;
      var n := |chunks| - 1;
      ChunksAsk(p, chunks[..n], cancel);
      CheckAsks(PlayChunks(p, chunks[..n], cancel), chunks[n], cancel);
    }
  }

  lemma ValueAsks(p: Play, exp: string, env: Environment, cancel: nat -> bool)
    requires Asked(p, cancel)
    ensures var q := PlayValue(p, exp, env, cancel);
            && Asked(q, cancel)
            && (q.halt == Running ==> p.halt == Running && exp in env && q.checks == p.checks + ValueChecks(env[exp]))
  {
    hide PlayChunks, Concat, Shown;
    if exp in env && env[exp].Chunks? {
      ChunksAsk(p, env[exp].chunks, cancel);
    }
  }

  lemma {:induction false} PartsAsk(p: Play, parts: seq<Part>, env: Environment, cancel: nat -> bool)
    requires Asked(p, cancel)
    ensures var q := PlayParts(p, parts, env, cancel);
            && Asked(q, cancel)
            && (q.halt == Running ==> p.halt == Running && Resolves(parts, env) && q.checks == p.checks + PartChecks(parts, env))
    decreases |parts|
  {
    if parts != [] {
      hide Asked, Say, Check, PlayValue, ValueChecks;
      var n := |parts| - 1;
      PartsAsk(p, parts[..n], env, cancel);
      var q := PlayParts(p, parts[..n], env, cancel);
      CheckAsks(q, parts[n].literal, cancel);
      ValueAsks(Say(Check(q, cancel), parts[n].literal), parts[n].exp, env, cancel);
    }
  }

  /** Main result: the run looks at the flag before each literal, each chunk and the tail; it is canceled exactly by the
      first yes, and a run that ends by itself has asked that often and always heard no. */
  lemma CanceledByTheFirstYes(t: Template, env: Environment, inputs: map<string, string>, cancel: nat -> bool)
    ensures var q := PlayAll(Fresh(inputs), t, env, cancel);
            && (q.halt == Canceled ==> q.checks > 0 && cancel(q.checks - 1) && forall c: nat :: c < q.checks - 1 ==> !cancel(c))
            && (q.halt != Canceled ==> forall c: nat :: c < q.checks ==> !cancel(c))
            && (q.halt == Running ==> Resolves(t.parts, env) && q.checks == PartChecks(t.parts, env) + if t.tail == "" then 0 else 1)
  {
    hide PlayParts, PartChecks, Resolves;
    PartsAsk(Fresh(inputs), t.parts, env, cancel);
    CheckAsks(PlayParts(Fresh(inputs), t.parts, env, cancel), t.tail, cancel);
  }

  /** `p` is `q` cut short, or `q` itself. */
  predicate Cut(p: Play, q: Play) {
    && p.pieces <= q.pieces
    && (p.halt != Canceled ==> p == q)
  }

  lemma CutSay(p: Play, q: Play, s: string, cancel: nat -> bool, never: nat -> bool)
    requires Cut(p, q) && q.halt != Canceled && forall c: nat :: !never(c)
    ensures Cut(Check(p, cancel), Check(q, never)) && Check(q, never).halt == q.halt
    ensures Cut(Say(Check(p, cancel), s), Say(Check(q, never), s))
  {
  }

  lemma {:induction false} CutChunks(p: Play, q: Play, chunks: seq<string>, cancel: nat -> bool, never: nat -> bool)
    requires Cut(p, q) && q.halt != Canceled && forall c: nat :: !never(c)
    ensures Cut(PlayChunks(p, chunks, cancel), PlayChunks(q, chunks, never))
    ensures PlayChunks(q, chunks, never).halt == q.halt
    decreases |chunks|
  {
    if chunks != [] {
      hide Cut;
      var n := |chunks| - 1;
      CutChunks(p, q, chunks[..n], cancel, never);
      CutSay(PlayChunks(p, chunks[..n], cancel), PlayChunks(q, chunks[..n], never), chunks[n], cancel, never);
    }
  }

  lemma {:induction false} HaltedChunks(p: Play, chunks: seq<string>, cancel: nat -> bool)
    ensures p.halt != Running ==> PlayChunks(p, chunks, cancel) == p
    decreases |chunks|
  {
    if chunks != [] {
      HaltedChunks(p, chunks[..|chunks| - 1], cancel);
    }
  }

  lemma CutValue(p: Play, q: Play, exp: string, env: Environment, cancel: nat -> bool, never: nat -> bool)
    requires Cut(p, q) && q.halt != Canceled && forall c: nat :: !never(c)
    ensures Cut(PlayValue(p, exp, env, cancel), PlayValue(q, exp, env, never))
    ensures PlayValue(q, exp, env, never).halt != Canceled
  {
    hide Concat;
    if exp in env && env[exp].Chunks? {
      hide PlayChunks;
      CutChunks(p, q, env[exp].chunks, cancel, never);
      HaltedChunks(p, env[exp].chunks, cancel);
    }
  }

  lemma {:induction false} CutParts(p: Play, q: Play, parts: seq<Part>, env: Environment, cancel: nat -> bool, never: nat -> bool)
    requires Cut(p, q) && q.halt != Canceled && forall c: nat :: !never(c)
    ensures Cut(PlayParts(p, parts, env, cancel), PlayParts(q, parts, env, never))
    ensures PlayParts(q, parts, env, never).halt != Canceled
    decreases |parts|
  {
    if parts != [] {
      hide Cut, PlayValue, Say, Check;
      var n := |parts| - 1;
      CutParts(p, q, parts[..n], env, cancel, never);
      var a, b := PlayParts(p, parts[..n], env, cancel), PlayParts(q, parts[..n], env, never);
      CutSay(a, b, parts[n].literal, cancel, never);
      SayKeepsHalt(b, parts[n].literal, never);
      CutValue(Say(Check(a, cancel), parts[n].literal), Say(Check(b, never), parts[n].literal), parts[n].exp, env, cancel, never);
    }
  }

  lemma SayKeepsHalt(q: Play, s: string, never: nat -> bool)
    requires forall c: nat :: !never(c)
    ensures Say(Check(q, never), s).halt == q.halt
  {
  }

  /** Main result: cancellation only cuts. A canceled run hands out a prefix of the pieces of the run
      that is never canceled, and a run that is not canceled is that run. */
  lemma CancellationOnlyCuts(t: Template, env: Environment, inputs: map<string, string>, cancel: nat -> bool, never: nat -> bool)
    requires forall c: nat :: !never(c)
    ensures Cut(PlayAll(Fresh(inputs), t, env, cancel), PlayAll(Fresh(inputs), t, env, never))
    ensures PlayAll(Fresh(inputs), t, env, never).halt == Running <==> Resolves(t.parts, env)
  {
    hide PlayParts, RenderParts, Concat;
    var p := Fresh(inputs);
    CutParts(p, p, t.parts, env, cancel, never);
    var a, b := PlayParts(p, t.parts, env, cancel), PlayParts(p, t.parts, env, never);
    CutSay(a, b, t.tail, cancel, never);
    SayKeepsHalt(b, t.tail, never);
    StreamShowsTheText(t, env, inputs, never);
  }

  // ---------------------------------------------------------------- filling in at once

  /** Values the one-shot form can show: no awaitable, no asynchronous stream, and a JSON form for every
      value that is not a text. */
  predicate Plain(v: Value) {
    match v
    case Chunks(_, isAsync) => !isAsync
    case Awaitable(_) => false
    case Other(dump, _) => dump.Some?
    case _ => true
  }

  predicate AllPlain(parts: seq<Part>, env: Environment) {
    forall k :: 0 <= k < |parts| ==> parts[k].exp in env && Plain(env[parts[k].exp])
  }

  /** The one-shot substitution. No result stands for an exception. */
  method GetValueWithVariable(t: Template, env: Environment) returns (r: Option<string>)
    ensures r.Some? <==> AllPlain(t.parts, env)
    ensures r.Some? ==> r.value == Render(t, env)
  {
    hide Concat;
    var outParts: seq<string> := [];
    ConcatNone();
    var i := 0;
    while i < |t.parts|
      invariant 0 <= i <= |t.parts|
      invariant forall k :: 0 <= k < i ==> t.parts[k].exp in env && Plain(env[t.parts[k].exp])
      invariant Concat(outParts) == RenderParts(t.parts[..i], env)
    {
      var part := t.parts[i];
      if part.exp !in env {
        return None;
      }
      var rep := "";
      match env[part.exp] {
        case Nothing => rep := "";
        case Text(s) => rep := s;
        case Chunks(cs, isAsync) =>
          if isAsync {
            return None;
          }
          rep := Concat(cs);
        case Awaitable(_) =>
          return None;
        case Other(dump, _) =>
          if dump.None? {
            return None;
          }
          rep := dump.value;
      }
      assert t.parts[..i + 1][..i] == t.parts[..i];
      ConcatSnoc(outParts, part.literal);
      ConcatSnoc(outParts + [part.literal], rep);
      outParts := outParts + [part.literal] + [rep];
      i := i + 1;
    }
    assert t.parts[..i] == t.parts;
    ConcatSnoc(outParts, t.tail);
    r := Some(Concat(outParts + [t.tail]));
  }

  lemma ConcatNone()
    ensures Concat<char>([]) == ""
  {
  }
}
