/** The standard state: typed fields with defaults, stored in a canvas under the prefix "sys.". */
module StateSchema {
  import opened Prelude

  datatype Type = TStr | TList | TInt | TBool | TFloat

  datatype Val = NoneV | BoolV(b: bool) | IntV(i: int) | FloatV(x: real) | StrV(s: string) | ListV(items: seq<Val>) | OtherV(id: int)

  type Dict = map<string, Val>

  /** A Boolean is also an integer. */
  predicate IsInstance(v: Val, t: Type) {
    match t
    case TStr => v.StrV?
    case TList => v.ListV?
    case TInt => v.IntV? || v.BoolV?
    case TBool => v.BoolV?
    case TFloat => v.FloatV?
  }

  datatype FieldSpec = FieldSpec(kind: Type, default: Val)

  datatype Schema = Schema(names: seq<string>, spec: map<string, FieldSpec>)

  const VERSION_KEY := "state_schema_version"
  const VERSION := StrV("1.0")

  ghost predicate WellFormed(sc: Schema) {
    && (forall f :: f in sc.names <==> f in sc.spec)
    && (forall f :: f in sc.spec ==> IsInstance(sc.spec[f].default, sc.spec[f].kind))
    && VERSION_KEY !in sc.spec
  }

  /** The built-in conversions; None: the conversion raises. A result has the type asked for. */
  type Converter = (Val, Type) -> Option<Val>

  ghost predicate Converts(conv: Converter) {
    forall v, t :: conv(v, t).Some? ==> IsInstance(conv(v, t).value, t)
  }

  // ---------------------------------------------------------------- upgrading a state

  function UpgradeValue(conv: Converter, spec: FieldSpec, v: Val): Val {
    if IsInstance(v, spec.kind) then v
    else if spec.kind.TList? && v.NoneV? then ListV([])
    else var c := conv(v, spec.kind); if c.Some? then c.value else spec.default
  }

  function UpgradeField(conv: Converter, spec: FieldSpec, state: Dict, f: string): Val {
    if f in state then UpgradeValue(conv, spec, state[f]) else spec.default
  }

  /** The upgraded state: every field of the schema filled in or converted, and the version set. */
  function Upgraded(sc: Schema, conv: Converter, state: Dict): Dict {
    (state + map f | f in sc.spec :: UpgradeField(conv, sc.spec[f], state, f))[VERSION_KEY := VERSION]
  }

  /** The state after the fields `names` have been upgraded one by one. */
  function UpgradeRun(sc: Schema, conv: Converter, state: Dict, names: seq<string>): Dict {
    if names == [] then state else
    var before := UpgradeRun(sc, conv, state, names[..|names| - 1]);
    var f := names[|names| - 1];
    if f in sc.spec then before[f := UpgradeField(conv, sc.spec[f], before, f)] else before
  }

  lemma {:induction false} UpgradeRunFields(sc: Schema, conv: Converter, state: Dict, names: seq<string>, f: string)
    requires WellFormed(sc) && Converts(conv)
    ensures var r := UpgradeRun(sc, conv, state, names);
            if f in sc.spec && f in names then f in r && r[f] == UpgradeField(conv, sc.spec[f], state, f)
            else (f in r <==> f in state) && (f in state ==> r[f] == state[f])
  {
    if names != [] {
      var front := names[..|names| - 1];
      assert names == front + [names[|names| - 1]];
      UpgradeRunFields(sc, conv, state, front, f);
    }
  }

  lemma UpgradeRunIsUpgraded(sc: Schema, conv: Converter, state: Dict)
    requires WellFormed(sc) && Converts(conv)
    ensures UpgradeRun(sc, conv, state, sc.names)[VERSION_KEY := VERSION] == Upgraded(sc, conv, state)
  {
    var r := UpgradeRun(sc, conv, state, sc.names)[VERSION_KEY := VERSION];
    var u := Upgraded(sc, conv, state);
    forall f
      ensures (f in r <==> f in u) && (f in u ==> r[f] == u[f])
    {
      UpgradeRunFields(sc, conv, state, sc.names, f);
    }
  }

  /** `state` is None when what was stored is not a dictionary at all. */
  method UpgradeState(sc: Schema, conv: Converter, state: Option<Dict>) returns (r: Dict)
    requires WellFormed(sc) && Converts(conv)
    ensures r == Upgraded(sc, conv, if state.Some? then state.value else map[])
  {
    hide UpgradeValue, Upgraded;
    var s := if state.Some? then state.value else map[];
    var upgraded := s;
    var k := 0;
    while k < |sc.names|
      invariant 0 <= k <= |sc.names| && upgraded == UpgradeRun(sc, conv, s, sc.names[..k])
    {
      var f := sc.names[k];
      assert sc.names[..k + 1][..k] == sc.names[..k] && f in sc.spec;
      if f !in upgraded {
        upgraded := upgraded[f := sc.spec[f].default];
      } else {
        upgraded := upgraded[f := UpgradeValue(conv, sc.spec[f], upgraded[f])];
      }
      k := k + 1;
    }
    assert sc.names[..k] == sc.names;
    UpgradeRunIsUpgraded(sc, conv, s);
    r := upgraded[VERSION_KEY := VERSION];
  }

  /** Every field present with its type, and the current version. */
  ghost predicate FullyTyped(sc: Schema, state: Dict) {
    && (forall f :: f in sc.spec ==> f in state && IsInstance(state[f], sc.spec[f].kind))
    && VERSION_KEY in state && state[VERSION_KEY] == VERSION
  }

  lemma UpgradedIsTyped(sc: Schema, conv: Converter, state: Dict)
    requires WellFormed(sc) && Converts(conv)
    ensures FullyTyped(sc, Upgraded(sc, conv, state))
  {
  }

  /** An upgrade changes nothing in a typed state, hence nothing in an upgraded one. */
  lemma UpgradeTwice(sc: Schema, conv: Converter, state: Dict)
    requires WellFormed(sc) && Converts(conv)
    ensures FullyTyped(sc, state) <==> Upgraded(sc, conv, state) == state
    ensures Upgraded(sc, conv, Upgraded(sc, conv, state)) == Upgraded(sc, conv, state)
  {
    TypedIsFixed(sc, conv, Upgraded(sc, conv, state));
    UpgradedIsTyped(sc, conv, state);
    TypedIsFixed(sc, conv, state);
  }

  lemma TypedIsFixed(sc: Schema, conv: Converter, state: Dict)
    requires WellFormed(sc) && Converts(conv)
    ensures FullyTyped(sc, state) ==> Upgraded(sc, conv, state) == state
  {
    var u := Upgraded(sc, conv, state);
    if FullyTyped(sc, state) {
      assert u.Keys == state.Keys;
      assert forall f :: f in u ==> u[f] == state[f];
    }
  }

  // ---------------------------------------------------------------- the state inside a canvas

  function Key(f: string): string { "sys." + f }

  lemma KeyInjective(f: string, f': string)
    ensures Key(f) == Key(f') ==> f == f'
  {
    assert Key(f)[4..] == f && Key(f')[4..] == f';
  }

  /** The fields stored under their prefixed name or, failing that, under the legacy one. */
  function Gathered(sc: Schema, globals: Dict): Dict {
    map f | f in sc.spec && (Key(f) in globals || f in globals) :: if Key(f) in globals then globals[Key(f)] else globals[f]
  }

  function GatherRun(globals: Dict, names: seq<string>): Dict {
    if names == [] then map[] else
    var before := GatherRun(globals, names[..|names| - 1]);
    var f := names[|names| - 1];
    if Key(f) in globals then before[f := globals[Key(f)]]
    else if f in globals then before[f := globals[f]] else before
  }

  lemma {:induction false} GatherRunFields(globals: Dict, names: seq<string>, f: string)
    ensures var r := GatherRun(globals, names);
            && (f in r <==> f in names && (Key(f) in globals || f in globals))
            && (f in r ==> r[f] == if Key(f) in globals then globals[Key(f)] else globals[f])
  {
    hide Key;
    if names != [] {
      var front := names[..|names| - 1];
      assert names == front + [names[|names| - 1]];
      GatherRunFields(globals, front, f);
    }
  }

  lemma GatherRunIsGathered(sc: Schema, globals: Dict)
    requires WellFormed(sc)
    ensures GatherRun(globals, sc.names) == Gathered(sc, globals)
  {
    hide Key;
    forall f
      ensures var r, g := GatherRun(globals, sc.names), Gathered(sc, globals);
              (f in r <==> f in g) && (f in g ==> r[f] == g[f])
    {
      GatherRunFields(globals, sc.names, f);
    }
  }

  predicate SchemaName(sc: Schema, f: string) { f in sc.spec || f == VERSION_KEY }

  /** `globals` with the schema's fields (and version) of `state` written under their keys. */
  ghost predicate Wrote(sc: Schema, globals: Dict, state: Dict, r: Dict) {
    && (forall f :: SchemaName(sc, f) ==> f in state && Key(f) in r && r[Key(f)] == state[f])
    && (forall key :: (forall f :: SchemaName(sc, f) ==> key != Key(f)) ==>
          (key in r <==> key in globals) && (key in globals ==> r[key] == globals[key]))
  }

  function Truthy(v: Val): bool {
    match v
    case NoneV => false
    case BoolV(b) => b
    case IntV(i) => i != 0
    case FloatV(x) => x != 0.0
    case StrV(s) => s != ""
    case ListV(items) => items != []
    case OtherV(_) => true
  }

  function Get(d: Dict, key: string, default: Val): Val {
    if key in d then d[key] else default
  }

  function Extracted(sc: Schema, globals: Dict): Dict {
    (map f | f in sc.spec :: Get(globals, Key(f), sc.spec[f].default))
      [VERSION_KEY := var v := Get(globals, Key(VERSION_KEY), NoneV); if Truthy(v) then v else VERSION]
  }

  /** What `apply` writes: a missing field is written as its default. */
  function Filled(sc: Schema, state: Dict): Dict {
    (map f | f in sc.spec :: Get(state, f, sc.spec[f].default))[VERSION_KEY := Get(state, VERSION_KEY, VERSION)]
  }

  lemma TypedHasFields(sc: Schema, state: Dict)
    requires FullyTyped(sc, state)
    ensures forall f :: SchemaName(sc, f) ==> f in state
  {
  }

  function ExtractRun(sc: Schema, globals: Dict, names: seq<string>): Dict {
    if names == [] then map[] else
    var before := ExtractRun(sc, globals, names[..|names| - 1]);
    var f := names[|names| - 1];
    if f in sc.spec then before[f := Get(globals, Key(f), sc.spec[f].default)] else before
  }

  lemma {:induction false} ExtractRunFields(sc: Schema, globals: Dict, names: seq<string>, f: string)
    ensures var r := ExtractRun(sc, globals, names);
            && (f in r <==> f in names && f in sc.spec)
            && (f in r ==> r[f] == Get(globals, Key(f), sc.spec[f].default))
  {
    hide Key;
    if names != [] {
      var front := names[..|names| - 1];
      assert names == front + [names[|names| - 1]];
      ExtractRunFields(sc, globals, front, f);
    }
  }

  lemma ExtractRunIsExtracted(sc: Schema, globals: Dict)
    requires WellFormed(sc)
    ensures ExtractRun(sc, globals, sc.names) == map f | f in sc.spec :: Get(globals, Key(f), sc.spec[f].default)
  {
    hide Key;
    forall f
      ensures f in ExtractRun(sc, globals, sc.names) <==> f in sc.spec
      ensures f in sc.spec ==> ExtractRun(sc, globals, sc.names)[f] == Get(globals, Key(f), sc.spec[f].default)
    {
      ExtractRunFields(sc, globals, sc.names, f);
    }
  }

  class Canvas {
    var globals: Dict

    constructor (globals: Dict)
      ensures this.globals == globals
    {
      this.globals := globals;
    }

    method Put(sc: Schema, state: Dict)
      requires WellFormed(sc) && forall f :: SchemaName(sc, f) ==> f in state
      modifies this
      ensures Wrote(sc, old(globals), state, globals)
    {
      var k := 0;
      while k < |sc.names|
        invariant 0 <= k <= |sc.names|
        invariant forall f :: f in sc.names[..k] ==> Key(f) in globals && globals[Key(f)] == state[f]
        invariant forall key :: (forall f :: f in sc.names[..k] ==> key != Key(f)) ==>
          (key in globals <==> key in old(globals)) && (key in globals ==> globals[key] == old(globals)[key])
      {
        var f := sc.names[k];
        assert f in sc.spec && SchemaName(sc, f);
        forall f' | f' in sc.names[..k]
          ensures f' != f ==> Key(f') != Key(f)
        {
          KeyInjective(f, f');
        }
        globals := globals[Key(f) := state[f]];
        assert sc.names[..k + 1] == sc.names[..k] + [f];
        k := k + 1;
      }
      assert sc.names[..k] == sc.names;
      forall f | f in sc.spec
        ensures Key(f) != Key(VERSION_KEY)
      {
        KeyInjective(f, VERSION_KEY);
      }
      assert SchemaName(sc, VERSION_KEY);
      globals := globals[Key(VERSION_KEY) := state[VERSION_KEY]];
    }

    /** Bring the stored state up to the current schema. */
    method UpgradeGlobals(sc: Schema, conv: Converter)
      requires WellFormed(sc) && Converts(conv)
      modifies this
      ensures Wrote(sc, old(globals), Upgraded(sc, conv, Gathered(sc, old(globals))), globals)
    {
      hide Key, Upgraded, Gathered, WellFormed, Wrote;
      var state: Dict := map[];
      var k := 0;
      while k < |sc.names|
        invariant 0 <= k <= |sc.names| && globals == old(globals) && state == GatherRun(globals, sc.names[..k])
      {
        var f := sc.names[k];
        assert sc.names[..k + 1][..k] == sc.names[..k];
        if Key(f) in globals {
          state := state[f := globals[Key(f)]];
        } else if f in globals {
          state := state[f := globals[f]];
        }
        k := k + 1;
      }
      assert sc.names[..k] == sc.names;
      GatherRunIsGathered(sc, globals);
      var upgraded := UpgradeState(sc, conv, Some(state));
      UpgradedIsTyped(sc, conv, state);
      TypedHasFields(sc, upgraded);
      Put(sc, upgraded);
    }

    method ApplyState(sc: Schema, state: Dict)
      requires WellFormed(sc)
      modifies this
      ensures Wrote(sc, old(globals), Filled(sc, state), globals)
    {
      Put(sc, Filled(sc, state));
    }

    method ExtractState(sc: Schema) returns (state: Dict)
      requires WellFormed(sc)
      ensures state == Extracted(sc, globals)
    {
      hide Key, Get;
      state := map[];
      var k := 0;
      while k < |sc.names|
        invariant 0 <= k <= |sc.names| && state == ExtractRun(sc, globals, sc.names[..k])
      {
        var f := sc.names[k];
        assert sc.names[..k + 1][..k] == sc.names[..k] && f in sc.spec;
        state := state[f := Get(globals, Key(f), sc.spec[f].default)];
        k := k + 1;
      }
      assert sc.names[..k] == sc.names;
      ExtractRunIsExtracted(sc, globals);
      var v := Get(globals, Key(VERSION_KEY), NoneV);
      state := state[VERSION_KEY := if Truthy(v) then v else VERSION];
    }
  }

  /** Upgrading the globals twice is upgrading them once. */
  lemma UpgradeGlobalsTwice(sc: Schema, conv: Converter, g: Dict, g1: Dict, g2: Dict)
    requires WellFormed(sc) && Converts(conv)
    requires Wrote(sc, g, Upgraded(sc, conv, Gathered(sc, g)), g1)
    requires Wrote(sc, g1, Upgraded(sc, conv, Gathered(sc, g1)), g2)
    ensures g2 == g1
  {
    hide Key, Upgraded, FullyTyped;
    var u := Upgraded(sc, conv, Gathered(sc, g));
    UpgradedIsTyped(sc, conv, Gathered(sc, g));
    GatheredBack(sc, conv, g, g1, u);
    forall key
      ensures key in g2 <==> key in g1
      ensures key in g1 ==> g2[key] == g1[key]
    {
      if exists f :: SchemaName(sc, f) && key == Key(f) {
        var f :| SchemaName(sc, f) && key == Key(f);
        assert g2[Key(f)] == u[f] && g1[Key(f)] == u[f];
      }
    }
  }

  lemma GatheredBack(sc: Schema, conv: Converter, g: Dict, g1: Dict, u: Dict)
    requires WellFormed(sc) && Converts(conv) && FullyTyped(sc, u) && Wrote(sc, g, u, g1)
    ensures forall f :: SchemaName(sc, f) ==>
              f in Upgraded(sc, conv, Gathered(sc, g1)) && Upgraded(sc, conv, Gathered(sc, g1))[f] == u[f]
  {
    hide Key;
    forall f | f in sc.spec
      ensures f in Gathered(sc, g1) && Gathered(sc, g1)[f] == u[f]
    {
      assert SchemaName(sc, f) && Key(f) in g1;
    }
  }

  /** Applying a snapshot to any canvas and extracting it again gives the snapshot back on the
      schema's fields, for every snapshot whose version is truthy, so for every upgraded one. */
  lemma ApplyThenExtract(sc: Schema, g: Dict, state: Dict, g1: Dict)
    requires WellFormed(sc) && Wrote(sc, g, Filled(sc, state), g1)
    ensures Extracted(sc, g1) == Filled(sc, state) <==> Truthy(Get(state, VERSION_KEY, VERSION))
    ensures forall f :: f in sc.spec && f in state ==> Extracted(sc, g1)[f] == state[f]
  {
    var e, w := Extracted(sc, g1), Filled(sc, state);
    assert SchemaName(sc, VERSION_KEY) && Key(VERSION_KEY) in g1;
    forall f | f in sc.spec
      ensures e[f] == w[f]
    {
      assert SchemaName(sc, f) && Key(f) in g1;
    }
    assert e.Keys == w.Keys;
    var v := Get(state, VERSION_KEY, VERSION);
    assert w[VERSION_KEY] == v && e[VERSION_KEY] == (if Truthy(v) then v else VERSION);
  }

  lemma UpgradedSnapshotSurvives(sc: Schema, conv: Converter, stored: Dict, g: Dict, g1: Dict)
    requires WellFormed(sc) && Converts(conv) && Wrote(sc, g, Filled(sc, Upgraded(sc, conv, stored)), g1)
    ensures forall f :: SchemaName(sc, f) ==> f in Extracted(sc, g1) && Extracted(sc, g1)[f] == Upgraded(sc, conv, stored)[f]
  {
    var u := Upgraded(sc, conv, stored);
    UpgradedIsTyped(sc, conv, stored);
    ApplyThenExtract(sc, g, u, g1);
    assert Extracted(sc, g1) == Filled(sc, u);
  }

  // ---------------------------------------------------------------- the schema of the repository

  function Spec(names: seq<string>, s: FieldSpec): map<string, FieldSpec> {
    map f | f in names :: s
  }

  const TEXTS := ["query", "thread_id", "rewritten_query", "hypothetical_answer", "hyde_retrieval_query",
                  "selected_strategy", "final_answer", "answer_with_citations"]
  const LISTS := ["messages", "retrieved_docs", "graded_docs", "sub_queries", "retry_history", "tool_calls"]
  const COUNTS := ["retry_count", "accumulated_retry_tokens", "hallucination_retry_count"]
  const FLAGS := ["should_retry", "retry_exceeded", "trigger_web_search_fallback", "web_search_fallback_triggered",
                  "is_chitchat", "is_hallucination"]

  const STANDARD := Schema(
    TEXTS + LISTS + COUNTS + FLAGS + ["max_retries", "faithfulness_score"],
    Spec(TEXTS, FieldSpec(TStr, StrV(""))) + Spec(LISTS, FieldSpec(TList, ListV([]))) +
    Spec(COUNTS, FieldSpec(TInt, IntV(0))) + Spec(FLAGS, FieldSpec(TBool, BoolV(false))) +
    map["max_retries" := FieldSpec(TInt, IntV(3)), "faithfulness_score" := FieldSpec(TFloat, FloatV(0.0))])

  lemma VersionIsNoField()
    ensures VERSION_KEY !in TEXTS && VERSION_KEY !in LISTS && VERSION_KEY !in COUNTS && VERSION_KEY !in FLAGS
    ensures VERSION_KEY !in ["max_retries", "faithfulness_score"]
  {
    assert |VERSION_KEY| == 20 && VERSION_KEY[0] == 's';
  }

  lemma StandardIsWellFormed()
    ensures WellFormed(STANDARD)
  {
    VersionIsNoField();
    hide TEXTS, LISTS, COUNTS, FLAGS, VERSION_KEY;
  }

  // ---------------------------------------------------------------- what an upgrade makes of each field

  /** What an upgrade makes of what it finds for a field: the default of a missing field; a value of the field's type,
      where a Boolean counts as an integer, as it is; else its conversion, where None becomes an empty list, and the
      default if that raises. */
  predicate Becomes(conv: Converter, spec: FieldSpec, found: Option<Val>, r: Val) {
    if found.None? then r == spec.default else
    var v, t := found.value, spec.kind;
    if (t.TStr? && v.StrV?) || (t.TList? && v.ListV?) || (t.TInt? && (v.IntV? || v.BoolV?)) || (t.TBool? && v.BoolV?) || (t.TFloat? && v.FloatV?)
    then r == v
    else if t.TList? && v.NoneV? then r == ListV([])
    else if conv(v, t).Some? then Some(r) == conv(v, t)
    else r == spec.default
  }

  /** Main result: what an upgrade makes of every key; keys outside the schema are kept. */
  lemma UpgradedExactly(sc: Schema, conv: Converter, state: Dict, f: string)
    requires WellFormed(sc) && Converts(conv)
    ensures var u, found := Upgraded(sc, conv, state), if f in state then Some(state[f]) else None;
            if f == "state_schema_version" then f in u && u[f] == StrV("1.0")
            else if f in sc.spec then f in u && Becomes(conv, sc.spec[f], found, u[f])
            else (f in u <==> f in state) && (f in state ==> u[f] == state[f])
  {
  }

  /** In the globals a field is looked up under its prefixed name first, then under its own, and what that becomes is
      written under the prefixed name. */
  lemma UpgradedGlobalsExactly(sc: Schema, conv: Converter, globals: Dict, r: Dict, f: string)
    requires WellFormed(sc) && Converts(conv) && Wrote(sc, globals, Upgraded(sc, conv, Gathered(sc, globals)), r) && f in sc.spec
    ensures var key := "sys." + f;
            var found := if key in globals then Some(globals[key]) else if f in globals then Some(globals[f]) else None;
            key in r && Becomes(conv, sc.spec[f], found, r[key])
  {
    hide Becomes, Upgraded;
    UpgradedExactly(sc, conv, Gathered(sc, globals), f);
    assert SchemaName(sc, f) && f != VERSION_KEY && "sys." + f == Key(f);
  }

  /** Extracting reads every field from its prefixed key, and the version too, unless that is missing or falsy. */
  lemma ExtractedExactly(sc: Schema, globals: Dict, f: string)
    requires WellFormed(sc)
    ensures var e, key := Extracted(sc, globals), "sys." + f;
            if f == "state_schema_version" then
              f in e && e[f] == if key !in globals || globals[key] in [NoneV, BoolV(false), IntV(0), FloatV(0.0), StrV(""), ListV([])]
                                then StrV("1.0") else globals[key]
            else (f in e <==> f in sc.spec) && (f in e ==> e[f] == if key in globals then globals[key] else sc.spec[f].default)
  {
    assert Key(f) == "sys." + f;
    hide Key;
  }

  /** Applying writes every field under its prefixed key, a missing one as its default. */
  lemma AppliedExactly(sc: Schema, globals: Dict, state: Dict, r: Dict, f: string)
    requires WellFormed(sc) && Wrote(sc, globals, Filled(sc, state), r) && SchemaName(sc, f)
    ensures var key := "sys." + f;
            key in r && r[key] == if f in state then state[f] else if f in sc.spec then sc.spec[f].default else StrV("1.0")
  {
    assert Key(f) == "sys." + f;
    hide Key;
  }
}
