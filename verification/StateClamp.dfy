/** Keeping a state below its size limit: large fields are clamped one by one, then dropped. */
module StateClamp {
  import opened Prelude
  import opened StateText

  /** Values of a state: text, lists, dictionaries and everything else. */
  datatype Json = Str(s: string) | List(items: seq<Json>) | Dict(entries: seq<Field>) | Atom(id: int)

  datatype Field = Field(key: string, value: Json)

  type State = map<string, Json>

  /** The serialized size; any estimate will do. */
  datatype Sizes = Sizes(items: seq<Json> -> nat, state: State -> nat)

  const CONTENT_KEYS := {"content", "text", "answer", "value", "reason", "evidence"}

  function AtLeast(x: int, least: int): int { if x > least then x else least }

  function ClampEntry(e: Field, perItem: int): Field {
    if e.key in CONTENT_KEYS && e.value.Str? then Field(e.key, Str(Truncated(e.value.s, perItem))) else e
  }

  /** One element of a clamped list. */
  function ClampItem(item: Json, perItem: int): Json {
    match item
    case Dict(entries) => Dict(seq(|entries|, i requires 0 <= i < |entries| => ClampEntry(entries[i], perItem)))
    case Str(s) => Str(Truncated(s, perItem))
    case _ => item
  }

  function ClampItems(items: seq<Json>, perItem: int): (r: seq<Json>)
    ensures |r| == |items| && forall i :: 0 <= i < |r| ==> r[i] == ClampItem(items[i], perItem)
  {
    seq(|items|, i requires 0 <= i < |items| => ClampItem(items[i], perItem))
  }

  function PerItem(n: nat, maxBytes: int): int {
    if n == 0 then maxBytes else AtLeast(maxBytes / n, 256)
  }

  /** How many elements are kept from `k` on: up to the first prefix that reaches the limit. */
  function KeptFrom(z: Sizes, items: seq<Json>, perItem: int, maxBytes: int, k: nat): (n: nat)
    requires k <= |items|
    ensures k <= n <= |items|
    decreases |items| - k
  {
    if k == |items| then k
    else if z.items(ClampItems(items[..k + 1], perItem)) >= maxBytes then k + 1
    else KeptFrom(z, items, perItem, maxBytes, k + 1)
  }

  function ClampList(z: Sizes, items: seq<Json>, maxBytes: int): seq<Json> {
    var perItem := PerItem(|items|, maxBytes);
    ClampItems(items[..KeptFrom(z, items, perItem, maxBytes, 0)], perItem)
  }

  function Clamped(z: Sizes, v: Json, maxBytes: int): Json
    decreases v
  {
    match v
    case Str(s) => Str(Truncated(s, maxBytes))
    case List(items) => List(ClampList(z, items, maxBytes))
    case Dict(entries) => Dict(ClampedEntries(z, v, entries, maxBytes / AtLeast(|entries|, 1)))
    case Atom(_) => v
  }

  function ClampedEntries(z: Sizes, v: Json, entries: seq<Field>, share: int): (r: seq<Field>)
    requires forall e :: e in entries ==> e.value < v
    ensures |r| == |entries|
    ensures forall i :: 0 <= i < |r| ==> r[i] == Field(entries[i].key, Clamped(z, entries[i].value, share))
    decreases v, |entries|
  {
    if entries == [] then [] else
    [Field(entries[0].key, Clamped(z, entries[0].value, share))] + ClampedEntries(z, v, entries[1..], share)
  }

  /** The list case of the clamping loop. */
  method ClampListLoop(z: Sizes, items: seq<Json>, maxBytes: int) returns (clamped: seq<Json>)
    ensures clamped == ClampList(z, items, maxBytes)
  {
    var perItem := if items != [] then AtLeast(maxBytes / |items|, 256) else maxBytes;
    clamped := [];
    var k := 0;
    while k < |items|
      invariant 0 <= k <= |items| && clamped == ClampItems(items[..k], perItem)
      invariant KeptFrom(z, items, perItem, maxBytes, 0) == KeptFrom(z, items, perItem, maxBytes, k)
    {
      clamped := clamped + [ClampItem(items[k], perItem)];
      assert clamped == ClampItems(items[..k + 1], perItem);
      k := k + 1;
      if z.items(clamped) >= maxBytes {
        break;
      }
    }
  }

  /** A clamped list is an item-wise truncation of a prefix of the original: all of it, or the
      shortest prefix whose clamped form reaches the limit. */
  lemma {:induction false} KeptIsShortest(z: Sizes, items: seq<Json>, perItem: int, maxBytes: int, k: nat)
    requires k <= |items|
    ensures var n := KeptFrom(z, items, perItem, maxBytes, k);
            && (forall m :: k < m < n ==> z.items(ClampItems(items[..m], perItem)) < maxBytes)
            && (n == |items| || (n > k && z.items(ClampItems(items[..n], perItem)) >= maxBytes))
    decreases |items| - k
  {
    if k < |items| && z.items(ClampItems(items[..k + 1], perItem)) < maxBytes {
      KeptIsShortest(z, items, perItem, maxBytes, k + 1);
    }
  }

  lemma ClampedListIsTruncatedPrefix(z: Sizes, items: seq<Json>, maxBytes: int)
    ensures var r := ClampList(z, items, maxBytes); var perItem := PerItem(|items|, maxBytes);
            && |r| <= |items|
            && (forall i :: 0 <= i < |r| ==> r[i] == ClampItem(items[i], perItem))
            && (forall m :: 0 < m < |r| ==> z.items(r[..m]) < maxBytes)
            && (|r| == |items| || z.items(r) >= maxBytes)
  {
    var perItem := PerItem(|items|, maxBytes);
    KeptIsShortest(z, items, perItem, maxBytes, 0);
    var r := ClampList(z, items, maxBytes);
    forall m | 0 < m < |r|
      ensures r[..m] == ClampItems(items[..m], perItem)
    {
    }
  }

  // ---------------------------------------------------------------- clamping a whole state

  const DROPPED := ["retrieved_docs", "graded_docs", "messages"]
  const SHORTENED := ["final_answer", "answer_with_citations", "rewritten_query"]
  const LARGE_FIELDS := ["messages", "retrieved_docs", "final_answer", "graded_docs", "answer_with_citations", "rewritten_query"]

  function PerField(n: nat, maxBytes: int): int { AtLeast(maxBytes / AtLeast(n, 1), 1024) }

  /** The state after the fields `fields` were clamped, in order. */
  function ClampRun(z: Sizes, s: State, fields: seq<string>, perField: int): State {
    if fields == [] then s else
    var before := ClampRun(z, s, fields[..|fields| - 1], perField);
    var f := fields[|fields| - 1];
    if f in before then before[f := Clamped(z, before[f], perField)] else before
  }

  function DropRun(s: State, fields: seq<string>): State {
    if fields == [] then s else DropRun(s, fields[..|fields| - 1])[fields[|fields| - 1] := List([])]
  }

  function ShortenRun(s: State, fields: seq<string>, limit: int): State {
    if fields == [] then s else
    var before := ShortenRun(s, fields[..|fields| - 1], limit);
    var f := fields[|fields| - 1];
    if f in before && before[f].Str? then before[f := Str(Truncated(before[f].s, limit))] else before
  }

  function FallenBack(s: State, maxBytes: int): State {
    ShortenRun(DropRun(s, DROPPED), SHORTENED, AtLeast(maxBytes / 10, 256))
  }

  datatype Exit = Untouched | FitsAfter(n: nat) | Fallback

  /** Where clamping stops: nothing to do, after the shortest leading run of fields that makes the
      state fit, or in the final fallback. */
  ghost predicate StopsAt(z: Sizes, s: State, fields: seq<string>, maxBytes: int, e: Exit) {
    var perField := PerField(|fields|, maxBytes);
    match e
    case Untouched => z.state(s) <= maxBytes
    case FitsAfter(n) =>
      && z.state(s) > maxBytes && 0 < n <= |fields|
      && z.state(ClampRun(z, s, fields[..n], perField)) <= maxBytes
      && forall m :: 0 <= m < n ==> z.state(ClampRun(z, s, fields[..m], perField)) > maxBytes
    case Fallback => forall m :: 0 <= m <= |fields| ==> z.state(ClampRun(z, s, fields[..m], perField)) > maxBytes
  }

  function ResultAt(z: Sizes, s: State, fields: seq<string>, maxBytes: int, e: Exit): State {
    var perField := PerField(|fields|, maxBytes);
    match e
    case Untouched => s
    case FitsAfter(n) => if n <= |fields| then ClampRun(z, s, fields[..n], perField) else s
    case Fallback => FallenBack(ClampRun(z, s, fields, perField), maxBytes)
  }

  function FieldsToClamp(largeFields: seq<string>): seq<string> {
    if largeFields != [] then largeFields else LARGE_FIELDS
  }

  /** `r` is what clamping leaves at its exit; it fits unless that is the final fallback. */
  ghost predicate ClampedTo(z: Sizes, s: State, fields: seq<string>, maxBytes: int, r: State) {
    exists e ::
      && StopsAt(z, s, fields, maxBytes, e) && r == ResultAt(z, s, fields, maxBytes, e)
      && (!e.Fallback? ==> z.state(r) <= maxBytes)
  }

  method ClampStateSize(z: Sizes, s: State, maxBytes: int, largeFields: seq<string>) returns (r: State)
    ensures ClampedTo(z, s, FieldsToClamp(largeFields), maxBytes, r)
  {
    hide ClampRun;
    ghost var e := Untouched;
    var fields := FieldsToClamp(largeFields);
    if z.state(s) <= maxBytes {
      assert StopsAt(z, s, fields, maxBytes, e);
      return s;
    }
    var fits, reduced;
    fits, reduced, e := ClampLoop(z, s, fields, maxBytes);
    if fits {
      return reduced;
    }
    reduced := DropLoop(reduced);
    r := ShortenLoop(reduced, AtLeast(maxBytes / 10, 256));
  }

  /** Clamp the fields one by one, stopping as soon as the state fits. */
  method ClampLoop(z: Sizes, s: State, fields: seq<string>, maxBytes: int)
    returns (fits: bool, reduced: State, ghost e: Exit)
    requires z.state(s) > maxBytes
    ensures StopsAt(z, s, fields, maxBytes, e)
    ensures if fits then e.FitsAfter? && reduced == ResultAt(z, s, fields, maxBytes, e) && z.state(reduced) <= maxBytes
            else e.Fallback? && reduced == ClampRun(z, s, fields, PerField(|fields|, maxBytes))
  {
    hide Clamped;
    var perField := AtLeast(maxBytes / AtLeast(|fields|, 1), 1024);
    reduced := s;
    var k := 0;
    while k < |fields|
      invariant 0 <= k <= |fields| && reduced == ClampRun(z, s, fields[..k], perField)
      invariant forall m :: 0 <= m <= k ==> z.state(ClampRun(z, s, fields[..m], perField)) > maxBytes
    {
      assert fields[..k + 1][..k] == fields[..k];
      var f := fields[k];
      if f in reduced {
        reduced := reduced[f := Clamped(z, reduced[f], perField)];
        if z.state(reduced) <= maxBytes {
          return true, reduced, FitsAfter(k + 1);
        }
      }
      k := k + 1;
    }
    assert fields[..k] == fields;
    fits, e := false, Fallback;
  }

  method DropLoop(s: State) returns (r: State)
    ensures r == DropRun(s, DROPPED)
  {
    r := s;
    var k := 0;
    while k < |DROPPED|
      invariant 0 <= k <= |DROPPED| && r == DropRun(s, DROPPED[..k])
    {
      assert DROPPED[..k + 1][..k] == DROPPED[..k];
      r := r[DROPPED[k] := List([])];
      k := k + 1;
    }
    assert DROPPED[..k] == DROPPED;
  }

  method ShortenLoop(s: State, limit: int) returns (r: State)
    ensures r == ShortenRun(s, SHORTENED, limit)
  {
    hide Truncated;
    r := s;
    var k := 0;
    while k < |SHORTENED|
      invariant 0 <= k <= |SHORTENED| && r == ShortenRun(s, SHORTENED[..k], limit)
    {
      assert SHORTENED[..k + 1][..k] == SHORTENED[..k];
      var f := SHORTENED[k];
      if f in r && r[f].Str? {
        r := r[f := Str(Truncated(r[f].s, limit))];
      }
      k := k + 1;
    }
    assert SHORTENED[..k] == SHORTENED;
  }

  // ---------------------------------------------------------------- what clamping leaves alone

  lemma {:induction false} ClampRunFrame(z: Sizes, s: State, fields: seq<string>, perField: int, f: string)
    requires f !in fields
    ensures var r := ClampRun(z, s, fields, perField);
            (f in r <==> f in s) && (f in s ==> r[f] == s[f])
  {
    hide Clamped;
    if fields != [] {
      ClampRunFrame(z, s, fields[..|fields| - 1], perField, f);
    }
  }

  lemma {:induction false} DropRunFrame(s: State, fields: seq<string>, f: string)
    requires f !in fields
    ensures var r := DropRun(s, fields); (f in r <==> f in s) && (f in s ==> r[f] == s[f])
  {
    if fields != [] {
      DropRunFrame(s, fields[..|fields| - 1], f);
    }
  }

  lemma {:induction false} ShortenRunFrame(s: State, fields: seq<string>, limit: int, f: string)
    requires f !in fields
    ensures var r := ShortenRun(s, fields, limit); (f in r <==> f in s) && (f in s ==> r[f] == s[f])
  {
    if fields != [] {
      ShortenRunFrame(s, fields[..|fields| - 1], limit, f);
    }
  }

  /** Wherever clamping stops, a field outside the large and the fallback lists is unchanged; before
      the fallback only the fields of the leading run are touched. */
  lemma OtherFieldsUnchanged(z: Sizes, s: State, fields: seq<string>, maxBytes: int, e: Exit, f: string)
    requires StopsAt(z, s, fields, maxBytes, e)
    requires match e case Untouched => true
                     case FitsAfter(n) => f !in fields[..n]
                     case Fallback => f !in fields && f !in DROPPED && f !in SHORTENED
    ensures var r := ResultAt(z, s, fields, maxBytes, e); (f in r <==> f in s) && (f in s ==> r[f] == s[f])
  {
    var perField := PerField(|fields|, maxBytes);
    match e
    case Untouched =>
    case FitsAfter(n) =>
      ClampRunFrame(z, s, fields[..n], perField, f);
    case Fallback =>
      ClampRunFrame(z, s, fields, perField, f);
      var c := ClampRun(z, s, fields, perField);
      DropRunFrame(c, DROPPED, f);
      ShortenRunFrame(DropRun(c, DROPPED), SHORTENED, AtLeast(maxBytes / 10, 256), f);
  }

  /** The exit of a state is unique, so the result is a function of the state and the limits. */
  lemma ExitIsUnique(z: Sizes, s: State, fields: seq<string>, maxBytes: int, e: Exit, e': Exit)
    requires StopsAt(z, s, fields, maxBytes, e) && StopsAt(z, s, fields, maxBytes, e')
    ensures e == e'
  {
    assert ClampRun(z, s, fields[..0], PerField(|fields|, maxBytes)) == s;
  }

  // ---------------------------------------------------------------- what clamping makes of each value

  /** `share` is the whole part of `total` over `n`, but at least `least`. */
  predicate IsShare(total: int, n: nat, least: int, share: int) {
    && share >= least && total < (share + 1) * n
    && (share > least ==> share * n <= total)
  }

  /** An element of a list: a text is truncated, a dictionary gets the texts under its content keys truncated and
      keeps everything else, in order; anything else is kept. */
  ghost predicate ItemClamped(item: Json, limit: int, r: Json) {
    match item
    case Str(s) => r.Str? && IsTruncation(s, limit, r.s)
    case Dict(entries) => r.Dict? && |r.entries| == |entries| && forall i :: 0 <= i < |entries| ==> EntryClamped(entries[i], limit, r.entries[i])
    case _ => r == item
  }

  ghost predicate EntryClamped(e: Field, limit: int, r: Field) {
    && r.key == e.key
    && (if e.key in ["content", "text", "answer", "value", "reason", "evidence"] && e.value.Str?
        then r.value.Str? && IsTruncation(e.value.s, limit, r.value.s)
        else r.value == e.value)
  }

  lemma ItemClampedExactly(item: Json, limit: int)
    ensures ItemClamped(item, limit, ClampItem(item, limit))
  {
    hide Truncated, IsTruncation;
    if item.Str? {
      TruncatedExactly(item.s, limit);
    } else if item.Dict? {
      forall i | 0 <= i < |item.entries|
        ensures EntryClamped(item.entries[i], limit, ClampEntry(item.entries[i], limit))
      {
        if item.entries[i].value.Str? {
          TruncatedExactly(item.entries[i].value.s, limit);
        }
      }
    }
  }

  /** What a limit makes of a list: its elements are clamped to their share of the limit, at least 256, up to the
      first prefix that reaches the limit. */
  ghost predicate ListClamped(z: Sizes, items: seq<Json>, maxBytes: int, r: seq<Json>, share: int) {
    && (items != [] ==> IsShare(maxBytes, |items|, 256, share))
    && |r| <= |items| && (forall i :: 0 <= i < |r| ==> ItemClamped(items[i], share, r[i]))
    && (forall m :: 0 < m < |r| ==> z.items(r[..m]) < maxBytes) && (|r| == |items| || z.items(r) >= maxBytes)
  }

  /** Main result, clamping a value: a text is truncated; a list is cut and its elements clamped; every value of a
      dictionary of n entries is clamped to the n-th part of the limit; the rest is kept. */
  lemma ClampedExactly(z: Sizes, v: Json, maxBytes: int) returns (share: int)
    ensures var r := Clamped(z, v, maxBytes);
            && (v.Atom? ==> r == v)
            && (v.Str? ==> r.Str? && IsTruncation(v.s, maxBytes, r.s))
            && (v.List? ==> r.List? && ListClamped(z, v.items, maxBytes, r.items, share))
            && (v.Dict? ==> r.Dict? && |r.entries| == |v.entries|)
            && (v.Dict? && v.entries != [] ==> share * |v.entries| <= maxBytes < (share + 1) * |v.entries|)
            && (v.Dict? ==> forall i :: 0 <= i < |r.entries| ==>
                  r.entries[i] == Field(v.entries[i].key, Clamped(z, v.entries[i].value, share)))
  {
    hide IsTruncation, Truncated, ItemClamped;
    share := maxBytes;
    match v
    case Atom(_) =>
    case Str(s) => TruncatedExactly(s, maxBytes);
    case List(items) => share := ListClampedExactly(z, items, maxBytes);
    case Dict(entries) =>
      share := maxBytes / AtLeast(|entries|, 1);
      if entries != [] {
        ShareIsWhole(maxBytes, |entries|);
      }
  }

  lemma ShareIsWhole(total: int, n: nat)
    requires n > 0
    ensures total / n * n <= total < (total / n + 1) * n
  {
  }

  lemma ListClampedExactly(z: Sizes, items: seq<Json>, maxBytes: int) returns (share: int)
    ensures ListClamped(z, items, maxBytes, ClampList(z, items, maxBytes), share)
  {
    hide ItemClamped, ClampList, ClampItem;
    share := PerItem(|items|, maxBytes);
    if items != [] {
      ShareIsWhole(maxBytes, |items|);
      ShareAtLeast(maxBytes, |items|, 256);
    }
    ClampedListIsTruncatedPrefix(z, items, maxBytes);
    hide PerItem, IsShare;
    forall i | 0 <= i < |items|
      ensures ItemClamped(items[i], share, ClampItem(items[i], share))
    {
      ItemClampedExactly(items[i], share);
    }
  }

  lemma ShareAtLeast(total: int, n: nat, least: int)
    requires n > 0
    ensures IsShare(total, n, least, AtLeast(total / n, least))
  {
    ShareIsWhole(total, n);
    if least > total / n {
      assert (total / n + 1) * n <= (least + 1) * n;
    }
  }

  // ---------------------------------------------------------------- what clamping makes of each field

  lemma {:induction false} ClampRunAt(z: Sizes, s: State, fields: seq<string>, perField: int, f: string)
    requires f in fields && forall i, j :: 0 <= i < j < |fields| ==> fields[i] != fields[j]
    ensures var r := ClampRun(z, s, fields, perField);
            (f in r <==> f in s) && (f in s ==> r[f] == Clamped(z, s[f], perField))
  {
    hide Clamped;
    var front, last := fields[..|fields| - 1], fields[|fields| - 1];
    if f == last {
      ClampRunFrame(z, s, front, perField, f);
    } else {
      ClampRunAt(z, s, front, perField, f);
    }
  }

  lemma {:induction false} DropRunAt(s: State, fields: seq<string>, f: string)
    requires f in fields
    ensures var r := DropRun(s, fields); f in r && r[f] == List([])
  {
    if f != fields[|fields| - 1] {
      DropRunAt(s, fields[..|fields| - 1], f);
    }
  }

  lemma {:induction false} ShortenRunAt(s: State, fields: seq<string>, limit: int, f: string)
    requires f in fields && forall i, j :: 0 <= i < j < |fields| ==> fields[i] != fields[j]
    ensures var r := ShortenRun(s, fields, limit);
            (f in r <==> f in s) && (f in s ==> r[f] == if s[f].Str? then Str(Truncated(s[f].s, limit)) else s[f])
  {
    hide Truncated;
    var front, last := fields[..|fields| - 1], fields[|fields| - 1];
    if f == last {
      ShortenRunFrame(s, front, limit, f);
    } else {
      ShortenRunAt(s, front, limit, f);
    }
  }

  /** The fallback empties the three collections, truncates the three answers to a tenth of the limit, at least 256,
      and keeps every other field. */
  lemma FallbackExactly(s: State, maxBytes: int, f: string) returns (limit: int)
    ensures IsShare(maxBytes, 10, 256, limit)
    ensures var r := FallenBack(s, maxBytes);
            if f in ["retrieved_docs", "graded_docs", "messages"] then f in r && r[f] == List([])
            else
              && (f in r <==> f in s)
              && (f in s ==> if f in ["final_answer", "answer_with_citations", "rewritten_query"] && s[f].Str?
                             then r[f].Str? && IsTruncation(s[f].s, limit, r[f].s) else r[f] == s[f])
  {
    hide IsTruncation, Truncated, DropRun, ShortenRun;
    limit := AtLeast(maxBytes / 10, 256);
    var dropped := DropRun(s, DROPPED);
    if f in DROPPED {
      DropRunAt(s, DROPPED, f);
      ShortenRunFrame(dropped, SHORTENED, limit, f);
    } else {
      DropRunFrame(s, DROPPED, f);
      if f in SHORTENED {
        ShortenRunAt(dropped, SHORTENED, limit, f);
        if f in s && s[f].Str? {
          TruncatedExactly(s[f].s, limit);
        }
      } else {
        ShortenRunFrame(dropped, SHORTENED, limit, f);
      }
    }
  }

  /** The fields clamped if none are named: the sensitive ones, then two more. */
  lemma FieldsExactly(largeFields: seq<string>)
    ensures FieldsToClamp(largeFields) == if |largeFields| > 0 then largeFields else
              ["messages", "retrieved_docs", "final_answer", "graded_docs", "answer_with_citations", "rewritten_query"]
    ensures forall maxBytes :: IsShare(maxBytes, |FieldsToClamp(largeFields)|, 1024, PerField(|FieldsToClamp(largeFields)|, maxBytes))
  {
  }

  /** Before the fallback, the fields of the leading run are clamped to their share, at least 1024 bytes each. */
  lemma FittingFields(z: Sizes, s: State, fields: seq<string>, maxBytes: int, n: nat, f: string) returns (share: int)
    requires StopsAt(z, s, fields, maxBytes, FitsAfter(n)) && forall i, j :: 0 <= i < j < |fields| ==> fields[i] != fields[j]
    ensures IsShare(maxBytes, |fields|, 1024, share)
    ensures var r := ResultAt(z, s, fields, maxBytes, FitsAfter(n));
            (f in r <==> f in s) && (f in s ==> r[f] == if f in fields[..n] then Clamped(z, s[f], share) else s[f])
  {
    hide Clamped;
    share := PerField(|fields|, maxBytes);
    if f in fields[..n] {
      ClampRunAt(z, s, fields[..n], share, f);
    } else {
      ClampRunFrame(z, s, fields[..n], share, f);
    }
  }
}
