/**
 What results, failures and grades mean, read off the replies: which entry each result comes from, when an
 entry counts as relevant, which attempt is accepted and which failure leads to which fallback.
 */
module GraderResults {
  import opened Prelude
  import opened GraderBatches
  import opened Grader

  // ---------------------------------------------------------------- one reply

  /** The texts that mean relevant, in any mix of cases. */
  predicate SaysRelevant(text: string) {
    || Spells(text, "relevant") || Spells(text, "entailment") || Spells(text, "entailed")
    || Spells(text, "yes") || Spells(text, "true")
  }

  predicate Spells(text: string, word: string) {
    |text| == |word| && SpelledAt(text, 0, word)
  }

  lemma NormalizedWord(text: string, low: string, word: string)
    requires |low| == |text| && NoCapitals(word) && forall k :: 0 <= k < |word| ==> word[k] != '_'
    requires forall i :: 0 <= i < |text| ==> low[i] == if text[i] == ' ' || text[i] == '-' then '_' else Lower(text[i])
    requires forall k :: 0 <= k < |word| ==> word[k] != ' ' && word[k] != '-'
    ensures low == word <==> Spells(text, word)
  {
    if |text| == |word| {
      assert low == word <==> forall k :: 0 <= k < |word| ==> low[k] == word[k];
      assert forall k :: 0 <= k < |word| ==> (low[k] == word[k] <==> SameLetter(text[0 + k], word[k]));
    }
  }

  /** The normal form of a relevance is relevant for exactly these texts: replacing blanks and hyphens adds none. */
  lemma RelevantExactly(text: string)
    ensures NormalizeRelevance(text).Relevant? <==> SaysRelevant(text)
  {
    var low := seq(|text|, i requires 0 <= i < |text| =>
                     if text[i] == ' ' || text[i] == '-' then '_' else Lower(text[i]));
    hide Spells;
    NormalizedWord(text, low, "relevant");
    NormalizedWord(text, low, "entailment");
    NormalizedWord(text, low, "entailed");
    NormalizedWord(text, low, "yes");
    NormalizedWord(text, low, "true");
  }

  /** The entry has all it needs and names an item of a batch of `n`. */
  predicate Complete(e: Entry, n: nat) {
    e.Entry? && e.index.Some? && e.relevance.Some? && e.score.Some? && 0 <= e.index.value < n
  }

  /** `ix` lists the positions of the complete entries, in order. */
  ghost predicate CompleteAt(entries: seq<Entry>, n: nat, ix: seq<nat>) {
    && (forall i, j :: 0 <= i < j < |ix| ==> ix[i] < ix[j])
    && (forall p: nat :: p in ix <==> p < |entries| && Complete(entries[p], n))
  }

  /** The result judges the entry's item, as the entry says. */
  predicate ResultIs(j: Judgement, e: Entry, batch: seq<Item>) {
    && Complete(e, |batch|) && j.docIndex == batch[e.index.value].docIndex && j.score == e.score.value && j.reason == e.reason
    && (j.relevance.Relevant? <==> SaysRelevant(e.relevance.value))
  }

  /** The reply has one complete entry per item of the batch; `results` are what they say, in their order. */
  ghost predicate Reads(reply: Reply, batch: seq<Item>, ix: seq<nat>, results: seq<Judgement>) {
    && reply.Listed? && CompleteAt(reply.entries, |batch|, ix) && |ix| == |batch| == |results|
    && forall i :: 0 <= i < |ix| ==> ix[i] < |reply.entries| && ResultIs(results[i], reply.entries[ix[i]], batch)
  }

  /** The reply is no list, or has more or fewer complete entries than the batch has items. */
  ghost predicate Unreadable(reply: Reply, batch: seq<Item>) {
    reply.Listed? ==> exists ix :: CompleteAt(reply.entries, |batch|, ix) && |ix| != |batch|
  }

  lemma CompleteMore(entries: seq<Entry>, e: Entry, n: nat, ix: seq<nat>)
    requires CompleteAt(entries, n, ix)
    ensures CompleteAt(entries + [e], n, if Complete(e, n) then ix + [|entries|] else ix)
    ensures forall i :: 0 <= i < |ix| ==> ix[i] < |entries|
  {
    hide Complete;
    var more := if Complete(e, n) then ix + [|entries|] else ix;
    assert forall i :: 0 <= i < |ix| ==> ix[i] in ix;
    forall p: nat
      ensures p in more <==> p < |entries + [e]| && Complete((entries + [e])[p], n)
    {
      assert p in more <==> p in ix || (Complete(e, n) && p == |entries|);
    }
  }

  /** The entries at `ix` are the usable ones. */
  ghost predicate PointsTo(entries: seq<Entry>, usable: seq<Entry>, ix: seq<nat>) {
    |ix| == |usable| && forall i :: 0 <= i < |ix| ==> ix[i] < |entries| && entries[ix[i]] == usable[i]
  }

  lemma PointsMore(entries: seq<Entry>, usable: seq<Entry>, e: Entry, ix: seq<nat>)
    requires PointsTo(entries, usable, ix)
    ensures PointsTo(entries + [e], usable, ix) && PointsTo(entries + [e], usable + [e], ix + [|entries|])
  {
  }

  lemma UsableMore(entries: seq<Entry>, e: Entry, n: nat)
    ensures UsableOnly(entries + [e], n) == if Complete(e, n) then UsableOnly(entries, n) + [e] else UsableOnly(entries, n)
  {
    assert (entries + [e])[..|entries|] == entries;
  }

  lemma {:induction false} UsablePositions(entries: seq<Entry>, n: nat) returns (ix: seq<nat>)
    ensures CompleteAt(entries, n, ix) && PointsTo(entries, UsableOnly(entries, n), ix)
  {
    if entries == [] {
      ix := [];
    } else {
      hide *;
      var last := |entries| - 1;
      var front, e := entries[..last], entries[last];
      assert front + [e] == entries;
      var before := UsablePositions(front, n);
      CompleteMore(front, e, n, before);
      UsableMore(front, e, n);
      PointsMore(front, UsableOnly(front, n), e, before);
      ix := if Complete(e, n) then before + [last] else before;
    }
  }

  /** Main result, parsing: a reply parses exactly if it has one complete entry per item, and then result i is what
      the i-th complete entry says about the item it names; every other reply is a parse error. */
  lemma ParsedExactly(reply: Reply, batch: seq<Item>) returns (ix: seq<nat>)
    ensures Parsed(reply, batch).Ok? <==> reply.Listed? && CompleteAt(reply.entries, |batch|, ix) && |ix| == |batch|
    ensures Parsed(reply, batch).Ok? ==> Reads(reply, batch, ix, Parsed(reply, batch).value)
    ensures Parsed(reply, batch).Err? ==> Unreadable(reply, batch) && Parsed(reply, batch).error == ParseError
  {
    ix := [];
    if reply.Listed? {
      ix := UsablePositions(reply.entries, |batch|);
      hide CompleteAt, UsableOnly, SaysRelevant, NormalizeRelevance;
      var usable := UsableOnly(reply.entries, |batch|);
      if |usable| == |batch| {
        forall i | 0 <= i < |ix|
          ensures ResultIs(Parsed(reply, batch).value[i], reply.entries[ix[i]], batch)
        {
          RelevantExactly(usable[i].relevance.value);
        }
      }
    }
  }

  // ---------------------------------------------------------------- attempts and batches

  /** The text mentions one of the words, in any mix of cases. */
  predicate Says(text: string, words: seq<string>) {
    exists i :: 0 <= i < |words| && SpelledIn(text, words[i])
  }

  /** What the text of a rejection means: the first of three classes one of whose words it mentions. */
  predicate Means(text: string, e: Failure) {
    if Says(text, ["timeout", "timed out", "time out"]) then e.Timeout?
    else if Says(text, ["quota", "rate limit", "insufficient quota", "billing", "limit exceeded", "too many requests"])
    then e.QuotaExceeded?
    else if Says(text, ["unavailable", "service unavailable", "503", "connection refused", "connection error"])
    then e.ServiceUnavailable?
    else e.OtherFailure?
  }

  lemma WordsFound(text: string, words: seq<string>)
    requires forall i :: 0 <= i < |words| ==> NoCapitals(words[i]) && words[i] != ""
    ensures AnyIn(LowerCase(text), words) <==> Says(text, words)
    ensures Says(text, words) ==> text != ""
  {
    hide LowerCase, Contains;
    forall i | 0 <= i < |words|
      ensures Contains(LowerCase(text), words[i]) <==> SpelledIn(text, words[i])
    {
      FoundWhenSpelled(text, words[i]);
    }
  }

  lemma TimeoutFound(text: string)
    ensures var words := ["timeout", "timed out", "time out"];
            (AnyIn(LowerCase(text), words) <==> Says(text, words)) && (Says(text, words) ==> text != "")
  {
    hide SpelledIn, LowerCase, Contains, Says, AnyIn;
    WordsFound(text, ["timeout", "timed out", "time out"]);
  }

  lemma QuotaFound(text: string)
    ensures var words := ["quota", "rate limit", "insufficient quota", "billing", "limit exceeded", "too many requests"];
            (AnyIn(LowerCase(text), words) <==> Says(text, words)) && (Says(text, words) ==> text != "")
  {
    hide SpelledIn, LowerCase, Contains, Says, AnyIn;
    WordsFound(text, ["quota", "rate limit", "insufficient quota", "billing", "limit exceeded", "too many requests"]);
  }

  lemma OutageFound(text: string)
    ensures var words := ["unavailable", "service unavailable", "503", "connection refused", "connection error"];
            (AnyIn(LowerCase(text), words) <==> Says(text, words)) && (Says(text, words) ==> text != "")
  {
    hide SpelledIn, LowerCase, Contains, Says, AnyIn;
    WordsFound(text, ["unavailable", "service unavailable", "503", "connection refused", "connection error"]);
  }

  /** A rejection is classified by the words it mentions, in this order of precedence. */
  lemma ClassifyExactly(text: string)
    ensures Means(text, Classify(text))
  {
    hide SpelledIn, LowerCase, Contains, Says, AnyIn;
    TimeoutFound(text);
    QuotaFound(text);
    OutageFound(text);
  }

  /** The attempts before `n` were answered, but unreadably. */
  ghost predicate UnreadableBefore(batch: seq<Item>, calls: (nat, nat) -> Call, b: nat, n: nat) {
    forall a: nat :: a < n ==> calls(b, a).Replied? && Unreadable(calls(b, a).reply, batch)
  }

  /** Attempt `n`, the first readable one, gave the results, entry by entry at the positions `ix`. */
  ghost predicate Accepted(batch: seq<Item>, calls: (nat, nat) -> Call, b: nat, maxRetry: nat, n: nat, ix: seq<nat>, results: seq<Judgement>) {
    n <= maxRetry && UnreadableBefore(batch, calls, b, n) && calls(b, n).Replied? && Reads(calls(b, n).reply, batch, ix, results)
  }

  /** Attempt `n` failed in a way that is not retried, or no attempt is left. */
  ghost predicate Rejects(batch: seq<Item>, calls: (nat, nat) -> Call, b: nat, maxRetry: nat, n: nat, e: Failure) {
    && n <= maxRetry + 1 && UnreadableBefore(batch, calls, b, n)
    && if n == maxRetry + 1 then e.ParseError?
       else (calls(b, n).TimedOut? && e.Timeout?) || (calls(b, n).Rejected? && Means(calls(b, n).text, e))
  }

  lemma {:induction false} AttemptsFrom(batch: seq<Item>, calls: (nat, nat) -> Call, b: nat, n: nat, maxRetry: nat)
    returns (at: nat, ix: seq<nat>)
    requires n <= maxRetry + 1 && UnreadableBefore(batch, calls, b, n)
    ensures var r := Attempts(batch, calls, b, n, maxRetry);
            if r.Ok? then Accepted(batch, calls, b, maxRetry, at, ix, r.value) else Rejects(batch, calls, b, maxRetry, at, r.error)
    decreases maxRetry + 1 - n
  {
    hide Parsed, Reads, Unreadable, Means, Classify;
    at, ix := n, [];
    if n <= maxRetry {
      match calls(b, n)
      case TimedOut =>
      case Rejected(text) =>
        ClassifyExactly(text);
      case Replied(reply) =>
        ix := ParsedExactly(reply, batch);
        if Parsed(reply, batch).Err? {
          at, ix := AttemptsFrom(batch, calls, b, n + 1, maxRetry);
        }
    }
  }

  /** Main result, retries: the outcome of a batch is that of its first attempt that was readable, timed out or was
      rejected; unreadable replies are asked for again `maxRetry` times, and then are a parse error. */
  lemma AttemptsExactly(batch: seq<Item>, calls: (nat, nat) -> Call, b: nat, maxRetry: nat) returns (at: nat, ix: seq<nat>)
    ensures var r := Attempts(batch, calls, b, 0, maxRetry);
            if r.Ok? then Accepted(batch, calls, b, maxRetry, at, ix, r.value) else Rejects(batch, calls, b, maxRetry, at, r.error)
  {
    hide Attempts, Accepted, Rejects;
    at, ix := AttemptsFrom(batch, calls, b, 0, maxRetry);
  }

  // ---------------------------------------------------------------- where each result comes from

  /** Where a result comes from: an entry of the reply to attempt `attempt` for batch `batch`. */
  datatype Source = Source(batch: nat, attempt: nat, entry: nat)

  predicate Earlier(x: Source, y: Source) {
    x.batch < y.batch || (x.batch == y.batch && x.entry < y.entry)
  }

  /** The entry at `x`, if there is one. */
  function EntryAt(calls: (nat, nat) -> Call, x: Source): Entry {
    var c := calls(x.batch, x.attempt);
    if c.Replied? && c.reply.Listed? && x.entry < |c.reply.entries| then c.reply.entries[x.entry] else NotAnObject
  }

  /** The attempt a source names is the accepted one of its batch. */
  ghost predicate FromAccepted(batches: seq<seq<Item>>, calls: (nat, nat) -> Call, maxRetry: nat, x: Source) {
    && x.batch < |batches| && x.attempt <= maxRetry && UnreadableBefore(batches[x.batch], calls, x.batch, x.attempt)
    && calls(x.batch, x.attempt).Replied?
  }

  /** Result i is what the entry at source i says; the sources are in the order of the batches and their entries. */
  ghost predicate Traces(batches: seq<seq<Item>>, calls: (nat, nat) -> Call, maxRetry: nat, results: seq<Judgement>, from: seq<Source>) {
    && |from| == |results|
    && (forall i :: 0 <= i < |from| ==> FromAccepted(batches, calls, maxRetry, from[i]) &&
                                        ResultIs(results[i], EntryAt(calls, from[i]), batches[from[i].batch]))
    && (forall i, j :: 0 <= i < j < |from| ==> Earlier(from[i], from[j]))
  }

  /** Every batch was accepted, with these attempts, entries and results. */
  ghost predicate AllAccepted(batches: seq<seq<Item>>, calls: (nat, nat) -> Call, maxRetry: nat,
                              ats: seq<nat>, ixs: seq<seq<nat>>, parts: seq<seq<Judgement>>) {
    && |ats| == |ixs| == |parts| <= |batches|
    && forall b: nat :: b < |parts| ==> Accepted(batches[b], calls, b, maxRetry, ats[b], ixs[b], parts[b])
  }

  /** Main result, the whole evaluation: it succeeds exactly with the results of all batches, one after the other, each
      from its accepted attempt; it fails with the failure of the first batch that has none. */
  lemma {:induction false} EvaluationExactly(all: seq<seq<Item>>, k: nat, calls: (nat, nat) -> Call, maxRetry: nat)
    returns (ats: seq<nat>, ixs: seq<seq<nat>>, parts: seq<seq<Judgement>>, failed: nat)
    requires k <= |all|
    ensures AllAccepted(all, calls, maxRetry, ats, ixs, parts)
    ensures var r := Evaluated(all[..k], calls, maxRetry);
            if r.Ok? then |parts| == k && r.value == Concat(parts)
            else |parts| < k && Rejects(all[|parts|], calls, |parts|, maxRetry, failed, r.error)
  {
    ats, ixs, parts, failed := [], [], [], 0;
    if k > 0 {
      hide Attempts, Accepted, Rejects, Concat;
      ats, ixs, parts, failed := EvaluationExactly(all, k - 1, calls, maxRetry);
      var front, batch := all[..k - 1], all[k - 1];
      assert all[..k][..k - 1] == front;
      if Evaluated(front, calls, maxRetry).Ok? {
        var last := Attempts(batch, calls, k - 1, 0, maxRetry);
        var at, ix := AttemptsExactly(batch, calls, k - 1, maxRetry);
        if last.Ok? {
          ConcatSnoc(parts, last.value);
          ats, ixs, parts := ats + [at], ixs + [ix], parts + [last.value];
        } else {
          failed := at;
        }
      }
    }
  }

  /** The entries of batch `b`, as sources. */
  function SourcesOf(b: nat, at: nat, ix: seq<nat>): (r: seq<Source>)
    ensures |r| == |ix| && forall i :: 0 <= i < |r| ==> r[i] == Source(b, at, ix[i])
  {
    seq(|ix|, i requires 0 <= i < |ix| => Source(b, at, ix[i]))
  }

  lemma AcceptedTraces(batches: seq<seq<Item>>, calls: (nat, nat) -> Call, maxRetry: nat, b: nat, at: nat, ix: seq<nat>, part: seq<Judgement>)
    requires b < |batches| && Accepted(batches[b], calls, b, maxRetry, at, ix, part)
    ensures Traces(batches, calls, maxRetry, part, SourcesOf(b, at, ix))
  {
    hide ResultIs, Unreadable;
  }

  lemma TracesConcat(batches: seq<seq<Item>>, calls: (nat, nat) -> Call, maxRetry: nat,
                     x: seq<Judgement>, xs: seq<Source>, y: seq<Judgement>, ys: seq<Source>)
    requires Traces(batches, calls, maxRetry, x, xs) && Traces(batches, calls, maxRetry, y, ys)
    requires forall i, j :: 0 <= i < |xs| && 0 <= j < |ys| ==> Earlier(xs[i], ys[j])
    ensures Traces(batches, calls, maxRetry, x + y, xs + ys)
  {
    hide ResultIs, FromAccepted, Earlier;
  }

  lemma {:induction false} PartsTrace(batches: seq<seq<Item>>, calls: (nat, nat) -> Call, maxRetry: nat,
                                      ats: seq<nat>, ixs: seq<seq<nat>>, parts: seq<seq<Judgement>>) returns (from: seq<Source>)
    requires AllAccepted(batches, calls, maxRetry, ats, ixs, parts)
    ensures Traces(batches, calls, maxRetry, Concat(parts), from)
    ensures forall i :: 0 <= i < |from| ==> from[i].batch < |parts|
    decreases |parts|
  {
    from := [];
    if parts != [] {
      var b := |parts| - 1;
      hide Accepted, Traces;
      var before := PartsTrace(batches, calls, maxRetry, ats[..b], ixs[..b], parts[..b]);
      assert Accepted(batches[b], calls, b, maxRetry, ats[b], ixs[b], parts[b]);
      AcceptedTraces(batches, calls, maxRetry, b, ats[b], ixs[b], parts[b]);
      ConcatSnoc(parts[..b], parts[b]);
      assert parts[..b] + [parts[b]] == parts;
      from := before + SourcesOf(b, ats[b], ixs[b]);
      TracesConcat(batches, calls, maxRetry, Concat(parts[..b]), before, parts[b], SourcesOf(b, ats[b], ixs[b]));
    } else {
      assert Concat(parts) == [];
    }
  }

  /** Each result of a successful evaluation is what one entry of an accepted reply says. */
  lemma ResultsAreEntries(batches: seq<seq<Item>>, calls: (nat, nat) -> Call, maxRetry: nat) returns (from: seq<Source>)
    requires Evaluated(batches, calls, maxRetry).Ok?
    ensures Traces(batches, calls, maxRetry, Evaluated(batches, calls, maxRetry).value, from)
  {
    hide Evaluated, AllAccepted, Rejects, Traces;
    assert batches[..|batches|] == batches;
    var ats, ixs, parts, failed := EvaluationExactly(batches, |batches|, calls, maxRetry);
    from := PartsTrace(batches, calls, maxRetry, ats, ixs, parts);
  }

  // ---------------------------------------------------------------- what a grade says

  /** The entry at `x` is about document `d`. */
  predicate About(batches: seq<seq<Item>>, calls: (nat, nat) -> Call, x: Source, d: nat) {
    var e := EntryAt(calls, x);
    x.batch < |batches| && Complete(e, |batches[x.batch]|) && batches[x.batch][e.index.value].docIndex == d
  }

  /** Main result, grading: when every reply lists its batch in document order, a document's score is the highest
      score an entry about it gives, or 0; a positive score comes with the verdict and the reason of the first entry
      that gives it, so the document is relevant exactly if that entry says so. */
  lemma GradesFollowTheEntries(docs: seq<Doc>, i: nat, items: seq<Item>, batches: seq<seq<Item>>,
                               calls: (nat, nat) -> Call, maxRetry: nat, who: Evaluator) returns (from: seq<Source>)
    requires Concat(batches) == items && AlwaysInOrder(batches, calls) && Evaluated(batches, calls, maxRetry).Ok?
    requires i < |docs| && Mentions(items, |items|, docs[i].index)
    ensures Traces(batches, calls, maxRetry, Evaluated(batches, calls, maxRetry).value, from)
    ensures var g, d := GradeOf(docs[i], items, Evaluated(batches, calls, maxRetry).value, who), docs[i].index;
            && g.content == docs[i].content && g.gradedBy == who && g.fallback.None? && g.score >= 0.0
            && (forall j :: 0 <= j < |from| && About(batches, calls, from[j], d) ==> EntryAt(calls, from[j]).score.value <= g.score)
            && (g.score == 0.0 ==> g.relevance.NotRelevant? && g.reason == "")
            && (g.score > 0.0 ==> exists j :: 0 <= j < |from| && Decides(batches, calls, from, d, g, j))
  {
    hide Traces, About, AlwaysInOrder, Evaluated, Best;
    from := ResultsAreEntries(batches, calls, maxRetry);
    GradesFollowTheChunks(docs, i, items, batches, calls, maxRetry, who);
    var results, d := Evaluated(batches, calls, maxRetry).value, docs[i].index;
    var g := GradeOf(docs[i], items, results, who);
    TracesAbout(batches, calls, maxRetry, results, from, d);
    BestIsMaximum(items, results, |items|, d);
    var b := Best(items, results, |items|, d);
    if g.score > 0.0 {
      var j: nat :| FirstReaching(items, results, |items|, d, j, b.score) && b == Info(results[j].score, results[j].relevance, results[j].reason);
      assert results[j].docIndex == d;
      assert forall h :: 0 <= h < j && results[h].docIndex == d ==> items[h].docIndex == d;
      assert Decides(batches, calls, from, d, g, j);
    }
  }

  /** A document no result was matched to is graded not relevant. */
  lemma UnmatchedGrade(doc: Doc, items: seq<Item>, results: seq<Judgement>, who: Evaluator)
    requires forall i :: 0 <= i < |items| && i < |results| ==> items[i].docIndex != doc.index
    ensures GradeOf(doc, items, results, who) == Grade(doc.content, NotRelevant, 0.0, "No evaluation result", who, None)
  {
    hide Best;
    assert !Mentions(items, Matched(items, results), doc.index);
  }

  /** Entry `j` is the first about `d` with the score of `g`, whose verdict and reason are the entry's. */
  predicate Decides(batches: seq<seq<Item>>, calls: (nat, nat) -> Call, from: seq<Source>, d: nat, g: Grade, j: nat)
    requires j < |from|
  {
    var e := EntryAt(calls, from[j]);
    && About(batches, calls, from[j], d) && e.score.value == g.score && e.reason == g.reason
    && (g.relevance.Relevant? <==> SaysRelevant(e.relevance.value))
    && forall h :: 0 <= h < j && About(batches, calls, from[h], d) ==> EntryAt(calls, from[h]).score.value < g.score
  }

  lemma TracesAbout(batches: seq<seq<Item>>, calls: (nat, nat) -> Call, maxRetry: nat, results: seq<Judgement>, from: seq<Source>, d: nat)
    requires Traces(batches, calls, maxRetry, results, from)
    ensures |from| == |results|
    ensures forall j :: 0 <= j < |from| ==> ResultIs(results[j], EntryAt(calls, from[j]), batches[from[j].batch])
    ensures forall j :: 0 <= j < |from| ==> (About(batches, calls, from[j], d) <==> results[j].docIndex == d)
  {
  }

  // ---------------------------------------------------------------- fallbacks

  /** The score a document brings along: its rerank score, else its similarity, unless they are missing or 0. */
  predicate Carries(doc: Doc, score: real) {
    if doc.rerankScore.Some? && doc.rerankScore != Some(0.0) then doc.rerankScore == Some(score)
    else if doc.similarity.Some? && doc.similarity != Some(0.0) then doc.similarity == Some(score)
    else score == 0.5
  }

  /** Main result, failing: if no model answers, every document keeps the score it brought along; it is relevant if
      that reaches the threshold, and always if there is no fallback by scores. */
  lemma FallbackExactly(p: Params, doc: Doc, reason: string)
    ensures var g := FallbackGrade(p, doc, reason);
            && g.content == doc.content && Carries(doc, g.score) && g.fallback == Some(reason)
            && (g.relevance.Relevant? <==> !p.fallbackOnFailure || g.score >= p.threshold)
            && (g.gradedBy.RerankFallback? <==> p.fallbackOnFailure) && (g.gradedBy.AllFailed? <==> !p.fallbackOnFailure)
            && g.reason == (if p.fallbackOnFailure then "Rerank fallback due to " + reason
                            else "All LLM evaluators failed; marking relevant to continue flow")
  {
  }

  /** The backup model takes over exactly when there is one and the primary one's quota is exceeded; its own failure,
      even of the quota, is final. */
  lemma BackupExactly(batches: seq<seq<Item>>, m: Models, p: Params, who: Evaluator)
    requires who != BackupLlm
    ensures var (r, model) := Outcome(batches, m, p, who);
            && (model == BackupLlm <==> m.backup.Some? && Evaluated(batches, m.primary, p.maxRetry) == Err(QuotaExceeded))
            && (model != BackupLlm ==> model == who && r == Evaluated(batches, m.primary, p.maxRetry))
            && (model == BackupLlm ==> r == Evaluated(batches, m.backup.value, p.maxRetry))
  {
    hide Evaluated;
  }

  /** The reason a fallback grade carries tells the failures apart. */
  lemma FailureNamesExactly(f: Failure)
    ensures f.Timeout? <==> FailureName(f) == "llm_timeout"
    ensures f.QuotaExceeded? <==> FailureName(f) == "llm_quota_exceeded"
    ensures f.ParseError? <==> FailureName(f) == "parse_error"
    ensures f.ServiceUnavailable? <==> FailureName(f) == "service_unavailable"
    ensures f.OtherFailure? <==> FailureName(f) == "llm_failure"
  {
  }

  // ---------------------------------------------------------------- the items

  /** The items of document `k` are its paragraphs, and start at `starts[k]`. */
  predicate StartAt(docs: seq<Doc>, split: Doc -> seq<string>, items: seq<Item>, starts: seq<nat>, k: nat)
    requires k < |docs| && k + 1 < |starts|
  {
    var chunks := split(docs[k]);
    && starts[k] + |chunks| == starts[k + 1] <= |items|
    && forall i :: 0 <= i < |chunks| ==> items[starts[k] + i] == Item(docs[k].index, chunks[i])
  }

  /** The items are the paragraphs of the documents, document by document, and nothing else. */
  lemma {:induction false} ItemsInOrder(docs: seq<Doc>, split: Doc -> seq<string>) returns (starts: seq<nat>)
    ensures |starts| == |docs| + 1 && starts[0] == 0 && starts[|docs|] == |AllItems(docs, split)|
    ensures forall k: nat :: k < |docs| ==> StartAt(docs, split, AllItems(docs, split), starts, k)
  {
    if docs == [] {
      starts := [0];
    } else {
      var last := |docs| - 1;
      var front := docs[..last];
      var before := ItemsInOrder(front, split);
      var items := AllItems(front, split);
      starts := before + [|items| + |split(docs[last])|];
      forall k: nat | k < |docs|
        ensures StartAt(docs, split, AllItems(docs, split), starts, k)
      {
        if k < last {
          assert StartAt(front, split, items, before, k);
        }
      }
    }
  }
}
