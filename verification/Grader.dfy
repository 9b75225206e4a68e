/**
 Grading retrieved documents: they are split into items, items are judged in batches with retries, and
 the judgements are merged back into one grade per document. The LLM is an arbitrary oracle.
 */
module Grader {
  import opened Prelude
  import opened GraderBatches

  datatype Result<T, E> = Ok(value: T) | Err(error: E)

  datatype Relevance = Relevant | NotRelevant

  datatype Doc = Doc(index: nat, content: string, rerankScore: Option<real>, similarity: Option<real>)

  /** One element of the JSON list an LLM answers; a missing or unconvertible field is None. */
  datatype Entry = NotAnObject | Entry(index: Option<int>, relevance: Option<string>, score: Option<real>, reason: string)

  datatype Reply = NotJson | NotAList | Listed(entries: seq<Entry>)

  /** What one LLM call gives back; the text of a rejection is classified by its keywords. */
  datatype Call = TimedOut | Rejected(text: string) | Replied(reply: Reply)

  datatype Failure = Timeout | QuotaExceeded | ParseError | ServiceUnavailable | OtherFailure

  datatype Judgement = Judgement(docIndex: nat, relevance: Relevance, score: real, reason: string)

  datatype Evaluator = Llm | BackupLlm | LocalNli | RerankFallback | AllFailed

  datatype Grade = Grade(content: string, relevance: Relevance, score: real, reason: string,
                         gradedBy: Evaluator, fallback: Option<string>)

  datatype Params = Params(maxRetry: nat, fallbackOnFailure: bool, threshold: real)

  // ---------------------------------------------------------------- building the items

  function ItemsOf(doc: Doc, chunks: seq<string>): (r: seq<Item>)
    ensures |r| == |chunks| && forall i :: 0 <= i < |r| ==> r[i] == Item(doc.index, chunks[i])
  {
    seq(|chunks|, i requires 0 <= i < |chunks| => Item(doc.index, chunks[i]))
  }

  function AllItems(docs: seq<Doc>, split: Doc -> seq<string>): seq<Item> {
    if docs == [] then [] else
    AllItems(docs[..|docs| - 1], split) + ItemsOf(docs[|docs| - 1], split(docs[|docs| - 1]))
  }

  method BuildEvaluationItems(docs: seq<Doc>, split: Doc -> seq<string>) returns (items: seq<Item>)
    ensures items == AllItems(docs, split)
  {
    items := [];
    var k := 0;
    while k < |docs|
      invariant 0 <= k <= |docs| && items == AllItems(docs[..k], split)
    {
      var chunks := split(docs[k]);
      assert docs[..k + 1][..k] == docs[..k];
      var j := 0;
      ghost var before := items;
      while j < |chunks|
        invariant 0 <= j <= |chunks| && items == before + ItemsOf(docs[k], chunks)[..j]
      {
        items := items + [Item(docs[k].index, chunks[j])];
        j := j + 1;
      }
      assert ItemsOf(docs[k], chunks)[..j] == ItemsOf(docs[k], chunks);
      k := k + 1;
    }
    assert docs[..k] == docs;
  }

  // ---------------------------------------------------------------- parsing one reply

  function NormalizeRelevance(value: string): Relevance {
    var low := seq(|value|, i requires 0 <= i < |value| =>
                     if value[i] == ' ' || value[i] == '-' then '_' else Lower(value[i]));
    if low in ["relevant", "entailment", "entailed", "yes", "true"] then Relevant else NotRelevant
  }

  predicate Usable(e: Entry, n: nat) {
    e.Entry? && e.index.Some? && e.relevance.Some? && e.score.Some? && 0 <= e.index.value < n
  }

  function Judge(e: Entry, batch: seq<Item>): Judgement
    requires Usable(e, |batch|)
  {
    Judgement(batch[e.index.value].docIndex, NormalizeRelevance(e.relevance.value), e.score.value, e.reason)
  }

  function UsableOnly(entries: seq<Entry>, n: nat): (r: seq<Entry>)
    ensures forall i :: 0 <= i < |r| ==> Usable(r[i], n)
  {
    if entries == [] then [] else
    UsableOnly(entries[..|entries| - 1], n) + (if Usable(entries[|entries| - 1], n) then [entries[|entries| - 1]] else [])
  }

  function JudgeAll(usable: seq<Entry>, batch: seq<Item>): (r: seq<Judgement>)
    requires forall i :: 0 <= i < |usable| ==> Usable(usable[i], |batch|)
    ensures |r| == |usable| && forall i :: 0 <= i < |r| ==> r[i] == Judge(usable[i], batch)
  {
    seq(|usable|, i requires 0 <= i < |usable| => Judge(usable[i], batch))
  }

  /** The judgements a reply contains, if it judges exactly as many items as were sent. */
  function Parsed(reply: Reply, batch: seq<Item>): Result<seq<Judgement>, Failure> {
    if !reply.Listed? then Err(ParseError) else
    var usable := UsableOnly(reply.entries, |batch|);
    if |usable| != |batch| then Err(ParseError) else
    Ok(JudgeAll(usable, batch))
  }

  method ParseResponse(reply: Reply, batch: seq<Item>) returns (r: Result<seq<Judgement>, Failure>)
    ensures r == Parsed(reply, batch)
  {
    if !reply.Listed? {
      return Err(ParseError);
    }
    var entries := reply.entries;
    var parsed: seq<Judgement> := [];
    var k := 0;
    while k < |entries|
      invariant 0 <= k <= |entries|
      invariant parsed == JudgeAll(UsableOnly(entries[..k], |batch|), batch)
    {
      var e := entries[k];
      assert entries[..k + 1][..k] == entries[..k];
      if Usable(e, |batch|) {
        parsed := parsed + [Judge(e, batch)];
      }
      k := k + 1;
    }
    assert entries[..k] == entries;
    if |parsed| != |batch| {
      return Err(ParseError);
    }
    r := Ok(parsed);
  }

  // ---------------------------------------------------------------- evaluating all batches

  predicate AnyIn(low: string, keys: seq<string>) {
    exists i :: 0 <= i < |keys| && Contains(low, keys[i])
  }

  function Classify(text: string): Failure {
    var low := LowerCase(text);
    if text == "" then OtherFailure
    else if AnyIn(low, ["timeout", "timed out", "time out"]) then Timeout
    else if AnyIn(low, ["quota", "rate limit", "insufficient quota", "billing", "limit exceeded", "too many requests"])
    then QuotaExceeded
    else if AnyIn(low, ["unavailable", "service unavailable", "503", "connection refused", "connection error"])
    then ServiceUnavailable
    else OtherFailure
  }

  /** The outcome of one batch from attempt `n` on: only parse errors are retried. */
  function Attempts(batch: seq<Item>, calls: (nat, nat) -> Call, b: nat, n: nat, maxRetry: nat): Result<seq<Judgement>, Failure>
    decreases maxRetry + 1 - n
  {
    if n > maxRetry then Err(ParseError) else
    match calls(b, n)
    case TimedOut => Err(Timeout)
    case Rejected(text) => Err(Classify(text))
    case Replied(reply) =>
      var r := Parsed(reply, batch);
      if r.Ok? then r else Attempts(batch, calls, b, n + 1, maxRetry)
  }

  /** The outcome of a list of batches; the first failure ends it. */
  function Evaluated(batches: seq<seq<Item>>, calls: (nat, nat) -> Call, maxRetry: nat): Result<seq<Judgement>, Failure> {
    if batches == [] then Ok([]) else
    var b := |batches| - 1;
    var before := Evaluated(batches[..b], calls, maxRetry);
    if before.Err? then before else
    var last := Attempts(batches[b], calls, b, 0, maxRetry);
    if last.Err? then last else Ok(before.value + last.value)
  }

  method LlmEvaluate(batches: seq<seq<Item>>, calls: (nat, nat) -> Call, maxRetry: nat)
    returns (r: Result<seq<Judgement>, Failure>)
    ensures r == Evaluated(batches, calls, maxRetry)
  {
    var results: seq<Judgement> := [];
    var b: nat := 0;
    while b < |batches|
      invariant 0 <= b <= |batches|
      invariant Evaluated(batches[..b], calls, maxRetry) == Ok(results)
    {
      assert batches[..b + 1][..b] == batches[..b];
      var attempt: nat := 0;
      var done := false;
      ghost var outcome := Attempts(batches[b], calls, b, 0, maxRetry);
      assert Evaluated(batches[..b + 1], calls, maxRetry) == if outcome.Err? then outcome else Ok(results + outcome.value);
      while attempt <= maxRetry && !done
        invariant 0 <= attempt <= maxRetry + 1
        invariant !done ==> outcome == Attempts(batches[b], calls, b, attempt, maxRetry)
        invariant done ==> Evaluated(batches[..b + 1], calls, maxRetry) == Ok(results)
        invariant !done ==> Evaluated(batches[..b + 1], calls, maxRetry) == if outcome.Err? then outcome else Ok(results + outcome.value)
        decreases maxRetry + 1 - attempt, !done
      {
        match calls(b, attempt)
        case TimedOut =>
          FailedBatchFailsAll(batches, calls, maxRetry, b);
          return Err(Timeout);
        case Rejected(text) =>
          FailedBatchFailsAll(batches, calls, maxRetry, b);
          return Err(Classify(text));
        case Replied(reply) =>
          var parsed := ParseResponse(reply, batches[b]);
          if parsed.Ok? {
            results := results + parsed.value;
            done := true;
          } else {
            attempt := attempt + 1;
          }
      }
      if !done {
        FailedBatchFailsAll(batches, calls, maxRetry, b);
        return Err(ParseError);
      }
      b := b + 1;
    }
    assert batches[..b] == batches;
    r := Ok(results);
  }

  lemma {:induction false} FailedBatchFailsAll(batches: seq<seq<Item>>, calls: (nat, nat) -> Call, maxRetry: nat, b: nat)
    requires b < |batches| && Evaluated(batches[..b + 1], calls, maxRetry).Err?
    ensures Evaluated(batches, calls, maxRetry) == Evaluated(batches[..b + 1], calls, maxRetry)
    decreases |batches|
  {
    if b + 1 < |batches| {
      var front := batches[..|batches| - 1];
      assert front[..b + 1] == batches[..b + 1];
      FailedBatchFailsAll(front, calls, maxRetry, b);
    } else {
      assert batches[..b + 1] == batches;
    }
  }

  // ---------------------------------------------------------------- merging back to documents

  datatype Info = Info(score: real, relevance: Relevance, reason: string)

  const NO_INFO := Info(0.0, NotRelevant, "")

  /** The best judgement of document `d` among the first `k` results, matched to items by position. */
  function Best(items: seq<Item>, results: seq<Judgement>, k: nat, d: nat): Info
    requires k <= |items| && k <= |results|
  {
    if k == 0 then NO_INFO else
    var best := Best(items, results, k - 1, d);
    var r := results[k - 1];
    if items[k - 1].docIndex == d && r.score > best.score then Info(r.score, r.relevance, r.reason) else best
  }

  function Matched(items: seq<Item>, results: seq<Judgement>): nat {
    if |items| <= |results| then |items| else |results|
  }

  predicate Mentions(items: seq<Item>, k: nat, d: nat)
    requires k <= |items|
  {
    exists i :: 0 <= i < k && items[i].docIndex == d
  }

  function OrElse(x: Option<real>, y: Option<real>): real {
    if x.Some? && x.value != 0.0 then x.value
    else if y.Some? && y.value != 0.0 then y.value
    else 0.5
  }

  /** The grade of one document when its evaluation succeeded. */
  function GradeOf(doc: Doc, items: seq<Item>, results: seq<Judgement>, grader: Evaluator): Grade {
    var n := Matched(items, results);
    if Mentions(items, n, doc.index) then
      var b := Best(items, results, n, doc.index);
      Grade(doc.content, b.relevance, b.score, b.reason, grader, None)
    else
      Grade(doc.content, NotRelevant, 0.0, "No evaluation result", grader, None)
  }

  method AggregateChunkResults(docs: seq<Doc>, items: seq<Item>, results: seq<Judgement>, grader: Evaluator)
    returns (graded: seq<Grade>)
    ensures |graded| == |docs|
    ensures forall i :: 0 <= i < |docs| ==> graded[i] == GradeOf(docs[i], items, results, grader)
  {
    var scores: map<nat, Info> := map[];
    var k := 0;
    while k < |results| && k < |items|
      invariant 0 <= k <= |results| && k <= |items|
      invariant forall d :: d in scores <==> Mentions(items, k, d)
      invariant forall d :: d in scores ==> scores[d] == Best(items, results, k, d)
      invariant forall d :: d !in scores ==> Best(items, results, k, d) == NO_INFO
    {
      var d := items[k].docIndex;
      var current := if d in scores then scores[d] else NO_INFO;
      if results[k].score > current.score {
        current := Info(results[k].score, results[k].relevance, results[k].reason);
      }
      scores := scores[d := current];
      k := k + 1;
    }
    graded := [];
    var i := 0;
    while i < |docs|
      invariant 0 <= i <= |docs| && |graded| == i
      invariant forall j :: 0 <= j < i ==> graded[j] == GradeOf(docs[j], items, results, grader)
    {
      var info := if docs[i].index in scores then scores[docs[i].index] else Info(0.0, NotRelevant, "No evaluation result");
      graded := graded + [Grade(docs[i].content, info.relevance, info.score, info.reason, grader, None)];
      i := i + 1;
    }
  }

  // ---------------------------------------------------------------- fallbacks and the whole evaluation

  function FailureName(f: Failure): string {
    match f
    case Timeout => "llm_timeout"
    case QuotaExceeded => "llm_quota_exceeded"
    case ParseError => "parse_error"
    case ServiceUnavailable => "service_unavailable"
    case OtherFailure => "llm_failure"
  }

  /** The grade of one document when the evaluation failed. */
  function FallbackGrade(p: Params, doc: Doc, reason: string): Grade {
    var score := OrElse(doc.rerankScore, doc.similarity);
    if p.fallbackOnFailure then
      Grade(doc.content, if score >= p.threshold then Relevant else NotRelevant, score,
            "Rerank fallback due to " + reason, RerankFallback, Some(reason))
    else
      Grade(doc.content, Relevant, score, "All LLM evaluators failed; marking relevant to continue flow",
            AllFailed, Some(reason))
  }

  method HandleFailure(p: Params, docs: seq<Doc>, reason: string) returns (graded: seq<Grade>)
    ensures |graded| == |docs|
    ensures forall i :: 0 <= i < |docs| ==> graded[i] == FallbackGrade(p, docs[i], reason)
  {
    graded := [];
    var i := 0;
    while i < |docs|
      invariant 0 <= i <= |docs| && |graded| == i
      invariant forall j :: 0 <= j < i ==> graded[j] == FallbackGrade(p, docs[j], reason)
    {
      graded := graded + [FallbackGrade(p, docs[i], reason)];
      i := i + 1;
    }
  }

  /** A primary model, and perhaps a backup one that takes over when the quota is exceeded. */
  datatype Models = Models(primary: (nat, nat) -> Call, backup: Option<(nat, nat) -> Call>)

  /** Who finally answered, with what. */
  function Outcome(batches: seq<seq<Item>>, m: Models, p: Params, grader: Evaluator): (Result<seq<Judgement>, Failure>, Evaluator) {
    var first := Evaluated(batches, m.primary, p.maxRetry);
    if first == Err(QuotaExceeded) && m.backup.Some?
    then (Evaluated(batches, m.backup.value, p.maxRetry), BackupLlm)
    else (first, grader)
  }

  method Evaluate(docs: seq<Doc>, items: seq<Item>, batches: seq<seq<Item>>, m: Models, p: Params, grader: Evaluator)
    returns (graded: seq<Grade>)
    ensures |graded| == |docs|
    ensures var (r, who) := Outcome(batches, m, p, grader);
            forall i :: 0 <= i < |docs| ==>
              graded[i] == if r.Ok? then GradeOf(docs[i], items, r.value, who)
                           else FallbackGrade(p, docs[i], FailureName(r.error))
  {
    var r := LlmEvaluate(batches, m.primary, p.maxRetry);
    var who := grader;
    if r == Err(QuotaExceeded) {
      if m.backup.Some? {
        r := LlmEvaluate(batches, m.backup.value, p.maxRetry);
        who := BackupLlm;
      }
    }
    if r.Ok? {
      graded := AggregateChunkResults(docs, items, r.value, who);
    } else {
      graded := HandleFailure(p, docs, FailureName(r.error));
    }
  }

  /** Whatever the models answer, every document gets one grade, in input order; the items were
      sent in the greedy batches, each exactly once and in order. */
  method GradeDocuments(docs: seq<Doc>, split: Doc -> seq<string>, m: Models, p: Params, grader: Evaluator,
                        batchSize: nat, maxBatchSize: nat, maxTokens: nat, queryTokens: nat, promptTokens: nat,
                        tokens: string -> nat)
    returns (graded: seq<Grade>, batches: seq<seq<Item>>)
    requires batchSize > 0 && maxBatchSize > 0
    ensures |graded| == |docs| && forall i :: 0 <= i < |docs| ==> graded[i].content == docs[i].content
    ensures Concat(batches) == AllItems(docs, split)
    ensures var (r, who) := Outcome(batches, m, p, grader);
            forall i :: 0 <= i < |docs| ==>
              graded[i] == if r.Ok? then GradeOf(docs[i], AllItems(docs, split), r.value, who)
                           else FallbackGrade(p, docs[i], FailureName(r.error))
  {
    hide Outcome, FailureName, AllItems, Batches, Fits, Best;
    var items := BuildEvaluationItems(docs, split);
    ghost var l;
    batches, l := SplitItemsIntoBatches(items, batchSize, maxBatchSize, maxTokens, queryTokens, promptTokens, tokens);
    GreedySplits(l, items);
    graded := Evaluate(docs, items, batches, m, p, grader);
  }

  /** Each document sends at least one item when the splitter returns at least one chunk. */
  lemma {:induction false} EveryDocumentIsSent(docs: seq<Doc>, split: Doc -> seq<string>, i: nat)
    requires i < |docs| && split(docs[i]) != []
    ensures Mentions(AllItems(docs, split), |AllItems(docs, split)|, docs[i].index)
  {
    var last := |docs| - 1;
    var front := AllItems(docs[..last], split);
    var items := AllItems(docs, split);
    if i == last {
      assert items[|front|] == ItemsOf(docs[i], split(docs[i]))[0];
      assert items[|front|].docIndex == docs[i].index;
    } else {
      EveryDocumentIsSent(docs[..last], split, i);
      var j :| 0 <= j < |front| && front[j].docIndex == docs[i].index;
      assert items[j] == front[j];
    }
  }

  // ---------------------------------------------------------------- what a grade means

  /** Position `i` is the first result of `d` that reaches the score `x`. */
  predicate FirstReaching(items: seq<Item>, results: seq<Judgement>, k: nat, d: nat, i: nat, x: real)
    requires k <= |items| && k <= |results|
  {
    && i < k && items[i].docIndex == d && results[i].score == x
    && forall j :: 0 <= j < i && items[j].docIndex == d ==> results[j].score < x
  }

  /** The merged score is the maximum of 0 and the document's scores, and the merged relevance is
      that of the first result reaching it; only a document with no positive score keeps the default. */
  lemma {:induction false} BestIsMaximum(items: seq<Item>, results: seq<Judgement>, k: nat, d: nat)
    requires k <= |items| && k <= |results|
    ensures var b := Best(items, results, k, d);
            && b.score >= 0.0
            && (forall i :: 0 <= i < k && items[i].docIndex == d ==> results[i].score <= b.score)
            && (b == NO_INFO || exists i: nat :: FirstReaching(items, results, k, d, i, b.score) &&
                                  b == Info(results[i].score, results[i].relevance, results[i].reason))
            && (b.score == 0.0 <==> b == NO_INFO)
  {
    if k > 0 {
      BestIsMaximum(items, results, k - 1, d);
      var before, b := Best(items, results, k - 1, d), Best(items, results, k, d);
      if items[k - 1].docIndex == d && results[k - 1].score > before.score {
        assert FirstReaching(items, results, k, d, k - 1, b.score);
      } else if before != NO_INFO {
        var i: nat :| FirstReaching(items, results, k - 1, d, i, b.score) &&
                 b == Info(results[i].score, results[i].relevance, results[i].reason);
        assert FirstReaching(items, results, k, d, i, b.score);
      }
    }
  }

  // ---------------------------------------------------------------- responses that list their batch in order

  /** The usable entries of a reply name the items of the batch 0, 1, 2, ... */
  predicate InOrder(reply: Reply, n: nat) {
    reply.Listed? && var usable := UsableOnly(reply.entries, n);
    |usable| == n && forall i :: 0 <= i < n ==> usable[i].index == Some(i)
  }

  /** Position by position, the usable entries name items of the documents the batch holds there; entries
      for two items of one document may change places. */
  predicate InDocumentOrder(reply: Reply, batch: seq<Item>) {
    reply.Listed? && var usable := UsableOnly(reply.entries, |batch|);
    |usable| == |batch| && forall i :: 0 <= i < |batch| ==> batch[usable[i].index.value].docIndex == batch[i].docIndex
  }

  /** Every reply that parses, for any batch, lists it in document order. */
  ghost predicate AlwaysInOrder(batches: seq<seq<Item>>, calls: (nat, nat) -> Call) {
    forall b: nat, n: nat {:trigger calls(b, n)} ::
      (b < |batches| && calls(b, n).Replied? && Parsed(calls(b, n).reply, batches[b]).Ok?) ==>
      InDocumentOrder(calls(b, n).reply, batches[b])
  }

  /** Result i judges item i. */
  predicate Aligned(results: seq<Judgement>, items: seq<Item>) {
    |results| == |items| && forall i :: 0 <= i < |results| ==> results[i].docIndex == items[i].docIndex
  }

  /** The judgements of a reply that parses are aligned exactly when it lists its batch in document order,
      as it does when it lists the batch in order. */
  lemma ParsedAlignedExactly(reply: Reply, batch: seq<Item>)
    requires Parsed(reply, batch).Ok?
    ensures Aligned(Parsed(reply, batch).value, batch) <==> InDocumentOrder(reply, batch)
    ensures InOrder(reply, |batch|) ==> InDocumentOrder(reply, batch)
  {
    var usable := UsableOnly(reply.entries, |batch|);
    var parsed := Parsed(reply, batch).value;
    assert forall i :: 0 <= i < |batch| ==> parsed[i].docIndex == batch[usable[i].index.value].docIndex;
  }

  /** The results of a whole evaluation are aligned exactly when those of every batch are. */
  lemma {:induction false} EvaluatedAlignedExactly(all: seq<seq<Item>>, k: nat, calls: (nat, nat) -> Call, maxRetry: nat)
    requires k <= |all| && Evaluated(all[..k], calls, maxRetry).Ok?
    ensures |Evaluated(all[..k], calls, maxRetry).value| == |Concat(all[..k])|
    ensures Aligned(Evaluated(all[..k], calls, maxRetry).value, Concat(all[..k])) <==>
              forall b :: 0 <= b < k ==> BatchAligned(all[b], calls, b, maxRetry)
  {
    if k > 0 {
      var before, r := all[..k - 1], Attempts(all[k - 1], calls, k - 1, 0, maxRetry);
      assert all[..k][..k - 1] == before && all[..k] == before + [all[k - 1]];
      EvaluatedAlignedExactly(all, k - 1, calls, maxRetry);
      ConcatSnoc(before, all[k - 1]);
      AttemptsComplete(all[k - 1], calls, k - 1, 0, maxRetry);
      AlignedParts(Evaluated(before, calls, maxRetry).value, r.value, Concat(before), all[k - 1]);
    }
  }

  predicate BatchAligned(batch: seq<Item>, calls: (nat, nat) -> Call, b: nat, maxRetry: nat) {
    var r := Attempts(batch, calls, b, 0, maxRetry);
    r.Ok? && Aligned(r.value, batch)
  }

  lemma {:induction false} AttemptsComplete(batch: seq<Item>, calls: (nat, nat) -> Call, b: nat, n: nat, maxRetry: nat)
    ensures var r := Attempts(batch, calls, b, n, maxRetry); r.Ok? ==> |r.value| == |batch|
    decreases maxRetry + 1 - n
  {
    if n <= maxRetry {
      AttemptsComplete(batch, calls, b, n + 1, maxRetry);
    }
  }

  lemma AlignedParts(x: seq<Judgement>, y: seq<Judgement>, a: seq<Item>, b: seq<Item>)
    requires |x| == |a| && |y| == |b|
    ensures Aligned(x + y, a + b) <==> Aligned(x, a) && Aligned(y, b)
  {
    if Aligned(x + y, a + b) {
      assert forall i :: 0 <= i < |x| ==> (x + y)[i] == x[i] && (a + b)[i] == a[i];
      assert forall i :: 0 <= i < |y| ==> (x + y)[|x| + i] == y[i] && (a + b)[|x| + i] == b[i];
    }
  }

  lemma {:induction false} AttemptsAligned(batch: seq<Item>, batches: seq<seq<Item>>, calls: (nat, nat) -> Call, b: nat, n: nat, maxRetry: nat)
    requires AlwaysInOrder(batches, calls) && b < |batches| && batch == batches[b]
    ensures var r := Attempts(batch, calls, b, n, maxRetry); r.Ok? ==> Aligned(r.value, batch)
    decreases maxRetry + 1 - n
  {
    if n <= maxRetry && calls(b, n).Replied? {
      if Parsed(calls(b, n).reply, batch).Ok? {
        ParsedAlignedExactly(calls(b, n).reply, batch);
      } else {
        AttemptsAligned(batch, batches, calls, b, n + 1, maxRetry);
      }
    }
  }

  lemma {:induction false} EvaluatedAligned(all: seq<seq<Item>>, k: nat, calls: (nat, nat) -> Call, maxRetry: nat)
    requires AlwaysInOrder(all, calls) && k <= |all|
    ensures var r := Evaluated(all[..k], calls, maxRetry); r.Ok? ==> Aligned(r.value, Concat(all[..k]))
  {
    if k > 0 {
      EvaluatedAligned(all, k - 1, calls, maxRetry);
      assert all[..k][..k - 1] == all[..k - 1];
      assert all[..k] == all[..k - 1] + [all[k - 1]];
      ConcatSnoc(all[..k - 1], all[k - 1]);
      AttemptsAligned(all[k - 1], all, calls, k - 1, 0, maxRetry);
    }
  }

  /** Main result: when every reply lists its batch in document order, a document's score is the maximum of 0
      and the scores the models gave to its own chunks, with the relevance of the first chunk reaching it. */
  lemma GradesFollowTheChunks(docs: seq<Doc>, i: nat, items: seq<Item>, batches: seq<seq<Item>>,
                              calls: (nat, nat) -> Call, maxRetry: nat, grader: Evaluator)
    requires Concat(batches) == items && AlwaysInOrder(batches, calls) && Evaluated(batches, calls, maxRetry).Ok?
    requires i < |docs| && Mentions(items, |items|, docs[i].index)
    ensures var results := Evaluated(batches, calls, maxRetry).value;
            var g := GradeOf(docs[i], items, results, grader);
            && Aligned(results, items)
            && g.score >= 0.0
            && (forall j :: 0 <= j < |results| && results[j].docIndex == docs[i].index ==> results[j].score <= g.score)
            && (if g.score == 0.0 then g.relevance == NotRelevant else
                exists j :: 0 <= j < |results| && results[j].docIndex == docs[i].index &&
                  results[j].score == g.score && results[j].relevance == g.relevance &&
                  forall h :: 0 <= h < j && results[h].docIndex == docs[i].index ==> results[h].score < g.score)
  {
    assert batches[..|batches|] == batches;
    EvaluatedAligned(batches, |batches|, calls, maxRetry);
    var results := Evaluated(batches, calls, maxRetry).value;
    var d := docs[i].index;
    var b := Best(items, results, |items|, d);
    BestIsMaximum(items, results, |items|, d);
    if b != NO_INFO {
      var j: nat :| FirstReaching(items, results, |items|, d, j, b.score) &&
                    b == Info(results[j].score, results[j].relevance, results[j].reason);
      assert results[j].docIndex == d;
      assert forall h :: 0 <= h < j && results[h].docIndex == d ==> items[h].docIndex == d;
    }
  }

  // ---------------------------------------------------------------- exactly when a grade is the document's own

  /** The best judgement about document `d` itself, whatever its position. */
  function OwnBest(results: seq<Judgement>, k: nat, d: nat): Info
    requires k <= |results|
  {
    if k == 0 then NO_INFO else
    var best := OwnBest(results, k - 1, d);
    var r := results[k - 1];
    if r.docIndex == d && r.score > best.score then Info(r.score, r.relevance, r.reason) else best
  }

  /** The same judgements with other scores. */
  function Rescored(results: seq<Judgement>, scores: seq<real>): (r: seq<Judgement>)
    ensures |r| == |results|
    ensures forall i :: 0 <= i < |r| ==> r[i] == if i < |scores| then results[i].(score := scores[i]) else results[i]
  {
    seq(|results|, i requires 0 <= i < |results| => if i < |scores| then results[i].(score := scores[i]) else results[i])
  }

  /** Whatever the scores, each document's grade is made of the judgements about it. */
  ghost predicate OwnScoresOnly(items: seq<Item>, results: seq<Judgement>, grader: Evaluator) {
    forall scores: seq<real>, doc: Doc {:trigger GradeOf(doc, items, Rescored(results, scores), grader)} ::
      GradeOf(doc, items, Rescored(results, scores), grader).score == OwnBest(Rescored(results, scores), |results|, doc.index).score
  }

  lemma {:induction false} AlignedIsOwn(items: seq<Item>, results: seq<Judgement>, k: nat, d: nat)
    requires Aligned(results, items) && k <= |items|
    ensures Best(items, results, k, d) == OwnBest(results, k, d)
  {
    if k > 0 {
      AlignedIsOwn(items, results, k - 1, d);
    }
  }

  lemma {:induction false} OwnBestNone(results: seq<Judgement>, k: nat, d: nat)
    requires k <= |results| && forall i :: 0 <= i < k && results[i].docIndex == d ==> results[i].score <= 0.0
    ensures OwnBest(results, k, d) == NO_INFO
  {
    if k > 0 {
      OwnBestNone(results, k - 1, d);
    }
  }

  lemma {:induction false} UnmentionedIsNone(items: seq<Item>, results: seq<Judgement>, k: nat, d: nat)
    requires k <= |items| && k <= |results| && !Mentions(items, k, d)
    ensures Best(items, results, k, d) == NO_INFO
  {
    if k > 0 {
      assert !Mentions(items, k - 1, d) && items[k - 1].docIndex != d;
      UnmentionedIsNone(items, results, k - 1, d);
    }
  }

  /** The score and the relevance of a grade are those of the best positional match. */
  lemma GradeIsBest(doc: Doc, items: seq<Item>, results: seq<Judgement>, grader: Evaluator)
    ensures var b := Best(items, results, Matched(items, results), doc.index);
            var g := GradeOf(doc, items, results, grader);
            g.score == b.score && g.relevance == b.relevance
  {
    hide Best, Mentions;
    if !Mentions(items, Matched(items, results), doc.index) {
      UnmentionedIsNone(items, results, Matched(items, results), doc.index);
    }
  }

  /** When the results are not aligned, some scores give some document a grade it was not given. */
  lemma MisalignedGradeIsForeign(items: seq<Item>, results: seq<Judgement>, i: nat, doc: Doc, grader: Evaluator)
    returns (scores: seq<real>)
    requires |results| == |items| && i < |items|
    requires results[i].docIndex != items[i].docIndex && doc.index == items[i].docIndex
    ensures |scores| == |results|
    ensures GradeOf(doc, items, Rescored(results, scores), grader).score == 1.0
    ensures OwnBest(Rescored(results, scores), |results|, doc.index).score == 0.0
  {
    hide Best, OwnBest, GradeOf;
    var n := |results|;
    scores := seq(n, j => if j == i then 1.0 else 0.0);
    var rescored := Rescored(results, scores);
    BestIsMaximum(items, rescored, n, doc.index);
    GradeIsBest(doc, items, rescored, grader);
    OwnBestNone(rescored, n, doc.index);
    var b := Best(items, rescored, n, doc.index);
    assert rescored[i].score <= b.score;
  }

  /** Main result, exactly: for all scores and all documents the grade is the best of the document's own
      judgements if and only if result i judges item i's document, for every i; then the relevance is too. */
  lemma OwnScoresExactlyWhenAligned(items: seq<Item>, results: seq<Judgement>, grader: Evaluator)
    requires |results| == |items|
    ensures OwnScoresOnly(items, results, grader) <==> Aligned(results, items)
    ensures Aligned(results, items) ==> forall doc: Doc ::
              GradeOf(doc, items, results, grader).relevance == OwnBest(results, |results|, doc.index).relevance
  {
    hide Best, OwnBest, GradeOf;
    if Aligned(results, items) {
      forall scores: seq<real>, doc: Doc
        ensures GradeOf(doc, items, Rescored(results, scores), grader).score
                == OwnBest(Rescored(results, scores), |results|, doc.index).score
      {
        AlignedIsOwn(items, Rescored(results, scores), |results|, doc.index);
        GradeIsBest(doc, items, Rescored(results, scores), grader);
      }
      forall doc: Doc
        ensures GradeOf(doc, items, results, grader).relevance == OwnBest(results, |results|, doc.index).relevance
      {
        AlignedIsOwn(items, results, |results|, doc.index);
        GradeIsBest(doc, items, results, grader);
      }
    } else {
      var i :| 0 <= i < |items| && results[i].docIndex != items[i].docIndex;
      var doc := Doc(items[i].docIndex, "", None, None);
      var scores := MisalignedGradeIsForeign(items, results, i, doc, grader);
      assert GradeOf(doc, items, Rescored(results, scores), grader).score
             != OwnBest(Rescored(results, scores), |results|, doc.index).score;
    }
  }

  /** So a reply that lists two documents the other way round gives each of them the other one's grade. */
  lemma OutOfOrderRepliesSwapGrades(a: Doc, b: Doc, ta: string, tb: string, x: Judgement, y: Judgement, grader: Evaluator)
    requires a.index != b.index && x.docIndex == a.index && y.docIndex == b.index && x.score > 0.0 && y.score > 0.0
    ensures var items := [Item(a.index, ta), Item(b.index, tb)];
            && !Aligned([y, x], items) && !OwnScoresOnly(items, [y, x], grader)
            && (GradeOf(a, items, [y, x], grader).score, GradeOf(a, items, [y, x], grader).relevance) == (y.score, y.relevance)
            && (GradeOf(b, items, [y, x], grader).score, GradeOf(b, items, [y, x], grader).relevance) == (x.score, x.relevance)
  {
    var items := [Item(a.index, ta), Item(b.index, tb)];
    assert items[0].docIndex == a.index && items[1].docIndex == b.index;
    OwnScoresExactlyWhenAligned(items, [y, x], grader);
    assert [y, x][0].docIndex != items[0].docIndex;
    assert Best(items, [y, x], 0, a.index) == NO_INFO && Best(items, [y, x], 0, b.index) == NO_INFO;
    assert Best(items, [y, x], 1, a.index).score == y.score && Best(items, [y, x], 1, b.index) == NO_INFO;
  }
}
