# Proofs about the agent canvas

This project models, in Dafny, the parts of the agent canvas that schedule work, split and merge data
and enforce bounds, and proves what they keep over every input, every run and every answer of the
language models. Verify it with `dafny verify dfyconfig.toml`.

**The scheduler.** `Canvas.run` keeps a list, the path, of the components executed and scheduled. One
turn of its loop takes the entries from `idx` on as a batch: it drops those whose inputs did not run,
invokes the others concurrently, then routes each of them to its successors, a container's first
component, a container's exit or an error handler's goto. `CanvasModel` writes a turn as a function on
states, with everything a component may answer, every cancellation and every order of concurrent effects
drawn from an oracle. `CanvasRuns` proves what every reachable state satisfies and that acyclic runs
stop. `CanvasBatch` says completely what one batch drops, stores and schedules. `CanvasContainer` and
`CanvasIteration` follow the one token an Iteration or a Loop has in a run, `CanvasContainers` lets
several containers run, `CanvasProgress` and `CanvasLaunch` prove that an undisturbed Iteration
completes, from the launch on, `CanvasResults` that it collects its components' answers, `CanvasEntry`
gives a condition on the graph under which the token exists only once and a graph that meets every
hypothesis, `CanvasStalls` shows containers that do not do what they are for, and `CanvasTermination`
says exactly when runs into a container stop. `CanvasEngine` is the scheduler as an object whose path is
popped, appended to and cut in place, each method proved to move its state as the functions say.

**Document grading** (`GraderBatches`, `Grader`, `GraderResults`) packs document chunks greedily into
model calls, parses and retries, and merges the judgements into one grade per document. **RAPTOR**
(`Raptor`) builds a tree of summaries layer by layer while concurrent tasks append to one list. **The
state** (`StateText`, `StateClamp`, `StateSchema`) is truncated by a binary search over UTF-8 prefixes,
clamped field by field and upgraded to a typed schema. **The hallucination detector** (`Hallucination`)
turns layered verdicts into a capped mean and an action. **Texts** (`MessageStream`, `SheetNames`,
`StringTransform`): a streamed message against the one-shot form, unique sheet names, split against
join. **Retries** (`Retry`): the cycle of query rewriter and retry controller.

Where the code does not do what its comments or callers suggest, the model follows the code:

- A truncated text gets the whole 14-byte suffix when the prefix leaves no byte free, so it exceeds its
  limit (`StateText.TruncatedSize`).
- Chunk results are matched to items by position, so a reply that lists a batch out of order gives
  documents each other's grades; the exact condition is `Grader.OwnScoresExactlyWhenAligned`. A document with no positive
  score is never relevant, whatever relevance the model gave it (`Grader.BestIsMaximum`).
- An Iteration item left at index -1 starts its next use, in the same run or a later one, with the last
  element (`CanvasIteration.FreshItemStartsAtZero`, `CanvasStalls.SecondUseRepeatsTheLast`,
  `CanvasIteration.LaunchKeepsCounters`). An Iteration
  with an empty body shows one element and ends the run, unless another entry is last on the path
  (`CanvasStalls.EmptyBodyEndsTheRun`, `CanvasStalls.EmptyBodyReturns`).
- An item with a default value that hides its failures starts passes nobody counts. Runs into a container
  stop in every environment exactly when the item has no such default value
  (`CanvasTermination.LaunchedStopsExactlyUnlessHidden`, `CanvasTermination.StopsExactlyUnlessHidden`).
- When the summary of RAPTOR's last two chunks fails and the error limit is not reached, the loop ends
  with an empty top layer instead of a root (`Raptor.Builder.Build`, `PairFails`).
- The detector's cap fails closed only while the pass and the filter threshold both exceed 0.5
  (`Hallucination.FailsClosedExactly`).
- One-shot substitution raises on values a stream can show (`MessageStream.GetValueWithVariable`).
- The sheet-name loop may need one round more than there are used names, exactly for names that are
  their own candidate (`SheetNames.OneRoundTooMany`); such names exist (`SheetNames.OwnCandidateExists`).
- The query rewriter publishes the strategy it selects as its own output only; the retry history names
  the strategy found in the shared state (`Retry.HistoryNamesTheStrategy`).
- A state whose version is falsy is extracted with the current version (`StateSchema.ApplyThenExtract`).

## Model

| member | source | states |
|---|---|---|
| CanvasRuns.RunsAreTraced | agent/canvas.py:477-503 | In every reachable state of every run, until it is suspended, each executed component other than Begin and UserFillUp has every component it refers to at an earlier path position (unless the path starts with a fill-up), and each entry after the start is a legal successor of an entry executed before it |
| CanvasRuns.EveryBatchIsTraced | agent/canvas.py:477-503 | The same for the batch any reachable running state starts, also when that batch then fails or suspends the run: all its entries have their inputs and sources before them |
| CanvasRuns.LaunchIsLaunched | agent/canvas.py:443-445 | A run started on whatever known path an earlier run left meets the hypotheses of the run theorems |
| CanvasRuns.LaunchClears | agent/canvas.py:443-445 | A launch appends "begin" unless the path ends at a fill-up, empties every error and every output that was there, and keeps the item indexes |
| CanvasRuns.ExecutedEntriesNeverChange | agent/canvas.py:525-688 | The executed part of the path is a prefix of the path of every later state, and `idx` never moves back |
| CanvasRuns.BatchEdges | agent/canvas.py:655-683 | Every entry a batch appends is a downstream, route, goto, container start or container exit of an entry of that batch |
| CanvasBatch.OtherRunsDropTheUnready | agent/canvas.py:479-503 | A run that does not start at a fill-up drops exactly the pending entries that are neither Begin nor a fill-up and refer to a component that is not on the path among the entries left before them |
| CanvasBatch.ResumedRunsDropNothing | agent/canvas.py:489 | A run resumed at a fill-up drops no entry at all |
| CanvasBatch.NamesFillUpExactly | agent/canvas.py:443 | An id counts as a fill-up exactly if it spells "userfillup" anywhere, in any mix of cases |
| CanvasBatch.BatchStores | agent/component/base.py:407-461 | After a batch each output of a component is what the last of its invocations that answered it answered, last in the order the concurrent tasks took effect, and is unchanged if none did |
| CanvasBatch.BatchStoresTheAnswer | agent/component/base.py:407-461 | A component that ran once holds exactly what it answered, and its former value under every other name |
| CanvasBatch.OthersAreUntouched | agent/component/base.py:407-461 | A component that did not run keeps its outputs, error and index, unless an iteration item inside it ran |
| CanvasBatch.BatchErrs | agent/component/base.py:407-419 | After a batch a component other than an item holds an error if and only if it did before or one of its invocations failed |
| CanvasBatch.LoopItemCounts | agent/component/loopitem.py:35-46 | A loop item counts one pass below the maximum and ends at it; a failure counts nothing and leaves an error unless a default value replaces it |
| CanvasBatch.IterationItemPresents | agent/component/iterationitem.py:35-61 | An iteration item over an array presents the element at its index, from the end if that is negative, and counts on; behind the last element it ends; the exact cases in which it errs instead |
| CanvasBatch.IterationItemWithoutArray | agent/component/iterationitem.py:40-43 | Without an array it ends, with an error unless a default value replaces that |
| CanvasBatch.BatchSchedules | agent/canvas.py:603-683 | The path after a batch is the path before it followed, entry by entry, by exactly what the graph and the answers list: an error's goto; the answered successors of a Categorize or Switch; the start of a container; the downstream of a container that an item or an ExitLoop leaves; the start of the next pass; else the downstream; in order, complete, ids equal to the last entry not repeated; a loop item's index becomes -1 if and only if its stop condition held |
| CanvasBatch.AnswersAreScheduled | agent/canvas.py:608-675 | Each successor a Categorize or Switch answers, and each goto of an entry with an error, is pending after the batch or was its last entry |
| CanvasRuns.ErrorCutsBackTheBatch | agent/canvas.py:603-705 | A batch fails if and only if some entry that ran holds an error with neither goto nor default value; then the path is cut back to the start of the batch |
| CanvasRuns.CancellationChangesNothing | agent/canvas.py:459-463 | A run is canceled if and only if the flag is set when a batch starts; path, position, indexes, errors and outputs stay as they were |
| CanvasRuns.SuspensionKeepsThePending | agent/canvas.py:690-702 | A suspended path is a rearrangement of the pending entries: the fill-ups first, then the rest, each part in its scheduled order and nothing lost or added |
| CanvasRuns.ResuspendIsStable | agent/canvas.py:691-692 | Moving fill-ups to the front keeps the multiset of entries and the order within both parts |
| CanvasRuns.SuspendsExactlyOnFillUps | agent/canvas.py:685-704 | A batch that neither fails nor is canceled suspends the run if and only if a fill-up is pending |
| CanvasRuns.AcyclicRunsStop | agent/canvas.py:520-705 | If the successor relation, gotos included, is acyclic, every run stops after at most rank of its first entry plus one batches, whatever the components answer |
| CanvasContainer.ContainerRunsStop | agent/component/loopitem.py:35-46 | If the only cycle is one fresh chain-bodied container entered once and making at most n passes, every run stops within n times the height of a pass plus the first entry's rank: in every environment if the graph hides no failure of the item, else in those where the item has no failure to hide |
| CanvasTermination.LaunchedStopsExactlyUnlessHidden | agent/component/base.py:407-419 | Exactly, for whole runs: launched at the head of a straight way into such a container, a run stops in every environment that keeps to n passes if and only if the graph hides no failure of the item; otherwise one environment keeps it going for ever |
| CanvasTermination.StopsExactlyUnlessHidden | agent/component/base.py:407-419 | The same equivalence for any graph from a fresh item that waits alone, with its way in past |
| CanvasTermination.PlainContainersStop | agent/component/loopitem.py:35-46 | Termination from the graph: a launched run into a container whose item has no default value to hide a failure stops in every environment that keeps to n passes, whatever branches off its way |
| CanvasContainers.AllContainersStop | agent/canvas.py:525-688 | A run whose only cycles are any number of such containers stops within the sum over them of passes times height, plus the first entry's rank |
| CanvasContainer.PassesAreBounded | agent/component/loopitem.py:35-46 | Such a run starts at most `maximum_loop_count` passes of a Loop, or as many passes of an Iteration as its array has elements |
| CanvasEntry.OneWayMeansOnce | agent/canvas.py:655-683 | If a single file of components from the run's first entry on, each listed once and led to by the one before alone, is the only way into the container, no run schedules the container twice |
| CanvasEntry.RunsIntoContainerStop | agent/component/loopitem.py:35-46 | ContainerRunsStop with "entered once" read off the graph: a run over a single file into a fresh chain-bodied container, the graph's only cycle, stops within the same bound |
| CanvasEntry.OneWayMeansNeverAgain | agent/canvas.py:655-683 | Once its one way in has run, a container that waits is never scheduled again |
| CanvasEntry.HypothesesAreMet | agent/component/iterationitem.py:31-88 | For every array, one graph and one environment meet all hypotheses of the container, iteration and progress theorems together, and from the state in front of the Iteration the run is still going when the last element has been processed |
| CanvasContainer.TokenAlways | agent/canvas.py:655-683 | In every state of such a run at most one entry of the container is pending, the item's index stays between -1 and the number of passes, and none is pending once the item has ended |
| CanvasContainer.InvokeAllToken | agent/canvas.py:505-506 | Whatever order a batch's concurrent invocations take, the container's components see only their own token's invocation |
| CanvasContainer.RouteInside | agent/canvas.py:670-683 | Routing an entry of the container schedules the next place of the chain, the item again after the last one, or the container's downstream once the item has ended |
| CanvasIteration.ElementsInOrder | agent/component/iterationitem.py:35-61 | A fresh Iteration entered once over a fixed array presents element m with index m in pass m, at a batch count fixed by m and the length of the body, and the run does not finish before that |
| CanvasIteration.IterationLeaves | agent/component/iterationitem.py:45-85 | The run has not finished when all elements were presented; if it is still going, its next batch leaves the container for its downstream, and every referenced output of the Iteration holds exactly one entry per element, entry j being the child's value after pass j |
| CanvasIteration.IterationProceeds | agent/canvas.py:670-683 | At every batch count up to the end of the array the run has not finished, and while it goes on the token is at the place the count tells, with the results of all finished passes collected |
| CanvasIteration.OnlyDisturbancesStopIt | agent/canvas.py:603-704 | Before all elements were presented, only a cancellation, an unhandled error of a component outside the container or a pending fill-up can stop the run |
| CanvasProgress.IterationCompletes | agent/component/iterationitem.py:35-88 | Without such a disturbance nothing has to be supposed of the run: every element is presented in its turn, and then the run is at the downstream with all results collected and nothing of the container pending |
| CanvasLaunch.LaunchEnters | agent/canvas.py:525-688 | An undisturbed run launched at the head of the way enters the Iteration, fresh and with its inputs, after one batch for each component of the way, whatever branches off it |
| CanvasLaunch.LaunchedIterationCompletes | agent/component/iterationitem.py:35-88 | End to end: such a run presents every element in its turn and then is at the downstream with all results collected |
| CanvasLaunch.LaunchHypothesesAreMet | agent/component/iterationitem.py:31-88 | For every array, the run of one graph launched from an empty path meets all these hypotheses and enters its Iteration after two batches |
| CanvasResults.CollectedAnswers | agent/component/iterationitem.py:63-85 | In terms of the answers: in every collected output that refers to a component of the body, entry j is what that component answered at its path position in pass j, or what it held before if the answer did not name the output |
| CanvasResults.CollectedItems | agent/component/iterationitem.py:56-85 | A collected output that refers to the item's element is the array |
| CanvasResults.LaunchedAnswersAreCollected | agent/component/iterationitem.py:35-88 | End to end: after an undisturbed launch over a non-empty array such an output holds exactly the child's answers, one per element, at increasing positions of the path |
| CanvasResults.PositionsAreCollected | agent/component/iterationitem.py:63-85 | An instance for every non-empty array: components that answer their positions leave the positions of the child on the path as results |
| CanvasIteration.PresentItem | agent/component/iterationitem.py:35-61 | One invocation of the item collects the finished pass, then presents the element at its index and advances, or ends with index -1 |
| CanvasIteration.FreshItemStartsAtZero | agent/component/iterationitem.py:31-61 | The item starts with element 0 if and only if its index is 0; at -1 it presents the last element first |
| CanvasStalls.SecondUseRepeatsTheLast | agent/component/iterationitem.py:35-61 | The whole second use of an item left at -1: it presents the last element under index -1, then every element in order, one pass more than the array has elements, and collects every pass but that first one |
| CanvasIteration.LaunchKeepsCounters | agent/component/iterationitem.py:31-33 | Item indexes survive from one run to the next |
| CanvasStalls.EmptyBodyEndsTheRun | agent/canvas.py:655-681 | A fresh Iteration with an empty body over a non-empty array, alone on the pending path, ends the run after element 0, and nothing behind it is scheduled |
| CanvasStalls.EmptyBodyReturns | agent/canvas.py:655-681 | An item without successors that neither ended nor jumped is scheduled again if and only if another entry is last on the path |
| CanvasStalls.EmptyBodyLeavesEmptyArray | agent/canvas.py:670-673 | Over an empty array such an Iteration does go on to its downstream |
| CanvasStalls.UncountedPassesNeverStop | agent/component/base.py:407-419 | Where an item goes wrong before it counts every time and a default value hides it, a run in front of the item never stops and counts no pass |
| CanvasTermination.StuckNeverStops | agent/component/iterationitem.py:35-43 | Two graphs that meet the hypotheses and differ in their item's default value: from the launch, over an array that cannot be read, the one that has it never stops; the other stops in every environment |
| CanvasEngine.Canvas.DropUnready | agent/canvas.py:487-503 | Popping unready entries in place leaves the entries the specification keeps, in order; which ones these are is OtherRunsDropTheUnready and ResumedRunsDropNothing |
| CanvasEngine.Canvas.InvokeBatch | agent/canvas.py:505-506 | The batch's invocations take effect one after the other in the order the environment chose; what they leave is BatchStores, BatchErrs and the item lemmas of CanvasBatch |
| CanvasEngine.Canvas.Extend | agent/canvas.py:663-668 | Appends a list of ids, each under the same rule |
| CanvasEngine.Canvas.RouteEntry | agent/canvas.py:603-683 | Error handling and routing of one entry: a goto suppresses routing, a default value lets it go on, anything else fails the run; what is appended is BatchSchedules |
| CanvasEngine.Canvas.Suspend | agent/canvas.py:690-702 | The path becomes the pending fill-ups followed by the other pending entries |
| CanvasEngine.Canvas.RunOneBatch | agent/canvas.py:525-705 | One turn of the loop moves the object's state as the specified step does, through every exit |
| CanvasEngine.Canvas.Run | agent/canvas.py:520-705 | The whole loop ends in the state the specified run ends in |
| CanvasEngine.Canvas.RunAcyclic | agent/canvas.py:520-705 | Over an acyclic graph the loop terminates, with every executed entry's inputs and source on the path before it |
| CanvasEngine.Canvas.RunContainer | agent/canvas.py:520-705 | A run over a single file into such a container terminates, with every executed entry's inputs and source on the path before it; of the environment it asks the bound on passes, and of failures only where the graph hides them |
| GraderBatches.SplitItemsIntoBatches | agent/component/grader.py:429-450 | The packing loop makes the greedy batches under the smaller of the two sizes and the token room, and one empty batch for no items |
| GraderBatches.GreedySplits | agent/component/grader.py:429-450 | The batches concatenate to the items, and each keeps both limits or holds a single item |
| GraderBatches.GreedyIsOptimal | agent/component/grader.py:429-450 | No other order-preserving split under these limits has fewer batches |
| GraderBatches.GreedyIsFull | agent/component/grader.py:437-447 | Every batch but the last is full: with the next item it would break a limit |
| Grader.BuildEvaluationItems | agent/component/grader.py:419-427 | One item per paragraph of each document, in document order |
| GraderResults.ItemsInOrder | agent/component/grader.py:419-427 | The items are the paragraphs of document 0, then of document 1, and so on, each with its document's index, and nothing else |
| Grader.EveryDocumentIsSent | agent/component/grader.py:419-427 | A document whose splitter gives a paragraph is mentioned by an item |
| Grader.ParseResponse | agent/component/grader.py:540-575 | A reply counts only if it is a list with exactly as many usable entries as the batch has items; unusable entries are skipped and a partial list is a parse error; what the results say is GraderResults.ParsedExactly |
| GraderResults.ParsedExactly | agent/component/grader.py:540-591 | A reply parses if and only if it is a list with one complete entry per item; then result i is what the i-th complete entry says: the document of the item it names, its score and reason, and relevant if and only if its text is relevant, entailment, entailed, yes or true in any mix of cases |
| GraderResults.RelevantExactly | agent/component/grader.py:585-591 | Exactly those five words count as relevant; replacing blanks and hyphens adds no other text |
| Grader.LlmEvaluate | agent/component/grader.py:372-417 | Batches are called in order, parse errors are retried up to the limit, any other failure and a last parse error end the evaluation with that failure |
| GraderResults.AttemptsExactly | agent/component/grader.py:389-415 | A batch is decided by its first attempt that is readable, times out or is rejected; unreadable replies are asked for again as often as allowed, and only then are a parse error |
| GraderResults.EvaluationExactly | agent/component/grader.py:389-417 | The evaluation gives the results of all batches one after the other, each from its accepted attempt, or the failure of the first batch that has none |
| GraderResults.ClassifyExactly | agent/component/grader.py:528-538 | A rejection means a timeout, an exceeded quota or an outage by the words it mentions in any mix of cases, in this precedence, and an unknown failure without them |
| Grader.FailedBatchFailsAll | agent/component/grader.py:389-417 | Once a batch fails, the whole evaluation is that failure, whatever batches follow |
| Grader.AggregateChunkResults | agent/component/grader.py:593-629 | One grade per document, in input order, from the best result matched to its items by position |
| Grader.BestIsMaximum | agent/component/grader.py:601-613 | The merged score is the maximum of 0 and the document's scores, and the relevance is that of the first result reaching it |
| Grader.HandleFailure | agent/component/grader.py:634-681 | After a classified failure every document still gets one grade, in input order, by its rerank score or as relevant |
| GraderResults.FallbackExactly | agent/component/grader.py:634-681 | A fallback grade carries the document's rerank score, or its similarity, or 0.5; it is relevant if and only if that reaches the threshold, and always if fallback by scores is off |
| GraderResults.BackupExactly | agent/component/grader.py:319-347 | The backup model answers if and only if there is one and the primary model's quota is exceeded; its own failure is final |
| GraderResults.FailureNamesExactly | agent/component/grader.py:314-329 | The reason of a fallback grade tells the five failures apart |
| Grader.Evaluate | agent/component/grader.py:304-347 | Whatever the primary and backup models answer, each document gets one grade in order, from the model that answered or from the fallback with the failure's name |
| Grader.GradeDocuments | agent/component/grader.py:207-230 | The whole component: the batches sent contain every item once and in order, and every document gets one grade in input order, with its own content |
| Grader.EvaluatedAligned | agent/component/grader.py:389-417 | If every reply lists its batch in document order, result i judges item i's document over all batches |
| Grader.ParsedAlignedExactly | agent/component/grader.py:540-575 | The results of a reply judge the documents of its batch position by position if and only if the reply lists the batch in document order; listing it in order is enough |
| Grader.EvaluatedAlignedExactly | agent/component/grader.py:389-417 | The results of a whole evaluation are so aligned if and only if those of every batch are |
| Grader.GradesFollowTheChunks | agent/component/grader.py:593-629 | If every reply lists its batch in document order, a document's score is the maximum of 0 and the scores given to its own chunks, with the relevance of the first chunk reaching it |
| GraderResults.GradesFollowTheEntries | agent/component/grader.py:540-629 | The same from the replies: every result is an entry of an accepted reply, and a document with a positive score has the verdict and reason of the first entry about it that gives this score, so it is relevant if and only if that entry says so |
| GraderResults.UnmatchedGrade | agent/component/grader.py:615-619 | A document no result was matched to is graded not relevant with score 0 |
| Grader.OwnScoresExactlyWhenAligned | agent/component/grader.py:601-629 | For all scores and all documents the grade is the best of the document's own judgements if and only if result i judges item i's document for every i; then its relevance is theirs too |
| Grader.OutOfOrderRepliesSwapGrades | agent/component/grader.py:602-605 | An instance of the misaligned case: two results in the wrong order give the two documents each other's score and relevance |
| Raptor.Builder.LabelLayer | rag/raptor.py:186-193 | One label per chunk of the layer, the first cluster that takes it; no labelling if and only if some chunk fits none |
| Raptor.Builder.SummarizeLayer | rag/raptor.py:119-162 | The layer succeeds if and only if all its summaries do; then the new chunks are the summaries in completion order, each over its cluster's members, and no error is counted |
| Raptor.Builder.ClusterLayer | rag/raptor.py:179-212 | A layer succeeds if and only if its clustering takes every chunk, leaves no cluster empty and all its clusters are summarized; it stops for its labels if and only if the clustering does not; success puts every chunk under exactly one new summary; there are fewer summaries than the maximum and than chunks, one more than the model's pick among the counts below both |
| Raptor.Builder.Build | rag/raptor.py:112-218 | The loop terminates; if every summary succeeds and the clustering picked for each layer covers it, it ends with a tree over the usable chunks with one root, in every order of the concurrent tasks; every chunk above the base is the summary of its members; above a layer of three or more chunks there are fewer than the maximum, as many as the models pick; the root is lost if and only if they give some layer two chunks and that pair's summary fails |
| Raptor.UsableExactly | rag/raptor.py:115 | A build starts from exactly the chunks with a text and an embedding, in order |
| Raptor.SharedClustersAreCovered | rag/raptor.py:185-198 | The hypotheses of the build are met by models that share clusters, such as the labels 0, 0, 1 for three chunks in two clusters |
| Raptor.LayerAdded | rag/raptor.py:195-216 | Any completion order of a layer's summaries extends the tree: layers tile the chunk list, each chunk has exactly one parent, siblings share their label |
| Raptor.EveryChunkIsUnderTheRoot | rag/raptor.py:165-218 | In a finished tree every chunk of every layer reaches the root through one summary per layer |
| Raptor.LayersShrink | rag/raptor.py:165-218 | Each layer is smaller than the one before, so a tree over n chunks has at most n layers |
| StateText.TruncateText | agent/component/state_fields.py:270-293 | The binary search finds the longest prefix that fits and appends the suffix, cut to the free bytes if any are free |
| StateText.TruncatedKeepsLongestPrefix | agent/component/state_fields.py:280-291 | What a truncation keeps is a prefix that fits, and no longer prefix does |
| StateText.TruncatedSize | agent/component/state_fields.py:286-293 | A truncated text has exactly the allowed bytes if a character straddles the limit, and fourteen more otherwise |
| StateText.TruncateTwice | agent/component/state_fields.py:270-293 | Truncating twice under one limit is truncating once |
| StateText.TruncatedExactly | agent/component/state_fields.py:276-293 | A truncation is the text itself if it fits, else the longest prefix that fits followed by as much of "...[truncated]" as there are bytes free, all of it if there are none |
| StateText.BytesExactly | agent/component/state_fields.py:276 | Sizes add up character by character, one to four bytes each by the ranges of section 3 of RFC 3629 |
| StateClamp.ClampListLoop | agent/component/state_fields.py:299-311 | The loop over a list keeps the clamped items up to the first prefix that reaches the limit |
| StateClamp.ClampedListIsTruncatedPrefix | agent/component/state_fields.py:299-311 | A clamped list is the item-wise truncation of a prefix: all of it, or the shortest prefix whose clamped form reaches the limit |
| StateClamp.ClampedExactly | agent/component/state_fields.py:296-318 | A clamped text is its truncation; a list is cut and each element clamped to its share, at least 256 bytes, in a dictionary only the texts under the six content keys; a dictionary of n entries keeps its keys and has each value clamped to the n-th part; anything else is kept |
| StateClamp.ClampStateSize | agent/component/state_fields.py:336-361 | Clamping stops untouched, after the shortest leading run of large fields that makes the state fit, or in the final fallback, and fits on every exit but the last |
| StateClamp.OtherFieldsUnchanged | agent/component/state_fields.py:347-361 | A field outside the run clamped, and in the fallback outside the fallback lists, is unchanged |
| StateClamp.FittingFields | agent/component/state_fields.py:345-353 | Before the fallback, exactly the fields of the leading run are clamped, to their share of the limit but at least 1024 bytes |
| StateClamp.FallbackExactly | agent/component/state_fields.py:355-361 | The fallback empties the three collections, truncates the three answers to a tenth of the limit but at least 256 bytes, and keeps every other field |
| StateClamp.FieldsExactly | agent/component/state_fields.py:344-345 | Without a choice of fields the six large fields are clamped, in this order |
| StateClamp.ExitIsUnique | agent/component/state_fields.py:340-361 | The exit, and so the clamped state, is determined by the state and the limits |
| StateSchema.UpgradeState | agent/component/state_fields.py:188-227 | The loop over the schema fills in, converts or defaults every field, keeps foreign keys and sets the version |
| StateSchema.UpgradedIsTyped | agent/component/state_fields.py:188-227 | An upgraded state has every field of the schema with its type |
| StateSchema.UpgradeTwice | agent/component/state_fields.py:188-227 | A state is left alone by an upgrade if and only if it is fully typed, and upgrading is idempotent |
| StateSchema.UpgradedExactly | agent/component/state_fields.py:200-227 | What an upgrade makes of every key: typed values stay, None becomes an empty list, other values their conversion, and the default only if that raises or the field is missing; the version is set and foreign keys stay |
| StateSchema.Canvas.UpgradeGlobals | agent/component/state_fields.py:230-249 | Upgrading the globals writes the schema's prefixed keys and no other key |
| StateSchema.UpgradeGlobalsTwice | agent/component/state_fields.py:230-249 | Upgrading the globals twice is upgrading them once |
| StateSchema.UpgradedGlobalsExactly | agent/component/state_fields.py:236-249 | Each field is looked up under its prefixed name first, then under its own, and what the upgrade makes of that is written under the prefixed name |
| StateSchema.Canvas.ApplyState | agent/component/state_fields.py:181-185 | Applying a snapshot writes the schema's prefixed keys, missing fields as their defaults, and no other key |
| StateSchema.Canvas.ExtractState | agent/component/state_fields.py:172-178 | Extracting reads every field of the schema from its prefixed key, or its default |
| StateSchema.ExtractedExactly | agent/component/state_fields.py:172-178 | Every extracted field is that of its prefixed key or its default, and the version the stored one unless it is missing or falsy |
| StateSchema.AppliedExactly | agent/component/state_fields.py:181-185 | Every prefixed key holds the snapshot's value, or the default if the snapshot lacks it |
| StateSchema.ApplyThenExtract | agent/component/state_fields.py:172-185 | Applying a snapshot to any canvas and extracting gives the snapshot back, with defaults filled in, if and only if its version is truthy; its fields come back in any case |
| StateSchema.UpgradedSnapshotSurvives | agent/component/state_fields.py:172-227 | An upgraded snapshot comes back from any canvas unchanged on the schema's fields and version |
| StateSchema.StandardIsWellFormed | agent/component/state_fields.py:51-111 | The standard schema is one: every default has its field's type and the version is no field |
| Hallucination.VerifyClaims | agent/component/hallucination_detector.py:457-507 | The loop gives each claim its three verdicts and score: contradicted and settled claims skip the model, model failures fall back by the rule |
| Hallucination.VerifiedExactly | agent/component/hallucination_detector.py:457-534 | The verdicts of a claim by rule and reply, and its score: 0 if contradicted, 1 if settled, else the rule weight if supported plus the inference weight, half of it if neutral, plus the model weight, three tenths of it without support |
| Hallucination.MeanOverCharacters | agent/component/hallucination_detector.py:536-549 | The score of an answer is the mean of the claims' scores over all their characters, an empty text counting as one, capped at 0.5 exactly if the rules contradict a claim, and 1 without claims |
| Hallucination.FaithfulnessInRange | agent/component/hallucination_detector.py:521-549 | With weights that are not negative and sum to 1 the score stays in [0, 1], and at most 0.5 once the rules contradict a claim |
| Hallucination.ScoreMonotonic | agent/component/hallucination_detector.py:521-534 | Improving any of the three verdicts never lowers a claim's score |
| Hallucination.BetterVerdictsAreNeverStricter | agent/component/hallucination_detector.py:457-702 | Improving any verdict of any claims, texts fixed, never makes the action stricter, across the skipping of the model and the cap |
| Hallucination.FailsClosedExactly | agent/component/hallucination_detector.py:545-549 | One rule-contradicted claim always forces regenerate or refuse if and only if the pass and filter thresholds both exceed 0.5 |
| Hallucination.DetectExactly | agent/component/hallucination_detector.py:660-702 | The action by the score's place among the three thresholds, and the answer it leaves: the original, exactly the claims that pass by themselves in order, all claims, or a refusal |
| Hallucination.FilteredClaimsAreRuleSupported | agent/component/hallucination_detector.py:684-691 | If the rule weight exceeds 1 minus the pass threshold, a filtered answer lists only claims the rules support |
| MessageStream.Message.Stream | agent/component/message.py:111-158 | The streaming generator, with its per-reference cache, hands out the pieces, records the inputs and stores the content of a run without a cache, under any cancellation; the content is stored only by a run that ends by itself |
| MessageStream.Message.StreamChunks | agent/component/message.py:130-151 | The chunks of a lazy value are handed out one by one, with a cancellation check before each |
| MessageStream.StreamShowsTheText | agent/component/message.py:111-158 | The content gathered is always the concatenation of the pieces, a completed run shows the template with every reference replaced, and a run fails only on a reference that does not resolve |
| MessageStream.EachValueShows | agent/component/message.py:127-158 | What a reader sees, and what is recorded as input, for each kind of value: nothing, the text, the joined chunks, the awaited text, the JSON form or else the printed form |
| MessageStream.CancellationOnlyCuts | agent/component/message.py:116-117 | A canceled run hands out a prefix of the pieces of the run that is never canceled, which completes if and only if all references resolve |
| MessageStream.CanceledByTheFirstYes | agent/component/message.py:116-158 | A run asks the cancellation flag before every literal, every chunk and the tail; it is canceled exactly by the first yes, and a completed run has asked that often |
| MessageStream.GetValueWithVariable | agent/canvas.py:175-200 | One-shot substitution gives the same text if and only if every reference resolves to a value it can show: no awaitable, no asynchronous stream, a JSON form for other values |
| SheetNames.SheetTitleIsUsable | agent/component/message.py:335-341 | The name asked for a table has no forbidden character, fits the limit exactly if it is a title or its number has at most 25 digits, and is the title when that is legal and fits |
| SheetNames.SheetTitleExactly | agent/component/message.py:335-341 | The name asked for is the first 31 characters of the title with slashes as underscores and the five other forbidden characters removed, or "Table_" and the table's number |
| SheetNames.CandidatesDiffer | agent/component/message.py:381-384 | Different counters give different candidates |
| SheetNames.CandidateFits | agent/component/message.py:381-384 | A candidate fits 31 characters if and only if its counter is below ten to the thirty, and is legal when the name is |
| SheetNames.CandidateExactly | agent/component/message.py:381-384 | A candidate is as much of the name as fits 31 characters before an underscore and digits that read as the counter |
| SheetNames.RoundsAreBounded | agent/component/message.py:381-384 | By the pigeonhole principle no more candidates are refused than there are used names |
| SheetNames.Unique | agent/component/message.py:379-385 | The loop terminates with the name itself if it is free, or else the first free candidate |
| SheetNames.OneRoundTooMany | agent/component/message.py:379-385 | For every name that is its own candidate some set of used names takes one round more than it has names |
| SheetNames.OwnCandidateExists | agent/component/message.py:381-384 | There are such names, of 31 characters and ending in `_1` |
| SheetNames.NameSheets | agent/component/message.py:376-386 | Each sheet's name is assigned against the names before it |
| SheetNames.NamesAreUsable | agent/component/message.py:376-386 | For any number of tables the names are pairwise different; titles not taken before are kept, legality is kept, and lengths stay within 31 below ten to the thirty tables |
| StringTransform.Split | agent/component/string_transform.py:86-91 | The loop over the alternating list keeps the texts between matches and drops the delimiters |
| StringTransform.PartsRebuild | agent/component/string_transform.py:86-91 | With any number of delimiters, the pieces interleaved with the matched delimiters rebuild the text |
| StringTransform.PiecesAreFree | agent/component/string_transform.py:86-91 | No piece contains any of the delimiters |
| StringTransform.SplitThenJoin | agent/component/string_transform.py:86-91 | Splitting by one delimiter and joining with it gives the text back, from pieces free of it |
| StringTransform.JoinThenSplit | agent/component/message.py:84-85 | Joining pieces and splitting again gives the pieces back if and only if the delimiter does not occur before the end of any piece followed by it, nor in the last piece |
| Retry.DecisionMeaning | agent/component/retry_controller.py:209-267 | When exactly a retry and when the web fallback is signalled, and for which of six reasons; never both, and a retrieval in need of a retry gets one of them |
| Retry.Canvas.Control | agent/component/retry_controller.py:131-173 | The controller's effect on the shared state: a retry adds one to the count and one entry, with the query, the strategy found there or "unknown" and the result count, to the history; anything else adds neither; the flags follow the decision and the rest is kept |
| Retry.Canvas.Rewrite | agent/component/query_rewriter.py:203-225 | The rewriter's effect: the strategy at the current count, the synonym rewrite if it is that strategy and else the query itself, the count and history unchanged; nothing if canceled |
| Retry.StrategyExactly | agent/component/query_rewriter.py:77-99 | The strategy by complexity: one fixed strategy each, and for a complex query the three in turn by the count's remainder, also if it is negative |
| Retry.TurnsPublishTheirText | agent/component/query_rewriter.py:207-225 | After every turn of every run the shared state holds the turn's complexity and the text its strategy gives: the synonym rewrite, else the query itself |
| Retry.CycleInvariant | agent/component/retry_controller.py:131-173 | At every point of every run the count has grown by the retries made, the history by one matching entry for each, retries stay within the limit less the starting count, and retry and web fallback are never signalled together |
| Retry.HistoryNamesTheStrategy | agent/component/retry_controller.py:146-151 | The history names the strategies used if and only if each of them is the one the shared state happens to hold; over a state that holds none every entry says "unknown", and a history with two different strategies is never named correctly |
| Retry.CycleStops | agent/component/retry_controller.py:253-257 | The cycle stops by itself at the latest one turn after the room for retries is used up |
| Retry.CycleUsesTheRoom | agent/component/retry_controller.py:245-267 | If every retrieval needs a retry and the tokens last, the cycle goes on exactly as long as there is room |
| Retry.WindowIsARotation | agent/component/query_rewriter.py:295-299 | The strategies at as many consecutive counts as the list is long are the list rotated, so each is used as often as it is listed, for negative counts too |
| Retry.RunRotates | agent/component/query_rewriter.py:207-225 | A run whose query keeps its complexity goes through that complexity's strategies in rotation |

## Left out

- Language models, text-to-speech, Redis, storage, metrics, logging, timing, the events sent to the client and the persistence of checkpoints: their answers are arbitrary inputs and their effects on other systems are not modelled.
- Regular expressions, tokenizers, JSON repair, UMAP, Gaussian mixtures and the jinja engine: a template is already split into literals and references, token counts are natural numbers, a cluster label lies in range.
- Rounding of floating-point numbers and NaN scores: scores and weights are reals.
- Ids that name no component crash the original; lookups of the model are total, and the known-path invariant shows such ids never get on a path.
- A Categorize or Switch whose `_next` output is missing crashes the original; the model takes any list of declared routes.
- The inputs of a run, webhook and file fields, and the invocation of the pending fill-ups when a run is suspended.
- The condition operators of `evaluate_condition`: a Loop's stop condition answers arbitrarily.
- CanvasContainer.ContainerRunsStop: covers one chain-bodied container entered once, with an item no run has used yet; nested containers and bodies that branch are not covered. AllContainersStop covers several containers side by side or one after the other.
- CanvasIteration.IterationLeaves: supposes that nothing inside the container fails or is canceled and that no other component writes the Iteration's outputs.
- CanvasIteration.ElementsInOrder: supposes the same as IterationLeaves.
- CanvasProgress.IterationCompletes: supposes a graph without fill-ups; with fill-ups, OnlyDisturbancesStopIt says when one stops the run.
- CanvasEngine.Canvas.Run: takes the number of batches after which the run stops as a ghost argument; it exists by AcyclicRunsStop or RunsIntoContainerStop, and other cyclic graphs may run forever.
- Raptor.Builder.SummarizeLayer: summaries that fail after the error limit was reached are not counted further.
- The semantic paragraph splitter and its token bounds: only the list it returns is used.
- StateText.TruncateText: texts with lone surrogates, which have no strict UTF-8 form.
- StateSchema.UpgradeState: the built-in conversions are a function that yields a value of the type asked for or raises.
- Hallucination.VerifyClaims: the decomposition of an answer into claims and the rule checker; claims come with the rule's finding and the model's reply.
- MessageStream.Message.Stream: an awaitable that gives something other than a text; a lazy value gives the same chunks whenever it is read.
- The jinja path of Message and the substitution inside templates by `get_kwargs`, except its joining of lists.
- StringTransform.Split: empty delimiters, which match everywhere.
- Writing the workbook and every other output format; names that differ only in case.
- Retry.Canvas.Rewrite: how a query's complexity is analysed and how synonyms are found.
- `set_variable_param_value` in agent/canvas.py, `delta` in agent/component/llm.py and `meta_filter` in common/metadata_utils.py are not modelled.
