/** The cycle of rewriting a query, retrieving and deciding whether to try again. */
module Retry {
  import opened Prelude

  // ---------------------------------------------------------------- the decision

  /** What a retrieval left for the controller to judge. */
  datatype Retrieval = Retrieval(hasRelevant: bool, relevantCount: int, tokens: int, isChitchat: bool,
                                 webFallbackTriggered: bool)

  datatype Limits = Limits(maxRetries: nat, maxTokens: nat, minDocs: nat)

  datatype Reason = AlreadyTriggered | Chitchat | Sufficient | MaxRetries | MaxTokens | BelowThreshold

  datatype Decision = Decision(shouldRetry: bool, exceeded: bool, fallback: bool, reason: Reason)

  function Decide(o: Retrieval, retryCount: int, lim: Limits): Decision {
    if o.webFallbackTriggered then Decision(false, false, false, AlreadyTriggered)
    else if o.isChitchat then Decision(false, false, false, Chitchat)
    else if !(!o.hasRelevant || o.relevantCount < lim.minDocs) then Decision(false, false, false, Sufficient)
    else if retryCount >= lim.maxRetries then Decision(false, true, true, MaxRetries)
    else if o.tokens >= lim.maxTokens then Decision(false, true, true, MaxTokens)
    else Decision(true, false, false, BelowThreshold)
  }

  predicate NeedsRetry(o: Retrieval, lim: Limits) {
    !o.webFallbackTriggered && !o.isChitchat && (o.hasRelevant ==> o.relevantCount < lim.minDocs)
  }

  // ---------------------------------------------------------------- strategies

  datatype Strategy = SynonymRewrite | SubQueryDecompose | Hyde

  datatype Complexity = Simple | Boolean | MultiAspect | Factual | Complex

  function Strategies(c: Complexity): (r: seq<Strategy>) {
    match c
    case Simple => [SynonymRewrite]
    case Boolean => [SynonymRewrite]
    case MultiAspect => [SubQueryDecompose]
    case Factual => [Hyde]
    case Complex => [SynonymRewrite, SubQueryDecompose, Hyde]
  }

  /** The count may be negative: the remainder still lies within the list. */
  function SelectStrategy(strategies: seq<Strategy>, retryCount: int): Strategy {
    if strategies == [] then SynonymRewrite else strategies[retryCount % |strategies|]
  }

  // ---------------------------------------------------------------- the shared state

  datatype Entry = Entry(query: string, strategy: string, resultCount: int)

  datatype Shared = Shared(query: string, selectedStrategy: string, retryCount: int, history: seq<Entry>,
                           shouldRetry: bool, exceeded: bool, fallback: bool,
                           complexity: Complexity, rewritten: string)

  /** What the rewriter makes of the query: its complexity, and the text a synonym rewrite gives. */
  datatype Analysis = Analysis(complexity: Complexity, synonyms: string)

  function Rewritten(s: Shared, a: Analysis): Shared {
    s.(complexity := a.complexity,
       rewritten := if SelectStrategy(Strategies(a.complexity), s.retryCount) == SynonymRewrite then a.synonyms else s.query)
  }

  /** The history names the strategy found in the shared state, which the rewriter does not write. */
  function NewEntry(s: Shared, o: Retrieval): Entry {
    Entry(s.query, if s.selectedStrategy == "" then "unknown" else s.selectedStrategy, o.relevantCount)
  }

  function Controlled(s: Shared, o: Retrieval, lim: Limits): Shared {
    var d := Decide(o, s.retryCount, lim);
    var t := if d.shouldRetry then s.(retryCount := s.retryCount + 1, history := s.history + [NewEntry(s, o)]) else s;
    t.(shouldRetry := d.shouldRetry, exceeded := d.exceeded, fallback := d.fallback)
  }

  /** The canvas globals both components work on. */
  class Canvas {
    var query: string
    var selectedStrategy: string
    var retryCount: int
    var history: seq<Entry>
    var shouldRetry: bool
    var exceeded: bool
    var fallback: bool
    var complexity: Complexity
    var rewritten: string

    function State(): Shared
      reads this
    {
      Shared(query, selectedStrategy, retryCount, history, shouldRetry, exceeded, fallback, complexity, rewritten)
    }

    constructor (s: Shared)
      ensures State() == s
    {
      query, selectedStrategy, retryCount, history := s.query, s.selectedStrategy, s.retryCount, s.history;
      shouldRetry, exceeded, fallback := s.shouldRetry, s.exceeded, s.fallback;
      complexity, rewritten := s.complexity, s.rewritten;
    }

    /** The query rewriter. */
    method Rewrite(canceled: bool, a: Analysis) returns (selected: Option<Strategy>)
      modifies this
      ensures canceled ==> selected == None && State() == old(State())
      ensures !canceled ==> selected == Some(SelectStrategy(Strategies(a.complexity), old(retryCount)))
      ensures retryCount == old(retryCount) && history == old(history)
      ensures !canceled ==> complexity == a.complexity
      ensures !canceled ==> rewritten == if selected == Some(SynonymRewrite) then a.synonyms else old(query)
      ensures !canceled ==> State() == Rewritten(old(State()), a)
    {
      if canceled {
        return None;
      }
      var strategies := Strategies(a.complexity);
      var strategy := SelectStrategy(strategies, retryCount);
      var text := query;
      if strategy == SynonymRewrite {
        text := a.synonyms;
      }
      complexity := a.complexity;
      rewritten := text;
      selected := Some(strategy);
    }

    /** The retry controller. */
    method Control(o: Retrieval, lim: Limits) returns (d: Decision)
      modifies this
      ensures d == Decide(o, old(retryCount), lim)
      ensures retryCount == old(retryCount) + (if d.shouldRetry then 1 else 0)
      ensures |history| - |old(history)| == retryCount - old(retryCount) && old(history) <= history
      ensures d.shouldRetry ==> history[|old(history)|].resultCount == o.relevantCount && retryCount <= lim.maxRetries
      ensures d.shouldRetry ==>
                history[|old(history)|].query == old(query) &&
                history[|old(history)|].strategy == (if old(selectedStrategy) == "" then "unknown" else old(selectedStrategy))
      ensures query == old(query) && selectedStrategy == old(selectedStrategy)
      ensures complexity == old(complexity) && rewritten == old(rewritten)
      ensures shouldRetry == d.shouldRetry && exceeded == d.exceeded && fallback == d.fallback
      ensures State() == Controlled(old(State()), o, lim)
    {
      d := Decide(o, retryCount, lim);
      if d.shouldRetry {
        history := history + [NewEntry(State(), o)];
        retryCount := retryCount + 1;
      }
      shouldRetry, exceeded, fallback := d.shouldRetry, d.exceeded, d.fallback;
    }
  }

  // ---------------------------------------------------------------- the cycle

  datatype Turn = Turn(analysis: Analysis, outcome: Retrieval)

  /** `going` says that the last decision was to retry; `chosen` lists the strategies used so far. */
  datatype Progress = Progress(state: Shared, chosen: seq<Strategy>, going: bool)

  function OneTurn(p: Progress, t: Turn, lim: Limits): Progress {
    if !p.going then p else
    var selected := SelectStrategy(Strategies(t.analysis.complexity), p.state.retryCount);
    var s := Controlled(Rewritten(p.state, t.analysis), t.outcome, lim);
    Progress(s, p.chosen + [selected], s.shouldRetry)
  }

  /** The cycle after `k` turns, for any sequence of outcomes. */
  function After(s: Shared, turns: nat -> Turn, lim: Limits, k: nat): Progress {
    if k == 0 then Progress(s, [], true) else OneTurn(After(s, turns, lim, k - 1), turns(k - 1), lim)
  }

  /** How many retries the limit leaves. */
  function Room(s: Shared, lim: Limits): nat {
    if s.retryCount < lim.maxRetries then lim.maxRetries - s.retryCount else 0
  }

  /** Exactly when a retry is signalled and when the web fallback is; never both, and a retrieval that
      needs a retry always gets one of them. */
  lemma DecisionMeaning(o: Retrieval, retryCount: int, lim: Limits)
    ensures var d := Decide(o, retryCount, lim);
            (d.shouldRetry <==> NeedsRetry(o, lim) && retryCount < lim.maxRetries && o.tokens < lim.maxTokens) &&
            (d.fallback <==> NeedsRetry(o, lim) && (retryCount >= lim.maxRetries || o.tokens >= lim.maxTokens)) &&
            (d.exceeded <==> d.fallback) && !(d.shouldRetry && d.fallback)
    ensures ReasonIs(o, retryCount, lim, Decide(o, retryCount, lim).reason)
  {
  }

  /** The reason given: the first of the six that applies. */
  predicate ReasonIs(o: Retrieval, retryCount: int, lim: Limits, r: Reason) {
    && (r.AlreadyTriggered? <==> o.webFallbackTriggered)
    && (r.Chitchat? <==> !o.webFallbackTriggered && o.isChitchat)
    && (r.Sufficient? <==> !o.webFallbackTriggered && !o.isChitchat && !NeedsRetry(o, lim))
    && (r.MaxRetries? <==> NeedsRetry(o, lim) && retryCount >= lim.maxRetries)
    && (r.MaxTokens? <==> NeedsRetry(o, lim) && retryCount < lim.maxRetries && o.tokens >= lim.maxTokens)
    && (r.BelowThreshold? <==> NeedsRetry(o, lim) && retryCount < lim.maxRetries && o.tokens < lim.maxTokens)
  }

  /** The strategy by complexity; a complex query goes through all three, by the count's remainder, also if it is negative. */
  lemma StrategyExactly(c: Complexity, retryCount: int) returns (rounds: int, place: int)
    ensures retryCount == 3 * rounds + place && 0 <= place < 3
    ensures var s := SelectStrategy(Strategies(c), retryCount);
            && (c.Simple? || c.Boolean? ==> s.SynonymRewrite?) && (c.MultiAspect? ==> s.SubQueryDecompose?) && (c.Factual? ==> s.Hyde?)
            && (c.Complex? ==> (s.SynonymRewrite? <==> place == 0) && (s.SubQueryDecompose? <==> place == 1) && (s.Hyde? <==> place == 2))
  {
    rounds, place := retryCount / 3, retryCount % 3;
  }

  /** The shared state holds the complexity and the text of the last turn. */
  predicate Published(p: Progress, query: string, turns: nat -> Turn) {
    p.chosen != [] ==>
      var a, last := turns(|p.chosen| - 1).analysis, p.chosen[|p.chosen| - 1];
      p.state.complexity == a.complexity && p.state.rewritten == if last.SynonymRewrite? then a.synonyms else query
  }

  lemma TurnPublishes(p: Progress, turns: nat -> Turn, lim: Limits)
    requires p.going
    ensures Published(OneTurn(p, turns(|p.chosen|), lim), p.state.query, turns)
  {
    hide SelectStrategy, Strategies, Decide, NewEntry;
  }

  /** After every turn the shared state holds the turn's complexity, and the text its strategy gives: the synonym
      rewrite, or the query itself. */
  lemma {:induction false} TurnsPublishTheirText(s: Shared, turns: nat -> Turn, lim: Limits, k: nat)
    ensures Published(After(s, turns, lim, k), s.query, turns)
  {
    hide OneTurn, Published, Consistent;
    if k == 0 {
      NothingPublished(s, s.query, turns);
    } else {
      TurnsPublishTheirText(s, turns, lim, k - 1);
      CycleInvariant(s, turns, lim, k - 1);
      var p := After(s, turns, lim, k - 1);
      QueryStays(p, s, turns, lim);
      if p.going {
        TurnPublishes(p, turns, lim);
      } else {
        StoppedTurn(p, turns(k - 1), lim);
      }
    }
  }

  lemma NothingPublished(s: Shared, query: string, turns: nat -> Turn)
    ensures Published(Progress(s, [], true), query, turns)
  {
  }

  lemma QueryStays(p: Progress, s: Shared, turns: nat -> Turn, lim: Limits)
    requires Consistent(p, s, turns, lim)
    ensures p.state.query == s.query
  {
  }

  lemma StoppedTurn(p: Progress, t: Turn, lim: Limits)
    requires !p.going
    ensures OneTurn(p, t, lim) == p
  {
  }

  /** The retries of a run are the turns it made, less the last one if it has stopped. */
  function Retries(p: Progress): nat {
    if p.going || p.chosen == [] then |p.chosen| else |p.chosen| - 1
  }

  /** What every reachable point of the cycle satisfies. */
  ghost predicate Consistent(p: Progress, s: Shared, turns: nat -> Turn, lim: Limits) {
    && p.state.query == s.query && p.state.selectedStrategy == s.selectedStrategy
    && p.state.retryCount == s.retryCount + Retries(p)
    && Retries(p) <= Room(s, lim)
    && |p.state.history| == |s.history| + Retries(p)
    && p.state.history[..|s.history|] == s.history
    && (forall j :: 0 <= j < Retries(p) ==> p.state.history[|s.history| + j] == NewEntry(s, turns(j).outcome))
    && (forall j :: 0 <= j < |p.chosen| ==>
          p.chosen[j] == SelectStrategy(Strategies(turns(j).analysis.complexity), s.retryCount + j))
    && (p.chosen != [] ==> p.state.shouldRetry == p.going && !(p.state.shouldRetry && p.state.fallback))
  }

  lemma OneMoreTurn(p: Progress, s: Shared, turns: nat -> Turn, lim: Limits)
    requires Consistent(p, s, turns, lim) && p.going
    ensures Consistent(OneTurn(p, turns(|p.chosen|), lim), s, turns, lim)
  {
    hide SelectStrategy, Strategies, Decide, NeedsRetry;
    var t := turns(|p.chosen|);
    DecisionMeaning(t.outcome, p.state.retryCount, lim);
    var q := OneTurn(p, t, lim);
    var h, more := p.state.history, q.state.history;
    assert h <= more && |h| >= |s.history|;
    assert more[..|s.history|] == h[..|s.history|];
    assert forall j :: 0 <= j < |p.chosen| ==> q.chosen[j] == p.chosen[j];
    assert forall i :: 0 <= i < |h| ==> more[i] == h[i];
  }

  /** Main result: at every point of every run the count has grown by the retries made, the history has
      grown by one entry for each, in order, the retries stay within the room left, each turn used the
      strategy at its count, and a retry is never signalled together with the web fallback. */
  lemma {:induction false} CycleInvariant(s: Shared, turns: nat -> Turn, lim: Limits, k: nat)
    ensures var p := After(s, turns, lim, k);
            Consistent(p, s, turns, lim) && |p.chosen| <= k && (p.going ==> |p.chosen| == k)
  {
    if k > 0 {
      hide Consistent, Controlled, Rewritten, SelectStrategy;
      CycleInvariant(s, turns, lim, k - 1);
      var p := After(s, turns, lim, k - 1);
      if p.going {
        OneMoreTurn(p, s, turns, lim);
      }
    } else {
      assert s.history[..|s.history|] == s.history;
    }
  }

  /** Main result: the cycle stops by itself, one turn after the room is used up at the latest. */
  lemma CycleStops(s: Shared, turns: nat -> Turn, lim: Limits, k: nat)
    requires k > Room(s, lim)
    ensures !After(s, turns, lim, k).going
  {
    hide After;
    CycleInvariant(s, turns, lim, k);
  }

  predicate WouldRetry(o: Retrieval, lim: Limits) {
    NeedsRetry(o, lim) && o.tokens < lim.maxTokens
  }

  lemma TurnGoesOn(p: Progress, t: Turn, lim: Limits)
    requires WouldRetry(t.outcome, lim)
    ensures OneTurn(p, t, lim).going <==> p.going && p.state.retryCount < lim.maxRetries
  {
    hide SelectStrategy, Strategies, Decide, NeedsRetry;
    DecisionMeaning(t.outcome, p.state.retryCount, lim);
  }

  /** It takes all that room when every retrieval needs a retry and the tokens last. */
  lemma {:induction false} CycleUsesTheRoom(s: Shared, turns: nat -> Turn, lim: Limits, k: nat)
    requires forall j: nat :: WouldRetry(turns(j).outcome, lim)
    ensures After(s, turns, lim, k).going <==> k <= Room(s, lim)
  {
    if k > 0 {
      hide OneTurn, WouldRetry, Consistent;
      CycleUsesTheRoom(s, turns, lim, k - 1);
      assert WouldRetry(turns(k - 1).outcome, lim);
      TurnGoesOn(After(s, turns, lim, k - 1), turns(k - 1), lim);
      CountGrows(s, turns, lim, k - 1);
    }
  }

  lemma CountGrows(s: Shared, turns: nat -> Turn, lim: Limits, k: nat)
    ensures After(s, turns, lim, k).going ==> After(s, turns, lim, k).state.retryCount == s.retryCount + k
  {
    hide After;
    CycleInvariant(s, turns, lim, k);
  }

  // ---------------------------------------------------------------- what the history calls a strategy

  function Name(x: Strategy): (r: string)
    ensures r != "" && r != "unknown"
  {
    match x case SynonymRewrite => "synonym_rewrite" case SubQueryDecompose => "sub_query_decompose" case Hyde => "hyde"
  }

  lemma NamesDiffer()
    ensures forall x: Strategy, y: Strategy :: Name(x) == Name(y) ==> x == y
  {
    assert Name(SynonymRewrite)[1] == 'y' && Name(SubQueryDecompose)[1] == 'u' && Name(Hyde)[0] == 'h';
  }

  /** The strategy of turn `j`, as its complexity and its count give it. */
  function StrategyAt(s: Shared, turns: nat -> Turn, j: nat): Strategy {
    SelectStrategy(Strategies(turns(j).analysis.complexity), s.retryCount + j)
  }

  /** The history names the strategies that were used exactly when each of them happens to be the one the
      shared state holds; over a state that holds none, every entry says "unknown", and a run that used two
      different strategies is never named correctly. */
  lemma HistoryNamesTheStrategy(s: Shared, turns: nat -> Turn, lim: Limits, k: nat)
    ensures var p := After(s, turns, lim, k); var n := Retries(p);
            && |p.chosen| >= n && |p.state.history| == |s.history| + n
            && ((forall j :: 0 <= j < n ==> p.state.history[|s.history| + j].strategy == Name(p.chosen[j])) <==>
                (forall j: nat :: j < n ==> Name(StrategyAt(s, turns, j)) == s.selectedStrategy))
            && (s.selectedStrategy == "" ==>
                  forall i :: |s.history| <= i < |p.state.history| ==> p.state.history[i].strategy == "unknown")
            && (forall i, j :: 0 <= i < j < n && p.chosen[i] != p.chosen[j] ==>
                  p.state.history[|s.history| + i].strategy != Name(p.chosen[i]) ||
                  p.state.history[|s.history| + j].strategy != Name(p.chosen[j]))
  {
    hide After, SelectStrategy, Strategies, Name;
    CycleInvariant(s, turns, lim, k);
    NamesDiffer();
    var p := After(s, turns, lim, k);
    var n := Retries(p);
    forall j: nat | j < n
      ensures p.state.history[|s.history| + j].strategy == Name(p.chosen[j]) <==> Name(StrategyAt(s, turns, j)) == s.selectedStrategy
    {
      assert p.chosen[j] == StrategyAt(s, turns, j);
      assert p.state.history[|s.history| + j] == NewEntry(s, turns(j).outcome);
    }
    assert forall j: nat :: j < n ==> p.chosen[j] == StrategyAt(s, turns, j);
    forall i | |s.history| <= i < |p.state.history|
      ensures p.state.history[i] == NewEntry(s, turns(i - |s.history|).outcome)
    {
      assert p.state.history[|s.history| + (i - |s.history|)] == NewEntry(s, turns(i - |s.history|).outcome);
    }
  }

  // ---------------------------------------------------------------- rotation

  lemma Grows(n: int, d: int)
    requires n > 0
    ensures d >= 1 ==> n * d >= n
    ensures d <= -1 ==> n * d <= -n
  {
  }

  lemma RemainderIs(x: int, n: int, q: int, r: int)
    requires n > 0 && x == n * q + r && 0 <= r < n
    ensures x % n == r
  {
    var d := q - x / n;
    assert n * d == n * q - n * (x / n);
    Grows(n, d);
  }

  lemma WrapsAround(c: int, n: int, j: int)
    requires 0 <= j < n
    ensures (c + j) % n == if c % n + j < n then c % n + j else c % n + j - n
  {
    var r := c % n;
    if r + j < n {
      RemainderIs(c + j, n, c / n, r + j);
    } else {
      assert n * (c / n + 1) == n * (c / n) + n;
      RemainderIs(c + j, n, c / n + 1, r + j - n);
    }
  }

  /** The strategies at `|strategies|` counts in a row, from `c` on. */
  function Window(strategies: seq<Strategy>, c: int): seq<Strategy> {
    seq(|strategies|, j => SelectStrategy(strategies, c + j))
  }

  /** Main result: a window as long as the list is the list, rotated, so it uses each strategy as often
      as the list holds it. */
  lemma WindowIsARotation(strategies: seq<Strategy>, c: int)
    requires strategies != []
    ensures var r := c % |strategies|;
            Window(strategies, c) == strategies[r..] + strategies[..r]
    ensures multiset(Window(strategies, c)) == multiset(strategies)
  {
    var n := |strategies|;
    var r := c % n;
    var rotated := strategies[r..] + strategies[..r];
    forall j | 0 <= j < n
      ensures Window(strategies, c)[j] == rotated[j]
    {
      WrapsAround(c, n, j);
    }
    assert Window(strategies, c) == rotated;
    RotationKeepsCounts(strategies, r);
  }

  lemma RotationKeepsCounts(s: seq<Strategy>, r: nat)
    requires r <= |s|
    ensures multiset(s[r..] + s[..r]) == multiset(s)
  {
    assert s == s[..r] + s[r..];
  }

  /** A run whose query keeps one complexity goes through that complexity's list in rotation. */
  lemma RunRotates(s: Shared, turns: nat -> Turn, lim: Limits, k: nat, c: Complexity, w: nat)
    requires forall j: nat :: turns(j).analysis.complexity == c
    requires w + |Strategies(c)| <= |After(s, turns, lim, k).chosen|
    ensures After(s, turns, lim, k).chosen[w..w + |Strategies(c)|] == Window(Strategies(c), s.retryCount + w)
    ensures multiset(After(s, turns, lim, k).chosen[w..w + |Strategies(c)|]) == multiset(Strategies(c))
  {
    hide After, SelectStrategy, Strategies;
    CycleInvariant(s, turns, lim, k);
    var p := After(s, turns, lim, k);
    ChosenIsAWindow(p, s, turns, lim, c, w);
    EveryComplexityHasAStrategy(c);
    WindowIsARotation(Strategies(c), s.retryCount + w);
  }

  lemma EveryComplexityHasAStrategy(c: Complexity)
    ensures Strategies(c) != []
  {
  }

  lemma ChosenIsAWindow(p: Progress, s: Shared, turns: nat -> Turn, lim: Limits, c: Complexity, w: nat)
    requires Consistent(p, s, turns, lim) && forall j: nat :: turns(j).analysis.complexity == c
    requires w + |Strategies(c)| <= |p.chosen|
    ensures p.chosen[w..w + |Strategies(c)|] == Window(Strategies(c), s.retryCount + w)
  {
    hide SelectStrategy, Strategies;
    var n := |Strategies(c)|;
    var window := Window(Strategies(c), s.retryCount + w);
    forall j | 0 <= j < n
      ensures p.chosen[w..w + n][j] == window[j]
    {
      assert p.chosen[w..w + n][j] == p.chosen[w + j];
      assert s.retryCount + (w + j) == s.retryCount + w + j;
    }
  }
}
