/**
 The hallucination detector: each claim gets a rule, an NLI and an LLM verdict, verdicts become
 weighted scores, scores a length-weighted mean, and the mean one of four actions.
 */
module Hallucination {
  import opened Prelude

  datatype Support = Supported | NotSupported | Contradicted
  datatype Nli = Entailment | Neutral | Contradiction

  /** What the model said about a claim; a verdict it does not give is None. `Unavailable`: no
      model, or the call failed. `Raises`: anything else went wrong. */
  datatype Reply = Unavailable | Answered(nli: Option<Nli>, llm: Option<Support>) | Raises

  datatype Params = Params(
    ruleWeight: real, nliWeight: real, llmWeight: real,
    pass: real, filter: real, regenerate: real,
    askModel: bool, skipWhenSupported: bool, enableRegeneration: bool)

  /** A claim's text, the rule checker's findings and the model's reply. */
  datatype Finding = Finding(text: string, rule: Support, hasEntities: bool, reply: Reply)

  datatype Claim = Claim(text: string, rule: Support, nli: Nli, llm: Support, score: real)

  ghost predicate Weighted(p: Params) {
    && p.ruleWeight >= 0.0 && p.nliWeight >= 0.0 && p.llmWeight >= 0.0
    && p.ruleWeight + p.nliWeight + p.llmWeight == 1.0
  }

  function RuleScore(r: Support): real { if r.Supported? then 1.0 else 0.0 }

  function NliScore(n: Nli): real {
    match n case Entailment => 1.0 case Neutral => 0.5 case Contradiction => 0.0
  }

  function LlmScore(l: Support): real {
    match l case Supported => 1.0 case NotSupported => 0.3 case Contradicted => 0.0
  }

  function RuleToNli(r: Support): Nli {
    match r case Supported => Entailment case NotSupported => Neutral case Contradicted => Contradiction
  }

  function Score(p: Params, rule: Support, nli: Nli, llm: Support): real {
    p.ruleWeight * RuleScore(rule) + p.nliWeight * NliScore(nli) + p.llmWeight * LlmScore(llm)
  }

  /** The verdicts of a claim the rules neither contradict nor settle. */
  function Verdicts(p: Params, f: Finding): (Nli, Support) {
    if !p.askModel then (Entailment, Supported) else
    match f.reply
    case Unavailable => (RuleToNli(f.rule), Supported)
    case Answered(nli, llm) => (if nli.Some? then nli.value else RuleToNli(f.rule), if llm.Some? then llm.value else f.rule)
    case Raises => if f.rule.NotSupported? then (Neutral, NotSupported) else (Entailment, Supported)
  }

  predicate SettledByRule(p: Params, f: Finding) {
    f.rule.Supported? && p.skipWhenSupported && f.hasEntities
  }

  function Verified(p: Params, f: Finding): Claim {
    if f.rule.Contradicted? then Claim(f.text, f.rule, Contradiction, Contradicted, 0.0)
    else if SettledByRule(p, f) then Claim(f.text, f.rule, Entailment, Supported, 1.0)
    else var (nli, llm) := Verdicts(p, f); Claim(f.text, f.rule, nli, llm, Score(p, f.rule, nli, llm))
  }

  function VerifiedAll(p: Params, fs: seq<Finding>): (r: seq<Claim>)
    ensures |r| == |fs| && forall i :: 0 <= i < |r| ==> r[i] == Verified(p, fs[i])
  {
    if fs == [] then [] else VerifiedAll(p, fs[..|fs| - 1]) + [Verified(p, fs[|fs| - 1])]
  }

  /** The verification loop: contradicted claims and settled ones skip the model. */
  method VerifyClaims(p: Params, fs: seq<Finding>) returns (claims: seq<Claim>)
    ensures claims == VerifiedAll(p, fs)
  {
    claims := [];
    var k := 0;
    while k < |fs|
      invariant 0 <= k <= |fs| && claims == VerifiedAll(p, fs[..k])
    {
      var f := fs[k];
      assert fs[..k + 1][..k] == fs[..k];
      var nli, llm, score := Entailment, Supported, 1.0;
      if f.rule.Contradicted? {
        nli, llm, score := Contradiction, Contradicted, 0.0;
      } else if !(f.rule.Supported? && p.skipWhenSupported && f.hasEntities) {
        if p.askModel {
          match f.reply
          case Unavailable => nli := RuleToNli(f.rule);
          case Answered(n, l) =>
            nli := if n.Some? then n.value else RuleToNli(f.rule);
            llm := if l.Some? then l.value else f.rule;
          case Raises =>
            if f.rule.NotSupported? {
              nli, llm := Neutral, NotSupported;
            }
        }
        score := Score(p, f.rule, nli, llm);
      }
      claims := claims + [Claim(f.text, f.rule, nli, llm, score)];
      k := k + 1;
    }
    assert fs[..k] == fs;
  }

  // ---------------------------------------------------------------- aggregation and action

  function Length(c: Claim): nat { if |c.text| > 1 then |c.text| else 1 }

  function TotalLength(cs: seq<Claim>): nat {
    if cs == [] then 0 else TotalLength(cs[..|cs| - 1]) + Length(cs[|cs| - 1])
  }

  function Contribution(c: Claim): real { c.score * (Length(c) as real) }

  function TotalScore(cs: seq<Claim>): real {
    if cs == [] then 0.0 else TotalScore(cs[..|cs| - 1]) + Contribution(cs[|cs| - 1])
  }

  predicate HasContradiction(cs: seq<Claim>) { exists i :: 0 <= i < |cs| && cs[i].rule.Contradicted? }

  lemma {:induction false} LengthIsPositive(cs: seq<Claim>)
    ensures TotalLength(cs) >= |cs|
  {
    if cs != [] {
      LengthIsPositive(cs[..|cs| - 1]);
    }
  }

  /** The faithfulness of an answer; without claims there is nothing to object to. */
  function Faithfulness(cs: seq<Claim>): real {
    if cs == [] then 1.0 else
    LengthIsPositive(cs);
    var mean := TotalScore(cs) / (TotalLength(cs) as real);
    if HasContradiction(cs) && mean > 0.5 then 0.5 else mean
  }

  datatype Action = Pass | Filter | Regenerate | Refuse

  datatype Answer = Original | Listing(claims: seq<Claim>) | Refusal

  function Chosen(p: Params, score: real): Action {
    if score >= p.pass then Pass
    else if score >= p.filter then Filter
    else if score >= p.regenerate && p.enableRegeneration then Regenerate
    else Refuse
  }

  function Strictness(a: Action): nat {
    match a case Pass => 0 case Filter => 1 case Regenerate => 2 case Refuse => 3
  }

  function Passing(p: Params, cs: seq<Claim>): (r: seq<Claim>)
    ensures forall c :: c in r <==> c in cs && c.score >= p.pass
  {
    if cs == [] then [] else
    Passing(p, cs[..|cs| - 1]) + (if cs[|cs| - 1].score >= p.pass then [cs[|cs| - 1]] else [])
  }

  function Conservative(cs: seq<Claim>): Answer { if cs == [] then Refusal else Listing(cs) }

  function Disposed(p: Params, cs: seq<Claim>, score: real): (Action, Answer) {
    match Chosen(p, score)
    case Pass => (Pass, Original)
    case Filter => (Filter, Conservative(Passing(p, cs)))
    case Regenerate => (Regenerate, Conservative(cs))
    case Refuse => (Refuse, Refusal)
  }

  /** The whole detection. */
  function Detect(p: Params, fs: seq<Finding>): (Action, Answer) {
    if fs == [] then (Pass, Original) else
    var cs := VerifiedAll(p, fs);
    Disposed(p, cs, Faithfulness(cs))
  }

  // ---------------------------------------------------------------- better verdicts, milder actions

  function Rank(s: Support): nat { match s case Contradicted => 0 case NotSupported => 1 case Supported => 2 }
  function NliRank(n: Nli): nat { match n case Contradiction => 0 case Neutral => 1 case Entailment => 2 }

  /** The same kind of reply with verdicts that are at least as good. */
  predicate ReplyUp(a: Reply, b: Reply) {
    match (a, b)
    case (Unavailable, Unavailable) => true
    case (Raises, Raises) => true
    case (Answered(n, l), Answered(n', l')) =>
      && n.Some? == n'.Some? && l.Some? == l'.Some?
      && (n.Some? ==> NliRank(n.value) <= NliRank(n'.value))
      && (l.Some? ==> Rank(l.value) <= Rank(l'.value))
    case _ => false
  }

  /** The same claim with verdicts that are at least as good, in any layer. */
  predicate Improves(a: Finding, b: Finding) {
    a.text == b.text && a.hasEntities == b.hasEntities && Rank(a.rule) <= Rank(b.rule) && ReplyUp(a.reply, b.reply)
  }

  lemma Times(w: real, x: real, y: real)
    requires w >= 0.0 && x <= y
    ensures w * x <= w * y
  {
  }

  lemma ScoreInRange(p: Params, rule: Support, nli: Nli, llm: Support)
    requires Weighted(p)
    ensures 0.0 <= Score(p, rule, nli, llm) <= 1.0
    ensures !rule.Supported? ==> Score(p, rule, nli, llm) <= 1.0 - p.ruleWeight
  {
    Times(p.ruleWeight, 0.0, RuleScore(rule));
    Times(p.ruleWeight, RuleScore(rule), 1.0);
    Times(p.nliWeight, 0.0, NliScore(nli));
    Times(p.nliWeight, NliScore(nli), 1.0);
    Times(p.llmWeight, 0.0, LlmScore(llm));
    Times(p.llmWeight, LlmScore(llm), 1.0);
  }

  lemma ScoresFollowRanks(r: Support, r': Support, n: Nli, n': Nli, l: Support, l': Support)
    ensures Rank(r) <= Rank(r') ==> RuleScore(r) <= RuleScore(r')
    ensures NliRank(n) <= NliRank(n') ==> NliScore(n) <= NliScore(n')
    ensures Rank(l) <= Rank(l') ==> LlmScore(l) <= LlmScore(l')
  {
  }

  lemma SumMonotonic(a: real, x: real, x': real, b: real, y: real, y': real, c: real, z: real, z': real)
    requires a >= 0.0 && b >= 0.0 && c >= 0.0 && x <= x' && y <= y' && z <= z'
    ensures a * x + b * y + c * z <= a * x' + b * y' + c * z'
  {
    Times(a, x, x');
    Times(b, y, y');
    Times(c, z, z');
  }

  lemma ScoreMonotonic(p: Params, r: Support, n: Nli, l: Support, r': Support, n': Nli, l': Support)
    requires Weighted(p) && Rank(r) <= Rank(r') && NliRank(n) <= NliRank(n') && Rank(l) <= Rank(l')
    ensures Score(p, r, n, l) <= Score(p, r', n', l')
  {
    ScoresFollowRanks(r, r', n, n', l, l');
    SumMonotonic(p.ruleWeight, RuleScore(r), RuleScore(r'), p.nliWeight, NliScore(n), NliScore(n'),
                 p.llmWeight, LlmScore(l), LlmScore(l'));
  }

  lemma ClaimImproves(p: Params, a: Finding, b: Finding)
    requires Weighted(p) && Improves(a, b)
    ensures 0.0 <= Verified(p, a).score <= Verified(p, b).score <= 1.0
  {
    var (n, l) := Verdicts(p, a);
    var (n', l') := Verdicts(p, b);
    ScoreInRange(p, a.rule, n, l);
    ScoreInRange(p, b.rule, n', l');
    if !a.rule.Contradicted? {
      ScoreMonotonic(p, a.rule, n, l, b.rule, n', l');
    }
  }

  lemma TimesRight(w: real, x: real, y: real)
    requires w >= 0.0 && x <= y
    ensures x * w <= y * w
  {
    Times(w, x, y);
    assert x * w == w * x && y * w == w * y;
  }

  lemma ContributionsCompare(c: Claim, d: Claim)
    requires c.text == d.text && c.score <= d.score
    ensures Contribution(c) <= Contribution(d) && Length(c) == Length(d)
  {
    TimesRight(Length(c) as real, c.score, d.score);
  }

  lemma PartOf(x: real, n: real)
    requires 0.0 <= x <= 1.0 && n >= 0.0
    ensures 0.0 <= x * n <= n
  {
    TimesRight(n, x, 1.0);
    assert 1.0 * n == n;
  }

  lemma ContributionInRange(c: Claim)
    requires 0.0 <= c.score <= 1.0
    ensures 0.0 <= Contribution(c) <= Length(c) as real
  {
    hide Length;
    PartOf(c.score, Length(c) as real);
  }

  lemma {:induction false} TotalsCompare(cs: seq<Claim>, ds: seq<Claim>)
    requires |cs| == |ds|
    requires forall i :: 0 <= i < |cs| ==> cs[i].text == ds[i].text && cs[i].score <= ds[i].score
    ensures TotalLength(cs) == TotalLength(ds) && TotalScore(cs) <= TotalScore(ds)
  {
    hide Contribution, Length;
    if cs != [] {
      var k := |cs| - 1;
      TotalsCompare(cs[..k], ds[..k]);
      ContributionsCompare(cs[k], ds[k]);
    }
  }

  lemma {:induction false} TotalInRange(cs: seq<Claim>)
    requires forall i :: 0 <= i < |cs| ==> 0.0 <= cs[i].score <= 1.0
    ensures 0.0 <= TotalScore(cs) <= TotalLength(cs) as real
  {
    hide Contribution, Length;
    if cs != [] {
      var k := |cs| - 1;
      TotalInRange(cs[..k]);
      ContributionInRange(cs[k]);
    }
  }

  lemma Stretch(n: real, b: real, a: real)
    requires n > 0.0 && b < a
    ensures n * b < n * a
  {
  }

  lemma DivideMonotonic(x: real, y: real, n: real)
    requires x <= y && n > 0.0
    ensures x / n <= y / n
  {
    var a, b := x / n, y / n;
    assert n * a == x && n * b == y;
    if a > b {
      Stretch(n, b, a);
    }
  }

  lemma MeanInRange(cs: seq<Claim>)
    requires cs != [] && forall i :: 0 <= i < |cs| ==> 0.0 <= cs[i].score <= 1.0
    ensures TotalLength(cs) > 0 && 0.0 <= TotalScore(cs) / (TotalLength(cs) as real) <= 1.0
  {
    hide TotalScore, TotalLength;
    TotalInRange(cs);
    LengthIsPositive(cs);
    var n := TotalLength(cs) as real;
    DivideMonotonic(0.0, TotalScore(cs), n);
    DivideMonotonic(TotalScore(cs), n, n);
  }

  lemma VerifiedInRange(p: Params, fs: seq<Finding>, i: nat)
    requires Weighted(p) && i < |fs|
    ensures 0.0 <= Verified(p, fs[i]).score <= 1.0 && Verified(p, fs[i]).rule == fs[i].rule
  {
    hide Score;
    var (n, l) := Verdicts(p, fs[i]);
    ScoreInRange(p, fs[i].rule, n, l);
  }

  /** The score of an answer stays in [0, 1], and is at most 0.5 once the rules contradict a claim. */
  lemma FaithfulnessInRange(p: Params, fs: seq<Finding>)
    requires Weighted(p)
    ensures 0.0 <= Faithfulness(VerifiedAll(p, fs)) <= 1.0
    ensures (exists i :: 0 <= i < |fs| && fs[i].rule.Contradicted?) ==> Faithfulness(VerifiedAll(p, fs)) <= 0.5
  {
    hide Verified, TotalScore, TotalLength, VerifiedAll;
    var cs := VerifiedAll(p, fs);
    forall i | 0 <= i < |cs|
      ensures 0.0 <= cs[i].score <= 1.0 && cs[i].rule == fs[i].rule
    {
      VerifiedInRange(p, fs, i);
    }
    if fs != [] {
      MeanInRange(cs);
    }
    if i :| 0 <= i < |fs| && fs[i].rule.Contradicted? {
      assert cs[i].rule.Contradicted?;
    }
  }

  lemma SameClaim(p: Params, a: Finding, b: Finding)
    requires Improves(a, b)
    ensures Verified(p, a).text == Verified(p, b).text
    ensures Verified(p, b).rule.Contradicted? ==> Verified(p, a).rule.Contradicted?
  {
    hide Score, Verdicts;
  }

  lemma FaithfulnessImproves(p: Params, fs: seq<Finding>, gs: seq<Finding>)
    requires Weighted(p) && |fs| == |gs| && forall i :: 0 <= i < |fs| ==> Improves(fs[i], gs[i])
    ensures Faithfulness(VerifiedAll(p, fs)) <= Faithfulness(VerifiedAll(p, gs))
  {
    hide Verified, TotalScore, TotalLength, VerifiedAll, Improves;
    var cs, ds := VerifiedAll(p, fs), VerifiedAll(p, gs);
    forall i | 0 <= i < |cs|
      ensures cs[i].text == ds[i].text && cs[i].score <= ds[i].score
      ensures ds[i].rule.Contradicted? ==> cs[i].rule.Contradicted?
    {
      ClaimImproves(p, fs[i], gs[i]);
      SameClaim(p, fs[i], gs[i]);
    }
    if fs != [] {
      TotalsCompare(cs, ds);
      LengthIsPositive(cs);
      DivideMonotonic(TotalScore(cs), TotalScore(ds), TotalLength(cs) as real);
      if HasContradiction(ds) {
        var i :| 0 <= i < |ds| && ds[i].rule.Contradicted?;
        assert cs[i].rule.Contradicted?;
      }
    }
  }

  /** Main result: better verdicts, in any layer of any claims, never make the action stricter. */
  lemma BetterVerdictsAreNeverStricter(p: Params, fs: seq<Finding>, gs: seq<Finding>)
    requires Weighted(p) && |fs| == |gs| && forall i :: 0 <= i < |fs| ==> Improves(fs[i], gs[i])
    ensures Strictness(Detect(p, gs).0) <= Strictness(Detect(p, fs).0)
  {
    hide Faithfulness, VerifiedAll, Improves, Passing;
    if fs != [] {
      FaithfulnessImproves(p, fs, gs);
    }
  }

  /** One claim the rules contradict fails closed: whatever the models say about it or the others,
      the answer is neither passed nor filtered. */
  ghost predicate FailsClosed(p: Params) {
    forall fs: seq<Finding>, i: nat {:trigger fs[i]} :: i < |fs| && fs[i].rule.Contradicted? ==> Detect(p, fs).0 in {Regenerate, Refuse}
  }

  lemma TotalsOfTwo(cs: seq<Claim>)
    requires |cs| == 2 && Length(cs[0]) == Length(cs[1]) == 1 && cs[0].score == 0.0 && cs[1].score == 1.0
    ensures TotalLength(cs) == 2 && TotalScore(cs) == 1.0
  {
    var one := cs[..1];
    assert one == [cs[0]] && one[..0] == [];
    assert TotalLength(one[..0]) == 0 && TotalScore(one[..0]) == 0.0;
    assert Contribution(cs[0]) == 0.0 * 1.0 == 0.0 && Contribution(cs[1]) == 1.0 * 1.0 == 1.0;
    assert TotalLength(one) == 1 && TotalScore(one) == 0.0;
  }

  lemma HalfGood(p: Params) returns (fs: seq<Finding>)
    requires Weighted(p)
    ensures fs != [] && fs[0].rule.Contradicted? && Faithfulness(VerifiedAll(p, fs)) == 0.5
  {
    var bad := Finding("x", Contradicted, true, Unavailable);
    var good := Finding("x", Supported, true, Answered(Some(Entailment), Some(Supported)));
    fs := [bad, good];
    var cs := VerifiedAll(p, fs);
    assert Score(p, Supported, Entailment, Supported) == 1.0;
    TotalsOfTwo(cs);
    assert cs[0].rule.Contradicted?;
  }

  /** Detection fails closed exactly when the pass and the filter threshold both exceed 0.5. */
  lemma FailsClosedExactly(p: Params)
    requires Weighted(p)
    ensures FailsClosed(p) <==> p.pass > 0.5 && p.filter > 0.5
  {
    var fs := HalfGood(p);
    assert fs[0].rule.Contradicted? && Detect(p, fs).0 == Chosen(p, 0.5);
    if p.pass > 0.5 && p.filter > 0.5 {
      forall gs: seq<Finding>, i: nat | i < |gs| && gs[i].rule.Contradicted?
        ensures Detect(p, gs).0 in {Regenerate, Refuse}
      {
        FaithfulnessInRange(p, gs);
      }
    }
  }

  /** A claim the rules do not support cannot pass by itself when the rule weight is large enough,
      so a filtered answer lists only claims the rules support, whatever NLI and LLM say. */
  lemma FilteredClaimsAreRuleSupported(p: Params, fs: seq<Finding>)
    requires Weighted(p) && p.ruleWeight > 1.0 - p.pass
    ensures Detect(p, fs).0 == Filter && Detect(p, fs).1.Listing? ==>
              forall c :: c in Detect(p, fs).1.claims ==> c.rule.Supported? && c in VerifiedAll(p, fs)
  {
    var cs := VerifiedAll(p, fs);
    forall i | 0 <= i < |cs| && cs[i].score >= p.pass
      ensures cs[i].rule.Supported?
    {
      var (n, l) := Verdicts(p, fs[i]);
      ScoreInRange(p, fs[i].rule, n, l);
    }
  }

  // ---------------------------------------------------------------- what a score and an action are

  /** The rule's verdict as an inference verdict. */
  predicate SameVerdict(rule: Support, nli: Nli) {
    (rule.Supported? <==> nli.Entailment?) && (rule.NotSupported? <==> nli.Neutral?)
  }

  /** What the model layers make of a claim the rules neither contradict nor settle: unless the model gives them, the
      verdicts are taken over from the rule, or are good if there is no model to ask. */
  predicate Voted(p: Params, f: Finding, nli: Nli, llm: Support) {
    if !p.askModel then nli.Entailment? && llm.Supported? else
    match f.reply
    case Unavailable => SameVerdict(f.rule, nli) && llm.Supported?
    case Answered(n, l) => (if n.Some? then n == Some(nli) else SameVerdict(f.rule, nli)) && (if l.Some? then l == Some(llm) else llm == f.rule)
    case Raises => SameVerdict(if f.rule.NotSupported? then NotSupported else Supported, nli) && llm == (if f.rule.NotSupported? then NotSupported else Supported)
  }

  /** The score of a claim: 0 if the rules contradict it, 1 if they settle it, else the weighted votes: support counts
      1, a neutral inference 0.5, a judgement without support 0.3, everything else nothing. */
  lemma VerifiedExactly(p: Params, f: Finding)
    ensures var c := Verified(p, f); var settled := f.rule.Supported? && p.skipWhenSupported && f.hasEntities;
            && c.text == f.text && c.rule == f.rule
            && (f.rule.Contradicted? ==> c.nli.Contradiction? && c.llm.Contradicted? && c.score == 0.0)
            && (settled ==> c.nli.Entailment? && c.llm.Supported? && c.score == 1.0)
            && (!f.rule.Contradicted? && !settled ==>
                  && Voted(p, f, c.nli, c.llm)
                  && c.score == (if f.rule.Supported? then p.ruleWeight else 0.0)
                              + (if c.nli.Entailment? then p.nliWeight else if c.nli.Neutral? then p.nliWeight * 0.5 else 0.0)
                              + (if c.llm.Supported? then p.llmWeight else if c.llm.NotSupported? then p.llmWeight * 0.3 else 0.0))
  {
    var c := Verified(p, f);
    Products(p.ruleWeight);
    Products(p.nliWeight);
    Products(p.llmWeight);
  }

  lemma Products(w: real)
    ensures w * 1.0 == w && w * 0.0 == 0.0
  {
  }

  /** Each claim's score once for every character of its text, and once for an empty text. */
  function Spread(cs: seq<Claim>): seq<real> {
    if cs == [] then [] else
    var c := cs[|cs| - 1];
    Spread(cs[..|cs| - 1]) + seq(if c.text == "" then 1 else |c.text|, _ => c.score)
  }

  function Sum(xs: seq<real>): real {
    if xs == [] then 0.0 else Sum(xs[..|xs| - 1]) + xs[|xs| - 1]
  }

  lemma {:induction false} SumRepeats(xs: seq<real>, x: real, n: nat)
    ensures Sum(xs + seq(n, _ => x)) == Sum(xs) + x * (n as real)
  {
    if n == 0 {
      assert xs + seq(n, _ => x) == xs;
    } else {
      var ys := xs + seq(n, _ => x);
      assert ys[..|ys| - 1] == xs + seq(n - 1, _ => x);
      SumRepeats(xs, x, n - 1);
      assert x * (n as real) == x * ((n - 1) as real) + x;
    }
  }

  lemma {:induction false} SpreadTotals(cs: seq<Claim>)
    ensures |Spread(cs)| == TotalLength(cs) && Sum(Spread(cs)) == TotalScore(cs)
  {
    hide *;
    if cs == [] {
      SpreadNone();
    } else {
      var front, c := cs[..|cs| - 1], cs[|cs| - 1];
      SpreadTotals(front);
      SpreadMore(cs);
      SumRepeats(Spread(front), c.score, Length(c));
    }
  }

  lemma SpreadNone()
    ensures Spread([]) == [] && Sum([]) == 0.0 && TotalLength([]) == 0 && TotalScore([]) == 0.0
  {
  }

  lemma SpreadMore(cs: seq<Claim>)
    requires cs != []
    ensures var front, c := cs[..|cs| - 1], cs[|cs| - 1];
            && Spread(cs) == Spread(front) + seq(Length(c), _ => c.score)
            && TotalLength(cs) == TotalLength(front) + Length(c) && TotalScore(cs) == TotalScore(front) + c.score * (Length(c) as real)
  {
  }

  /** The score of an answer is the mean of its claims' scores over all their characters, and no more than 0.5 if the
      rules contradict a claim. */
  lemma MeanOverCharacters(cs: seq<Claim>)
    ensures cs == [] ==> Faithfulness(cs) == 1.0
    ensures cs != [] ==> |Spread(cs)| > 0
    ensures cs != [] ==> (var mean := Sum(Spread(cs)) / (|Spread(cs)| as real);
                          Faithfulness(cs) == if mean > 0.5 && exists c :: c in cs && c.rule.Contradicted? then 0.5 else mean)
  {
    hide TotalScore, TotalLength, Spread, Sum;
    SpreadTotals(cs);
    LengthIsPositive(cs);
    if c :| c in cs && c.rule.Contradicted? {
      var i :| 0 <= i < |cs| && cs[i] == c;
    }
  }

  lemma PassingNone(p: Params)
    ensures PickedBy<Claim>([], [], Passing(p, []))
  {
  }

  lemma PassingMore(p: Params, cs: seq<Claim>, c: Claim)
    ensures Passing(p, cs + [c]) == if c.score >= p.pass then Passing(p, cs) + [c] else Passing(p, cs)
  {
    assert (cs + [c])[..|cs|] == cs;
  }

  lemma {:induction false} PassingExactly(p: Params, cs: seq<Claim>) returns (ix: seq<nat>)
    ensures PickedBy(cs, ix, Passing(p, cs))
    ensures forall i: nat :: i < |cs| ==> (i in ix <==> cs[i].score >= p.pass)
  {
    hide *;
    ix := [];
    if cs == [] {
      PassingNone(p);
    } else {
      var last := |cs| - 1;
      var front, c := cs[..last], cs[last];
      var before := PassingExactly(p, front);
      PassingMore(p, front, c);
      ix := if c.score >= p.pass then before + [last] else before;
      PickedSnoc(front, c, before, Passing(p, front), c.score >= p.pass);
      assert front + [c] == cs;
      forall i: nat | i < |cs|
        ensures i in ix <==> cs[i].score >= p.pass
      {
        if i < last {
          assert front[i] == cs[i] && (i in ix <==> i in before);
        }
      }
    }
  }

  /** The action by the score's place among the thresholds, and the answer it leaves: the original, the claims that
      pass by themselves, in order, all claims, or a refusal; a list without claims is a refusal. */
  lemma DetectExactly(p: Params, fs: seq<Finding>) returns (ix: seq<nat>, kept: seq<Claim>)
    ensures var cs := VerifiedAll(p, fs); var score := Faithfulness(cs); var (action, answer) := Detect(p, fs);
            && PickedBy(cs, ix, kept) && (forall i: nat :: i < |cs| ==> (i in ix <==> cs[i].score >= p.pass))
            && (if fs == [] || score >= p.pass then action == Pass && answer == Original
                else if score >= p.filter then action == Filter && answer == (if kept == [] then Refusal else Listing(kept))
                else if score >= p.regenerate && p.enableRegeneration then action == Regenerate && answer == Listing(cs)
                else action == Refuse && answer == Refusal)
  {
    hide Passing, Faithfulness, PickedBy;
    var cs := VerifiedAll(p, fs);
    ix := PassingExactly(p, cs);
    kept := Passing(p, cs);
  }
}
