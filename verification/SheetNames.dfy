/** Naming the sheets of an exported workbook. */
module SheetNames {
  import opened Prelude

  const LIMIT: nat := 31

  // ---------------------------------------------------------------- decimal numerals

  function Digit(d: nat): (c: char)
    requires d < 10
    ensures '0' <= c <= '9'
  {
    '0' + d as char
  }

  function Decimal(n: nat): (s: string)
    ensures |s| >= 1 && forall k :: 0 <= k < |s| ==> '0' <= s[k] <= '9'
  {
    if n < 10 then [Digit(n)] else Decimal(n / 10) + [Digit(n % 10)]
  }

  function Power10(k: nat): (p: nat)
    ensures p >= 1
  {
    if k == 0 then 1 else 10 * Power10(k - 1)
  }

  lemma {:induction false} DecimalIsInjective(m: nat, n: nat)
    requires Decimal(m) == Decimal(n)
    ensures m == n
    decreases m + n
  {
    var s, t := Decimal(m), Decimal(n);
    assert s[|s| - 1] == t[|t| - 1] && s[..|s| - 1] == t[..|t| - 1];
    if m >= 10 && n >= 10 {
      assert s[..|s| - 1] == Decimal(m / 10) && t[..|t| - 1] == Decimal(n / 10);
      DecimalIsInjective(m / 10, n / 10);
    }
  }

  /** A numeral has at most `k` digits exactly when the number is below ten to the `k`. */
  lemma {:induction false} DecimalSize(n: nat, k: nat)
    requires k >= 1
    ensures |Decimal(n)| <= k <==> n < Power10(k)
    decreases n
  {
    if n < 10 {
      assert Power10(k) == 10 * Power10(k - 1);
    } else if k > 1 {
      DecimalSize(n / 10, k - 1);
      assert Power10(k) == 10 * Power10(k - 1);
    } else {
      assert Power10(1) == 10 * Power10(0);
    }
  }

  /** The number a numeral stands for. */
  function Reading(s: string): int {
    if s == "" then 0 else 10 * Reading(s[..|s| - 1]) + (s[|s| - 1] as int - '0' as int)
  }

  lemma {:induction false} DecimalReadsBack(n: nat)
    ensures Reading(Decimal(n)) == n && (n > 0 ==> Decimal(n)[0] != '0')
  {
    var s := Decimal(n);
    if n < 10 {
      assert s == [Digit(n)] && s[..0] == "" && Digit(n) as int == '0' as int + n;
    } else {
      DecimalReadsBack(n / 10);
      assert s[..|s| - 1] == Decimal(n / 10) && s[|s| - 1] == Digit(n % 10);
      assert Digit(n % 10) as int == '0' as int + n % 10;
    }
  }

  // ---------------------------------------------------------------- titles

  const FORBIDDEN: set<char> := {'/', '\\', '*', '?', '[', ']', ':'}

  predicate Legal(s: string) {
    forall k :: 0 <= k < |s| ==> s[k] !in FORBIDDEN
  }

  /** Slashes become underscores, the other forbidden characters go. */
  function Cleaned(s: string): (r: string)
    ensures Legal(r) && |r| <= |s|
    ensures Legal(s) ==> r == s
  {
    if s == "" then "" else
    (if s[0] == '/' || s[0] == '\\' then "_" else if s[0] in FORBIDDEN then "" else [s[0]]) + Cleaned(s[1..])
  }

  /** The name a table asks for: its title, cut and cleaned, or its number. */
  function SheetTitle(title: string, count: nat): (r: string) {
    if title != "" then Cleaned(if |title| <= LIMIT then title else title[..LIMIT]) else "Table_" + Decimal(count)
  }

  /** The name asked for is legal; it fits the limit if it is a title or its number has at most
      twenty-five digits; a legal title that fits is kept as it is. */
  lemma SheetTitleIsUsable(title: string, count: nat)
    ensures Legal(SheetTitle(title, count))
    ensures |SheetTitle(title, count)| <= LIMIT <==> title != "" || count < Power10(25)
    ensures title != "" && Legal(title) && |title| <= LIMIT ==> SheetTitle(title, count) == title
  {
    hide Power10, Decimal;
    DecimalSize(count, 25);
    assert forall ch :: '0' <= ch <= '9' ==> ch !in FORBIDDEN;
  }

  /** Character by character: the characters at `ix` stay, slashes as underscores, and the others go. */
  predicate CleanedTo(s: string, ix: seq<nat>, r: string) {
    && |ix| == |r| && (forall j, k :: 0 <= j < k < |ix| ==> ix[j] < ix[k])
    && (forall k :: 0 <= k < |ix| ==> ix[k] < |s| && r[k] == if s[ix[k]] in ['/', '\\'] then '_' else s[ix[k]])
    && (forall p: nat :: p < |s| ==> (p in ix <==> s[p] !in ['*', '?', '[', ']', ':']))
  }

  lemma CleanedMore(s: string, ix: seq<nat>, r: string, c: char)
    requires CleanedTo(s, ix, r)
    ensures c in ['*', '?', '[', ']', ':'] ==> CleanedTo(s + [c], ix, r)
    ensures c !in ['*', '?', '[', ']', ':'] ==> CleanedTo(s + [c], ix + [|s|], r + [if c in ['/', '\\'] then '_' else c])
  {
    assert |s| !in ix;
    assert forall p: nat :: p < |s| ==> (p in ix <==> p in ix + [|s|]);
    assert |s| in ix + [|s|];
  }

  lemma CleanedCons(c: char, s: string)
    ensures Cleaned([c] + s) == Cleaned([c]) + Cleaned(s)
  {
    assert ([c] + s)[1..] == s && [c][1..] == "" && Cleaned("") == "";
  }

  lemma {:induction false} CleanedConcat(a: string, b: string)
    ensures Cleaned(a + b) == Cleaned(a) + Cleaned(b)
  {
    hide Cleaned;
    if a == "" {
      assert a + b == b;
      NothingCleaned();
    } else {
      var c, rest := a[0], a[1..];
      assert a == [c] + rest && a + b == [c] + (rest + b);
      CleanedConcat(rest, b);
      CleanedCons(c, rest);
      CleanedCons(c, rest + b);
    }
  }

  lemma CleanedOne(c: char)
    ensures Cleaned([c]) == if c in ['/', '\\'] then "_" else if c in ['*', '?', '[', ']', ':'] then "" else [c]
  {
    assert [c][1..] == "" && Cleaned("") == "";
  }

  lemma {:induction false} CleanedExactly(s: string) returns (ix: seq<nat>)
    ensures CleanedTo(s, ix, Cleaned(s))
  {
    hide Cleaned, CleanedTo;
    ix := [];
    if s == "" {
      NothingCleaned();
    } else {
      var front, c := s[..|s| - 1], s[|s| - 1];
      assert front + [c] == s;
      var before := CleanedExactly(front);
      CleanedConcat(front, [c]);
      CleanedOne(c);
      CleanedMore(front, before, Cleaned(front), c);
      ix := if c in ['*', '?', '[', ']', ':'] then before else before + [|front|];
      assert Cleaned(front) + "" == Cleaned(front);
    }
  }

  lemma NothingCleaned()
    ensures Cleaned("") == "" && CleanedTo("", [], "")
  {
  }

  /** The name a table asks for: the cleaned first 31 characters of its title, or, without one, "Table_" and its number. */
  lemma SheetTitleExactly(title: string, count: nat) returns (ix: seq<nat>, digits: string)
    ensures title != "" ==> CleanedTo(if |title| > 31 then title[..31] else title, ix, SheetTitle(title, count))
    ensures title == "" ==> SheetTitle(title, count) == "Table_" + digits && Reading(digits) == count
    ensures forall k :: 0 <= k < |digits| ==> '0' <= digits[k] <= '9'
  {
    hide CleanedTo, Cleaned, Reading;
    ix := CleanedExactly(if |title| > 31 then title[..31] else title);
    digits := Decimal(count);
    DecimalReadsBack(count);
  }

  // ---------------------------------------------------------------- one unique name

  /** The first `n` characters; a negative `n` counts from the end. */
  function Head(s: string, n: int): (r: string)
    ensures r <= s && (n >= 0 ==> |r| <= n)
  {
    if n >= 0 then s[..if n <= |s| then n else |s|]
    else s[..if |s| + n >= 0 then |s| + n else 0]
  }

  function Suffix(c: nat): (r: string) {
    "_" + Decimal(c)
  }

  /** The name tried with counter `c`. */
  function Candidate(name: string, c: nat): (r: string) {
    Head(name, LIMIT - |Suffix(c)|) + Suffix(c)
  }

  lemma TailsAgree(a: string, s: string, b: string, t: string)
    requires a + s == b + t && |s| <= |t|
    ensures s == t[|t| - |s|..]
    ensures |s| == |t| ==> s == t
  {
    var w := a + s;
    assert w[|w| - |s|..] == s;
    assert (b + t)[|w| - |s|..] == t[|t| - |s|..];
  }

  lemma SuffixesDiffer(c: nat, d: nat)
    requires |Suffix(c)| < |Suffix(d)|
    ensures Suffix(c) != Suffix(d)[|Suffix(d)| - |Suffix(c)|..]
  {
    var s, t := Suffix(c), Suffix(d);
    assert t[|t| - |s|..][0] == Decimal(d)[|t| - |s| - 1];
  }

  /** Different counters give different candidates, because the digits after the last underscore are
      the counter. */
  lemma CandidatesDiffer(name: string, c: nat, d: nat)
    requires Candidate(name, c) == Candidate(name, d)
    ensures c == d
  {
    var s, t := Suffix(c), Suffix(d);
    var a, b := Head(name, LIMIT - |s|), Head(name, LIMIT - |t|);
    if |s| == |t| {
      TailsAgree(a, s, b, t);
      assert s[1..] == Decimal(c) && t[1..] == Decimal(d);
      DecimalIsInjective(c, d);
    } else if |s| < |t| {
      SuffixesDiffer(c, d);
      TailsAgree(a, s, b, t);
    } else {
      SuffixesDiffer(d, c);
      TailsAgree(b, t, a, s);
    }
  }

  /** A candidate fits the limit exactly when its counter has at most thirty digits. */
  lemma CandidateFits(name: string, c: nat)
    ensures |Candidate(name, c)| <= LIMIT <==> c < Power10(30)
    ensures Legal(name) ==> Legal(Candidate(name, c))
  {
    hide Power10, Decimal;
    DecimalSize(c, 30);
    assert forall ch :: '0' <= ch <= '9' ==> ch !in FORBIDDEN;
  }

  /** A candidate is as much of the name as fits before an underscore and the counter's digits. */
  lemma CandidateExactly(name: string, c: nat) returns (kept: nat, digits: string)
    requires c < Power10(30)
    ensures kept <= |name| && Candidate(name, c) == name[..kept] + "_" + digits
    ensures kept == |name| || kept + 1 + |digits| == 31
    ensures Reading(digits) == c && forall k :: 0 <= k < |digits| ==> '0' <= digits[k] <= '9'
  {
    hide Power10, Reading;
    digits := Decimal(c);
    DecimalSize(c, 30);
    DecimalReadsBack(c);
    kept := |Head(name, 31 - |Suffix(c)|)|;
    assert name[..kept] + ("_" + digits) == name[..kept] + "_" + digits;
  }

  ghost function Tried(name: string, n: nat): (r: set<string>) {
    if n == 0 then {} else Tried(name, n - 1) + {Candidate(name, n)}
  }

  lemma {:induction false} TriedHolds(name: string, n: nat)
    ensures forall s :: s in Tried(name, n) <==> exists c :: 1 <= c <= n && s == Candidate(name, c)
  {
    if n > 0 {
      hide Candidate;
      TriedHolds(name, n - 1);
    }
  }

  lemma {:induction false} TriedSize(name: string, n: nat)
    ensures |Tried(name, n)| == n
  {
    if n > 0 {
      hide Candidate;
      TriedSize(name, n - 1);
      TriedHolds(name, n - 1);
      if Candidate(name, n) in Tried(name, n - 1) {
        var c :| 1 <= c <= n - 1 && Candidate(name, n) == Candidate(name, c);
        CandidatesDiffer(name, n, c);
      }
    }
  }

  predicate Rejected(name: string, used: set<string>, n: nat) {
    && (n > 0 ==> name in used)
    && forall c :: 1 <= c < n ==> Candidate(name, c) in used
  }

  /** Some counter gives back the name itself. */
  ghost predicate OwnCandidate(name: string) {
    exists c :: c >= 1 && Candidate(name, c) == name
  }

  /** Pigeonhole: as many candidates were refused as there are used names at most, and one fewer unless
      the name is its own candidate. */
  lemma RoundsAreBounded(name: string, used: set<string>, n: nat)
    requires Rejected(name, used, n)
    ensures n <= |used| + 1
    ensures !OwnCandidate(name) ==> n <= |used|
  {
    hide Candidate;
    if n > 0 {
      TriedSize(name, n - 1);
      TriedHolds(name, n - 1);
      SubsetSize(Tried(name, n - 1), used);
      if !OwnCandidate(name) {
        assert name !in Tried(name, n - 1);
        SubsetSize(Tried(name, n - 1) + {name}, used);
      }
    }
  }

  /** The renaming loop: the name itself if it is free, or else the first free candidate. */
  method Unique(name: string, used: set<string>) returns (sheetName: string, rounds: nat)
    ensures sheetName !in used && Rejected(name, used, rounds)
    ensures sheetName == if rounds == 0 then name else Candidate(name, rounds)
    ensures rounds <= |used| + 1 && (!OwnCandidate(name) ==> rounds <= |used|)
  {
    hide Candidate, Decimal, Head, OwnCandidate;
    sheetName, rounds := name, 0;
    var counter := 1;
    while sheetName in used
      invariant counter == rounds + 1 && Rejected(name, used, rounds)
      invariant sheetName == if rounds == 0 then name else Candidate(name, rounds)
      decreases |used| + 1 - rounds
    {
      RoundsAreBounded(name, used, rounds + 1);
      sheetName := CandidateText(name, counter);
      counter := counter + 1;
      rounds := rounds + 1;
    }
    RoundsAreBounded(name, used, rounds);
  }

  method CandidateText(name: string, counter: nat) returns (r: string)
    ensures r == Candidate(name, counter)
  {
    var suffix := "_" + Decimal(counter);
    r := Head(name, LIMIT - |suffix|) + suffix;
  }

  /** The bound of one round per used name fails for every name that is its own candidate. */
  lemma OneRoundTooMany(name: string) returns (used: set<string>)
    requires OwnCandidate(name)
    ensures Rejected(name, used, |used| + 1)
  {
    hide Candidate;
    var c :| c >= 1 && Candidate(name, c) == name;
    used := Tried(name, c);
    TriedSize(name, c);
    TriedHolds(name, c);
  }

  /** Such names exist. */
  lemma OwnCandidateExists()
    ensures OwnCandidate("abcdefghijklmnopqrstuvwxyzabc_1")
  {
    var name := "abcdefghijklmnopqrstuvwxyzabc_1";
    assert Suffix(1) == "_1";
    assert name[..29] + "_1" == name;
    assert Candidate(name, 1) == name;
  }

  // ---------------------------------------------------------------- all the names

  /** What one sheet's name owes to its title and to the names before it. */
  predicate Assigned(title: string, before: seq<string>, name: string) {
    && name !in before
    && (name == title <==> title !in before)
    && (Legal(title) ==> Legal(name))
    && (|title| <= LIMIT && |before| + 1 < Power10(30) ==> |name| <= LIMIT)
  }

  lemma AssignedByUnique(title: string, before: seq<string>, used: set<string>, name: string, rounds: nat)
    requires used == Elements(before)
    requires name !in used && Rejected(title, used, rounds) && rounds <= |used| + 1
    requires name == if rounds == 0 then title else Candidate(title, rounds)
    ensures Assigned(title, before, name)
  {
    hide Candidate, Power10, Legal;
    CandidateFits(title, rounds);
  }

  predicate AllAssigned(titles: seq<string>, names: seq<string>) {
    |names| <= |titles| && forall k :: 0 <= k < |names| ==> Assigned(titles[k], names[..k], names[k])
  }

  lemma OneMoreAssigned(titles: seq<string>, names: seq<string>, name: string)
    requires AllAssigned(titles, names) && |names| < |titles| && Assigned(titles[|names|], names, name)
    ensures AllAssigned(titles, names + [name]) && Elements(names + [name]) == Elements(names) + {name}
  {
    hide Assigned;
    var more := names + [name];
    assert forall k :: 0 <= k < |names| ==> more[..k] == names[..k];
    assert more[..|names|] == names;
  }

  /** The names of the sheets, in order: each is assigned against the ones before it. */
  method NameSheets(titles: seq<string>) returns (names: seq<string>)
    ensures |names| == |titles| && AllAssigned(titles, names)
  {
    hide Candidate, OwnCandidate, Rejected, Assigned, AllAssigned, Elements;
    names := [];
    var usedNames: set<string> := {};
    NoneAssigned(titles);
    var i := 0;
    while i < |titles|
      invariant 0 <= i <= |titles| && |names| == i
      invariant usedNames == Elements(names) && AllAssigned(titles, names)
    {
      var sheetName, rounds := Unique(titles[i], usedNames);
      AssignedByUnique(titles[i], names, usedNames, sheetName, rounds);
      OneMoreAssigned(titles, names, sheetName);
      usedNames := usedNames + {sheetName};
      names := names + [sheetName];
      i := i + 1;
    }
  }

  lemma NoneAssigned(titles: seq<string>)
    ensures Elements<string>([]) == {} && AllAssigned(titles, [])
  {
  }

  /** Main result, for any number of tables: the names are pairwise different, a title no earlier sheet
      took is kept, legal titles give legal names, and with fewer than ten to the thirty tables the
      names fit the limit when the titles do. */
  lemma NamesAreUsable(titles: seq<string>, names: seq<string>)
    requires |names| == |titles| && AllAssigned(titles, names)
    ensures forall i, j :: 0 <= i < j < |names| ==> names[i] != names[j]
    ensures forall i :: 0 <= i < |names| && titles[i] !in names[..i] ==> names[i] == titles[i]
    ensures (forall i :: 0 <= i < |titles| ==> Legal(titles[i])) ==> forall i :: 0 <= i < |names| ==> Legal(names[i])
    ensures (forall i :: 0 <= i < |titles| ==> |titles[i]| <= LIMIT) && |titles| < Power10(30)
            ==> forall i :: 0 <= i < |names| ==> |names[i]| <= LIMIT
  {
    hide Power10, Legal;
    forall i, j | 0 <= i < j < |names|
      ensures names[i] != names[j]
    {
      assert names[..j][i] == names[i];
    }
  }
}
