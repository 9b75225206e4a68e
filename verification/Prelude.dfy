/** Small vocabulary shared by the component models. */
module Prelude {

  datatype Option<+T> = None | Some(value: T)

  /** The elements of `s` that lie in `keep`, in their original order. */
  function Keep<T(==,!new)>(s: seq<T>, keep: set<T>): (r: seq<T>)
    ensures forall x :: x in r <==> x in s && x in keep
  {
    if s == [] then [] else (if s[0] in keep then [s[0]] else []) + Keep(s[1..], keep)
  }

  /** The elements of `s` that lie outside `drop`, in their original order. */
  function Without<T(==,!new)>(s: seq<T>, drop: set<T>): (r: seq<T>)
    ensures forall x :: x in r <==> x in s && x !in drop
  {
    if s == [] then [] else (if s[0] in drop then [] else [s[0]]) + Without(s[1..], drop)
  }

  lemma {:induction false} KeepConcat<T(!new)>(a: seq<T>, b: seq<T>, keep: set<T>)
    ensures Keep(a + b, keep) == Keep(a, keep) + Keep(b, keep)
  {
    if a == [] {
      assert a + b == b;
    } else {
      assert (a + b)[0] == a[0] && (a + b)[1..] == a[1..] + b;
      KeepConcat(a[1..], b, keep);
    }
  }

  lemma {:induction false} WithoutConcat<T(!new)>(a: seq<T>, b: seq<T>, drop: set<T>)
    ensures Without(a + b, drop) == Without(a, drop) + Without(b, drop)
  {
    if a == [] {
      assert a + b == b;
    } else {
      assert (a + b)[0] == a[0] && (a + b)[1..] == a[1..] + b;
      WithoutConcat(a[1..], b, drop);
    }
  }

  lemma {:induction false} KeepNone<T(!new)>(s: seq<T>, keep: set<T>)
    requires forall x :: x in s ==> x !in keep
    ensures Keep(s, keep) == []
  {
    if s != [] {
      KeepNone(s[1..], keep);
    }
  }

  function Lower(c: char): char {
    if 'A' <= c <= 'Z' then c - 'A' + 'a' else c
  }

  /** Lower-casing of the ASCII letters. */
  function LowerCase(s: string): (r: string)
    ensures |r| == |s|
  {
    if s == "" then "" else [Lower(s[0])] + LowerCase(s[1..])
  }

  predicate OccursAt<T(==)>(d: seq<T>, s: seq<T>, i: nat) {
    i + |d| <= |s| && s[i..i + |d|] == d
  }

  predicate Contains<T(==)>(s: seq<T>, d: seq<T>) {
    exists i :: 0 <= i <= |s| && OccursAt(d, s, i)
  }

  /** `r` consists of the elements of `s` at the positions `ix`, which increase. */
  predicate PickedBy<T(==)>(s: seq<T>, ix: seq<nat>, r: seq<T>) {
    && |ix| == |r|
    && (forall k :: 0 <= k < |ix| ==> ix[k] < |s| && s[ix[k]] == r[k])
    && (forall j, k :: 0 <= j < k < |ix| ==> ix[j] < ix[k])
  }

  /** One more element, picked or not. */
  lemma PickedSnoc<T>(s: seq<T>, x: T, ix: seq<nat>, r: seq<T>, take: bool)
    requires PickedBy(s, ix, r)
    ensures PickedBy(s + [x], if take then ix + [|s|] else ix, if take then r + [x] else r)
    ensures |s| !in ix
  {
    assert forall k :: 0 <= k < |ix| ==> ix[k] < |s|;
  }

  /** `c` is the letter `w`, in either case; `w` is no capital. */
  predicate SameLetter(c: char, w: char) {
    c == w || ('A' <= c <= 'Z' && c - 'A' + 'a' == w)
  }

  /** `word` is spelled at position `i`, in any mix of cases. */
  predicate SpelledAt(s: string, i: nat, word: string) {
    i + |word| <= |s| && forall k :: 0 <= k < |word| ==> SameLetter(s[i + k], word[k])
  }

  predicate SpelledIn(s: string, word: string) {
    exists i: nat :: i <= |s| && SpelledAt(s, i, word)
  }

  predicate NoCapitals(word: string) {
    forall k :: 0 <= k < |word| ==> !('A' <= word[k] <= 'Z')
  }

  lemma {:induction false} LowerCaseAt(s: string)
    ensures forall i :: 0 <= i < |s| ==> LowerCase(s)[i] == Lower(s[i])
  {
    if s != "" {
      LowerCaseAt(s[1..]);
    }
  }

  lemma OccursWhereSpelled(s: string, i: nat, word: string)
    requires NoCapitals(word)
    ensures OccursAt(word, LowerCase(s), i) <==> SpelledAt(s, i, word)
  {
    LowerCaseAt(s);
    if i + |word| <= |s| {
      var part := LowerCase(s)[i..i + |word|];
      assert forall k :: 0 <= k < |word| ==> part[k] == Lower(s[i + k]);
      assert part == word <==> forall k :: 0 <= k < |word| ==> part[k] == word[k];
    }
  }

  /** Looking a word up in the lower-cased text finds it in any spelling. */
  lemma FoundWhenSpelled(s: string, word: string)
    requires NoCapitals(word)
    ensures Contains(LowerCase(s), word) <==> SpelledIn(s, word)
  {
    hide OccursAt, SpelledAt, LowerCase;
    if i :| 0 <= i <= |LowerCase(s)| && OccursAt(word, LowerCase(s), i) {
      OccursWhereSpelled(s, i, word);
    }
    if i: nat :| i <= |s| && SpelledAt(s, i, word) {
      OccursWhereSpelled(s, i, word);
    }
  }

  function Concat<T>(parts: seq<seq<T>>): seq<T> {
    if parts == [] then [] else parts[0] + Concat(parts[1..])
  }

  lemma {:induction false} ConcatAppend<T>(a: seq<seq<T>>, b: seq<seq<T>>)
    ensures Concat(a + b) == Concat(a) + Concat(b)
  {
    if a == [] {
      assert a + b == b;
    } else {
      assert (a + b)[0] == a[0] && (a + b)[1..] == a[1..] + b;
      ConcatAppend(a[1..], b);
    }
  }

  lemma ConcatSnoc<T>(a: seq<seq<T>>, x: seq<T>)
    ensures Concat(a + [x]) == Concat(a) + x
  {
    ConcatAppend(a, [x]);
    assert Concat([x]) == x + Concat<T>([]) == x;
  }

  /** `ps` lists every number of [f, t) exactly once. */
  predicate Permutes(ps: seq<nat>, f: nat, t: nat) {
    && |ps| == t - f
    && (forall k :: 0 <= k < |ps| ==> f <= ps[k] < t)
    && (forall i, j :: 0 <= i < j < |ps| ==> ps[i] != ps[j])
  }

  /** The numbers of [f, t) in order. */
  function InTurn(f: nat, t: nat): (r: seq<nat>)
    ensures f <= t ==> Permutes(r, f, t)
  {
    if f <= t then seq(t - f, i requires i >= 0 => f + i) else []
  }

  ghost function Range(f: nat, t: nat): (r: set<nat>)
    ensures forall i :: i in r <==> f <= i < t
    ensures f <= t ==> |r| == t - f
    decreases t
  {
    if t <= f then {} else Range(f, t - 1) + {t - 1}
  }

  ghost function Elements<T(!new)>(s: seq<T>): (r: set<T>)
    ensures forall x :: x in r <==> x in s
    ensures |r| <= |s|
    ensures (forall i, j :: 0 <= i < j < |s| ==> s[i] != s[j]) ==> |r| == |s|
  {
    if s == [] then {} else Elements(s[..|s| - 1]) + {s[|s| - 1]}
  }

  lemma {:induction false} SubsetSize<T>(a: set<T>, b: set<T>)
    requires a <= b
    ensures |a| <= |b|
    decreases a
  {
    if a != {} {
      var x :| x in a;
      SubsetSize(a - {x}, b - {x});
    }
  }

  /** A list of the right length without repetitions reaches every number of the range. */
  lemma PermutationHits(ps: seq<nat>, f: nat, t: nat, p: nat) returns (m: nat)
    requires Permutes(ps, f, t) && f <= p < t
    ensures m < |ps| && ps[m] == p
  {
    if p !in Elements(ps) {
      SubsetSize(Elements(ps), Range(f, t) - {p});
    }
    m :| 0 <= m < |ps| && ps[m] == p;
  }
}
