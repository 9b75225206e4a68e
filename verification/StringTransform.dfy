/** Splitting a text at delimiters and joining pieces with one. */
module StringTransform {
  import opened Prelude

  /** The delimiters of a split, none of them empty, in the order they are tried at each position. */
  predicate Usable(delims: seq<string>) {
    delims != [] && forall k :: 0 <= k < |delims| ==> delims[k] != ""
  }

  /** The first delimiter that occurs at position `i`, if any. */
  function MatchAt(delims: seq<string>, s: string, i: nat): (r: Option<nat>)
    ensures r.Some? ==> r.value < |delims| && OccursAt(delims[r.value], s, i) &&
                        forall k :: 0 <= k < r.value ==> !OccursAt(delims[k], s, i)
    ensures r.None? ==> forall k :: 0 <= k < |delims| ==> !OccursAt(delims[k], s, i)
  {
    MatchFrom(delims, s, i, 0)
  }

  function MatchFrom(delims: seq<string>, s: string, i: nat, k: nat): (r: Option<nat>)
    requires k <= |delims| && forall j :: 0 <= j < k ==> !OccursAt(delims[j], s, i)
    ensures r.Some? ==> r.value < |delims| && OccursAt(delims[r.value], s, i) &&
                        forall j :: 0 <= j < r.value ==> !OccursAt(delims[j], s, i)
    ensures r.None? ==> forall j :: 0 <= j < |delims| ==> !OccursAt(delims[j], s, i)
    decreases |delims| - k
  {
    if k == |delims| then None
    else if OccursAt(delims[k], s, i) then Some(k)
    else MatchFrom(delims, s, i, k + 1)
  }

  /** The leftmost position from `i` on where a delimiter occurs, or the length of `s`. */
  function NextMatch(delims: seq<string>, s: string, i: nat): (r: nat)
    requires i <= |s|
    ensures i <= r <= |s|
    ensures r < |s| ==> MatchAt(delims, s, r).Some?
    ensures forall j :: i <= j < r ==> MatchAt(delims, s, j).None?
    decreases |s| - i
  {
    if i == |s| || MatchAt(delims, s, i).Some? then i else NextMatch(delims, s, i + 1)
  }

  /** The text between matches and the delimiters matched, from position `i` on. */
  datatype Parts = Parts(pieces: seq<string>, seps: seq<string>)

  function PartsFrom(delims: seq<string>, s: string, i: nat): (r: Parts)
    requires Usable(delims) && i <= |s|
    ensures |r.pieces| == |r.seps| + 1
    decreases |s| - i
  {
    var j := NextMatch(delims, s, i);
    if j == |s| then Parts([s[i..]], []) else
    var d := delims[MatchAt(delims, s, j).value];
    var rest := PartsFrom(delims, s, j + |d|);
    Parts([s[i..j]] + rest.pieces, [d] + rest.seps)
  }

  /** The alternating list a split with a capturing group yields. */
  function Interleaved(p: Parts): seq<string>
    requires |p.pieces| == |p.seps| + 1
    decreases |p.seps|
  {
    if p.seps == [] then p.pieces else
    [p.pieces[0], p.seps[0]] + Interleaved(Parts(p.pieces[1..], p.seps[1..]))
  }

  lemma {:induction false} InterleavedAt(p: Parts, k: nat)
    requires |p.pieces| == |p.seps| + 1
    ensures |Interleaved(p)| == 2 * |p.seps| + 1
    ensures k <= |p.seps| ==> Interleaved(p)[2 * k] == p.pieces[k]
    ensures k < |p.seps| ==> Interleaved(p)[2 * k + 1] == p.seps[k]
    decreases |p.seps|
  {
    if p.seps != [] {
      InterleavedAt(Parts(p.pieces[1..], p.seps[1..]), if k > 0 then k - 1 else 0);
    }
  }

  /** The splitting loop: every other element of the alternating list is a delimiter and is dropped. */
  method Split(s: string, delims: seq<string>) returns (res: seq<string>)
    requires Usable(delims)
    ensures res == PartsFrom(delims, s, 0).pieces
  {
    hide PartsFrom, Interleaved;
    var p := PartsFrom(delims, s, 0);
    var all := Interleaved(p);
    InterleavedAt(p, 0);
    res := [];
    var i := 0;
    while i < |all|
      invariant 0 <= i <= |all| && |res| == (i + 1) / 2 <= |p.pieces|
      invariant res == p.pieces[..|res|]
    {
      if i % 2 != 1 {
        InterleavedAt(p, i / 2);
        res := res + [all[i]];
      }
      i := i + 1;
    }
  }

  // ---------------------------------------------------------------- nothing is lost, nothing is left unsplit

  /** One step of a split. */
  lemma PartsStep(delims: seq<string>, s: string, i: nat, j: nat, d: string)
    requires Usable(delims) && i <= |s| && j == NextMatch(delims, s, i)
    requires j < |s| ==> d == delims[MatchAt(delims, s, j).value]
    ensures j == |s| ==> PartsFrom(delims, s, i) == Parts([s[i..]], [])
    ensures j < |s| ==> d != "" && j + |d| <= |s|
    ensures j < |s| ==> PartsFrom(delims, s, i) == Parts([s[i..j]] + PartsFrom(delims, s, j + |d|).pieces,
                                                         [d] + PartsFrom(delims, s, j + |d|).seps)
  {
    hide NextMatch, MatchFrom;
  }

  lemma ConcatTwoMore(a: string, b: string, rest: seq<string>)
    ensures Concat([a, b] + rest) == a + b + Concat(rest)
  {
    assert ([a, b] + rest)[1..] == [b] + rest && ([b] + rest)[1..] == rest;
  }

  lemma ConcatOne(a: string)
    ensures Concat([a]) == a
  {
    assert Concat([a]) == a + Concat<char>([]);
  }

  lemma ThreeSlices(s: string, i: nat, j: nat, d: string)
    requires i <= j && OccursAt(d, s, j)
    ensures s[i..] == s[i..j] + d + s[j + |d|..]
  {
    assert s[i..] == s[i..j] + s[j..j + |d|] + s[j + |d|..];
  }

  lemma InterleavedStep(delims: seq<string>, s: string, i: nat, j: nat, d: string)
    requires Usable(delims) && i <= |s| && j == NextMatch(delims, s, i)
    requires j < |s| && d == delims[MatchAt(delims, s, j).value]
    ensures Interleaved(PartsFrom(delims, s, i)) == [s[i..j], d] + Interleaved(PartsFrom(delims, s, j + |d|))
  {
    var p, rest := PartsFrom(delims, s, i), PartsFrom(delims, s, j + |d|);
    assert p.pieces[1..] == rest.pieces && p.seps[1..] == rest.seps;
  }

  /** Main result: pieces and matched delimiters, put back alternately, rebuild the text. */
  lemma {:induction false} PartsRebuild(delims: seq<string>, s: string, i: nat)
    requires Usable(delims) && i <= |s|
    ensures Concat(Interleaved(PartsFrom(delims, s, i))) == s[i..]
    decreases |s| - i
  {
    hide PartsFrom, Interleaved, NextMatch, MatchFrom, Concat;
    var j := NextMatch(delims, s, i);
    if j == |s| {
      PartsStep(delims, s, i, j, "");
      InterleavedAt(PartsFrom(delims, s, i), 0);
      assert Interleaved(PartsFrom(delims, s, i)) == [s[i..]];
      ConcatOne(s[i..]);
    } else {
      var d := delims[MatchAt(delims, s, j).value];
      InterleavedStep(delims, s, i, j, d);
      PartsRebuild(delims, s, j + |d|);
      ConcatTwoMore(s[i..j], d, Interleaved(PartsFrom(delims, s, j + |d|)));
      ThreeSlices(s, i, j, d);
    }
  }

  lemma SliceOfSlice(s: string, i: nat, j: nat, a: nat, b: nat)
    requires i <= j <= |s| && a <= b <= j - i
    ensures s[i..j][a..b] == s[i + a..i + b]
  {
    var u, v := s[i..j][a..b], s[i + a..i + b];
    assert forall k :: 0 <= k < |u| ==> u[k] == v[k];
  }

  lemma OccursInSlice(d: string, s: string, i: nat, j: nat, q: nat)
    requires i <= j <= |s| && OccursAt(d, s[i..j], q)
    ensures OccursAt(d, s, i + q)
  {
    SliceOfSlice(s, i, j, q, q + |d|);
  }

  lemma FreeUntilMatch(delims: seq<string>, s: string, i: nat, m: nat)
    requires Usable(delims) && i <= |s| && m < |delims|
    ensures !Contains(s[i..NextMatch(delims, s, i)], delims[m])
  {
    hide OccursAt, MatchFrom;
    var j := NextMatch(delims, s, i);
    if q: nat :| q <= j - i && OccursAt(delims[m], s[i..j], q) {
      OccursInSlice(delims[m], s, i, j, q);
      NotEmptyOccurs(delims[m], s, i, j, q);
      var none := MatchAt(delims, s, i + q);
    }
  }

  lemma NotEmptyOccurs(d: string, s: string, i: nat, j: nat, q: nat)
    requires d != "" && i <= j <= |s| && OccursAt(d, s[i..j], q)
    ensures i + q < j
  {
  }

  /** No piece contains any of the delimiters. */
  lemma {:induction false} PiecesAreFree(delims: seq<string>, s: string, i: nat, k: nat, m: nat)
    requires Usable(delims) && i <= |s| && k < |PartsFrom(delims, s, i).pieces| && m < |delims|
    ensures !Contains(PartsFrom(delims, s, i).pieces[k], delims[m])
    decreases |s| - i
  {
    hide PartsFrom, Contains, OccursAt, NextMatch, MatchFrom;
    var j := NextMatch(delims, s, i);
    if j == |s| {
      PartsStep(delims, s, i, j, "");
      FreeUntilMatch(delims, s, i, m);
      assert s[i..j] == s[i..];
    } else {
      var d := delims[MatchAt(delims, s, j).value];
      PartsStep(delims, s, i, j, d);
      if k == 0 {
        FreeUntilMatch(delims, s, i, m);
      } else {
        PiecesAreFree(delims, s, j + |d|, k - 1, m);
      }
    }
  }

  // ---------------------------------------------------------------- one delimiter: split against join

  function Join(d: string, pieces: seq<string>): string
    requires pieces != []
  {
    if |pieces| == 1 then pieces[0] else pieces[0] + d + Join(d, pieces[1..])
  }

  function SplitBy(d: string, s: string): seq<string>
    requires d != ""
  {
    PartsFrom([d], s, 0).pieces
  }

  lemma {:induction false} JoinParts(d: string, s: string, i: nat)
    requires d != "" && i <= |s|
    ensures Join(d, PartsFrom([d], s, i).pieces) == s[i..]
    decreases |s| - i
  {
    hide PartsFrom, NextMatch, MatchAt, OccursAt, Join;
    var j := NextMatch([d], s, i);
    if j < |s| {
      OnlyMatch(d, s, j);
      PartsStep([d], s, i, j, d);
      JoinParts(d, s, j + |d|);
      JoinMore(d, s[i..j], PartsFrom([d], s, j + |d|).pieces);
      ThreeSlices(s, i, j, d);
    } else {
      PartsStep([d], s, i, j, "");
      JoinOne(d, s[i..]);
    }
  }

  lemma JoinOne(d: string, x: string)
    ensures Join(d, [x]) == x
  {
  }

  lemma JoinMore(d: string, x: string, more: seq<string>)
    requires more != []
    ensures Join(d, [x] + more) == x + d + Join(d, more)
  {
    assert ([x] + more)[1..] == more;
  }

  /** Main result: splitting by one delimiter and joining with it gives the text back. */
  lemma SplitThenJoin(d: string, s: string)
    requires d != ""
    ensures Join(d, SplitBy(d, s)) == s
    ensures forall k :: 0 <= k < |SplitBy(d, s)| ==> !Contains(SplitBy(d, s)[k], d)
  {
    JoinParts(d, s, 0);
    forall k | 0 <= k < |SplitBy(d, s)|
      ensures !Contains(SplitBy(d, s)[k], d)
    {
      PiecesAreFree([d], s, 0, k, 0);
    }
  }

  /** Joining does not blur where a piece ends: the delimiter first occurs in `piece + d` after the
      whole piece, and not at all in the last piece. */
  predicate Clean(d: string, pieces: seq<string>) {
    && pieces != [] && !Contains(pieces[|pieces| - 1], d)
    && forall k :: 0 <= k < |pieces| - 1 ==> NextMatch([d], pieces[k] + d, 0) == |pieces[k]|
  }

  lemma FirstMatch(d: string, s: string, j: nat)
    requires d != "" && j <= |s|
    ensures NextMatch([d], s, 0) == j <==>
              (j == |s| || OccursAt(d, s, j)) && forall q: nat :: q < j ==> !OccursAt(d, s, q)
  {
    assert [d][0] == d;
    var r := NextMatch([d], s, 0);
    assert forall q: nat {:trigger OccursAt(d, s, q)} :: MatchAt([d], s, q).None? <==> !OccursAt([d][0], s, q);
    if r < j {
      assert OccursAt(d, s, r);
    } else if j < r {
      assert !OccursAt(d, s, j);
    }
  }

  lemma OccursInPrefix(d: string, a: string, rest: string, q: nat)
    requires q + |d| <= |a|
    ensures OccursAt(d, a + rest, q) <==> OccursAt(d, a, q)
  {
    assert (a + rest)[q..q + |d|] == a[q..q + |d|];
  }

  /** The first match in `x + d + rest` is right after `x` exactly when it is in `x + d`. */
  lemma FirstMatchLocal(d: string, x: string, rest: string)
    requires d != ""
    ensures NextMatch([d], x + d + rest, 0) == |x| <==> NextMatch([d], x + d, 0) == |x|
  {
    FirstMatch(d, x + d + rest, |x|);
    FirstMatch(d, x + d, |x|);
    assert (x + d)[|x|..|x| + |d|] == d;
    forall q: nat | q <= |x|
      ensures OccursAt(d, x + d + rest, q) <==> OccursAt(d, x + d, q)
    {
      OccursInPrefix(d, x + d, rest, q);
    }
  }

  lemma OccursInSuffix(delims: seq<string>, s: string, i: nat, q: nat)
    requires i <= |s|
    ensures MatchAt(delims, s, i + q) == MatchAt(delims, s[i..], q)
  {
    forall k | 0 <= k < |delims|
      ensures OccursAt(delims[k], s, i + q) <==> OccursAt(delims[k], s[i..], q)
    {
      if i + q + |delims[k]| <= |s| {
        assert s[i..][q..q + |delims[k]|] == s[i + q..i + q + |delims[k]|];
      }
    }
  }

  lemma {:induction false} NextMatchShift(delims: seq<string>, s: string, i: nat, q: nat)
    requires i + q <= |s|
    ensures NextMatch(delims, s, i + q) == i + NextMatch(delims, s[i..], q)
    decreases |s| - i - q
  {
    hide MatchAt;
    OccursInSuffix(delims, s, i, q);
    if i + q < |s| && MatchAt(delims, s, i + q).None? {
      NextMatchShift(delims, s, i, q + 1);
    }
  }

  /** Splitting from a position on is splitting the rest of the text. */
  lemma {:induction false} PartsShift(delims: seq<string>, s: string, i: nat, q: nat)
    requires Usable(delims) && i + q <= |s|
    ensures PartsFrom(delims, s, i + q) == PartsFrom(delims, s[i..], q)
    decreases |s| - i - q
  {
    hide MatchAt, NextMatch, PartsFrom, OccursAt;
    NextMatchShift(delims, s, i, q);
    var rest := s[i..];
    var j := NextMatch(delims, rest, q);
    if j < |rest| {
      OccursInSuffix(delims, s, i, j);
      var d := delims[MatchAt(delims, rest, j).value];
      PartsStep(delims, rest, q, j, d);
      PartsStep(delims, s, i + q, i + j, d);
      PartsShift(delims, s, i, j + |d|);
      assert rest[q..j] == s[i + q..i + j];
    } else {
      PartsStep(delims, rest, q, j, "");
      PartsStep(delims, s, i + q, i + j, "");
      assert rest[q..] == s[i + q..];
    }
  }

  lemma OnlyMatch(d: string, s: string, j: nat)
    requires MatchAt([d], s, j).Some?
    ensures [d][MatchAt([d], s, j).value] == d
  {
  }

  lemma SplitOne(d: string, s: string)
    requires d != ""
    ensures SplitBy(d, s) == [s] <==> !Contains(s, d)
  {
    FirstMatch(d, s, |s|);
    hide NextMatch, PartsFrom;
    var j := NextMatch([d], s, 0);
    if j < |s| {
      OnlyMatch(d, s, j);
      PartsStep([d], s, 0, j, d);
      assert OccursAt(d, s, j);
    } else {
      PartsStep([d], s, 0, j, "");
      assert s[0..] == s;
      assert forall q: nat :: q <= |s| ==> !OccursAt(d, s, q);
    }
  }

  lemma SplitFromZero(d: string, s: string, i: nat)
    requires d != "" && i <= |s|
    ensures PartsFrom([d], s, i).pieces == SplitBy(d, s[i..])
  {
    hide PartsFrom;
    PartsShift([d], s, i, 0);
  }

  /** The first piece of a text that holds the delimiter. */
  lemma SplitFirst(d: string, s: string, j: nat)
    requires d != "" && j == NextMatch([d], s, 0) && j < |s|
    ensures j + |d| <= |s| && SplitBy(d, s) == [s[..j]] + SplitBy(d, s[j + |d|..])
  {
    hide NextMatch, PartsFrom, OccursAt, MatchAt, SplitBy;
    OnlyMatch(d, s, j);
    PartsStep([d], s, 0, j, d);
    SplitFromZero(d, s, j + |d|);
    SplitFromZero(d, s, 0);
    assert s[0..j] == s[..j] && s[0..] == s;
  }

  lemma MatchesByEnd(d: string, x: string, rest: string)
    requires d != ""
    ensures NextMatch([d], x + d + rest, 0) <= |x|
  {
    var s := x + d + rest;
    FirstMatch(d, s, NextMatch([d], s, 0));
    hide NextMatch;
    assert s[|x|..|x| + |d|] == d;
    assert OccursAt(d, s, |x|);
  }

  lemma SplitMore(d: string, x: string, rest: string)
    requires d != ""
    ensures var s := x + d + rest;
            && |SplitBy(d, s)| > 1
            && (SplitBy(d, s)[0] == x <==> NextMatch([d], x + d, 0) == |x|)
            && (SplitBy(d, s)[0] == x ==> SplitBy(d, s)[1..] == SplitBy(d, rest))
  {
    hide NextMatch, SplitBy, OccursAt;
    var s := x + d + rest;
    FirstMatchLocal(d, x, rest);
    MatchesByEnd(d, x, rest);
    var j := NextMatch([d], s, 0);
    SplitFirst(d, s, j);
    SplitNonEmpty(d, s[j + |d|..]);
    assert s[..|x|] == x && s[|x| + |d|..] == rest;
    assert |s[..j]| == j;
  }

  lemma SplitNonEmpty(d: string, s: string)
    requires d != ""
    ensures |SplitBy(d, s)| >= 1
  {
  }

  /** Main result: joining pieces and splitting again gives the pieces back exactly when the
      delimiter nowhere occurs before the end of a piece. */
  lemma {:induction false} JoinThenSplit(d: string, pieces: seq<string>)
    requires d != "" && pieces != []
    ensures SplitBy(d, Join(d, pieces)) == pieces <==> Clean(d, pieces)
    decreases |pieces|
  {
    hide SplitBy, NextMatch, Contains;
    if |pieces| == 1 {
      assert pieces == [pieces[0]];
      SplitOne(d, pieces[0]);
    } else {
      var x, more := pieces[0], pieces[1..];
      JoinThenSplit(d, more);
      SplitMore(d, x, Join(d, more));
      var again := SplitBy(d, Join(d, pieces));
      assert again == [again[0]] + again[1..] && pieces == [x] + more;
      CleanStep(d, pieces);
    }
  }

  lemma CleanStep(d: string, pieces: seq<string>)
    requires d != "" && |pieces| > 1
    ensures Clean(d, pieces) <==> NextMatch([d], pieces[0] + d, 0) == |pieces[0]| && Clean(d, pieces[1..])
  {
    hide NextMatch, Contains;
    var more := pieces[1..];
    assert forall k :: 0 <= k < |more| ==> more[k] == pieces[k + 1];
    if Clean(d, more) && NextMatch([d], pieces[0] + d, 0) == |pieces[0]| {
      forall k | 0 <= k < |pieces| - 1
        ensures NextMatch([d], pieces[k] + d, 0) == |pieces[k]|
      {
        if k > 0 {
          assert more[k - 1] == pieces[k];
        }
      }
    }
  }
}
