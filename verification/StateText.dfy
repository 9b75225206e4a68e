/** Byte-limited truncation of text in its UTF-8 form (widths as in section 3 of RFC 3629). */
module StateText {
  import opened Prelude

  function Width(c: char): nat {
    var n := c as int;
    if n < 0x80 then 1 else if n < 0x800 then 2 else if n < 0x10000 then 3 else 4
  }

  /** The number of bytes of the UTF-8 form. */
  function Bytes(s: string): nat {
    if s == "" then 0 else Bytes(s[..|s| - 1]) + Width(s[|s| - 1])
  }

  const SUFFIX := "...[truncated]"

  /** `n` is the length of the longest prefix of `s` that fits, or 0 when not even "" fits. */
  predicate LongestPrefix(s: string, maxBytes: int, n: nat) {
    && n <= |s| && (n == 0 || Bytes(s[..n]) <= maxBytes)
    && forall m :: n < m <= |s| ==> Bytes(s[..m]) > maxBytes
  }

  function PrefixLen(s: string, maxBytes: int): nat {
    if s == "" || Bytes(s) <= maxBytes then |s| else PrefixLen(s[..|s| - 1], maxBytes)
  }

  /** The suffix, cut to the bytes the prefix leaves free, if it leaves any. */
  function Suffix(room: int): string {
    if 0 < room < |SUFFIX| then SUFFIX[..room] else SUFFIX
  }

  function Truncated(s: string, maxBytes: int): string {
    if Bytes(s) <= maxBytes then s else
    var n := PrefixLen(s, maxBytes);
    PrefixIsPrefix(s, maxBytes);
    s[..n] + Suffix(maxBytes - Bytes(s[..n]))
  }

  lemma {:induction false} BytesConcat(a: string, b: string)
    ensures Bytes(a + b) == Bytes(a) + Bytes(b)
  {
    if b == "" {
      assert a + b == a;
    } else {
      assert (a + b)[..|a + b| - 1] == a + b[..|b| - 1];
      BytesConcat(a, b[..|b| - 1]);
    }
  }

  lemma BytesMonotonic(s: string, m: nat, n: nat)
    requires m <= n <= |s|
    ensures Bytes(s[..m]) + (n - m) <= Bytes(s[..n]) <= Bytes(s[..m]) + 4 * (n - m)
  {
    assert s[..n] == s[..m] + s[m..n];
    BytesConcat(s[..m], s[m..n]);
    BytesBounds(s[m..n]);
  }

  lemma {:induction false} BytesBounds(s: string)
    ensures |s| <= Bytes(s) <= 4 * |s|
  {
    if s != "" {
      BytesBounds(s[..|s| - 1]);
    }
  }

  lemma {:induction false} PrefixIsPrefix(s: string, maxBytes: int)
    ensures PrefixLen(s, maxBytes) <= |s|
  {
    if s != "" && Bytes(s) > maxBytes {
      PrefixIsPrefix(s[..|s| - 1], maxBytes);
    }
  }

  lemma {:induction false} PrefixIsLongest(s: string, maxBytes: int)
    ensures LongestPrefix(s, maxBytes, PrefixLen(s, maxBytes))
  {
    if s != "" && Bytes(s) > maxBytes {
      var front := s[..|s| - 1];
      PrefixIsLongest(front, maxBytes);
      var n := PrefixLen(s, maxBytes);
      assert front[..n] == s[..n];
      forall m | n < m <= |s|
        ensures Bytes(s[..m]) > maxBytes
      {
        if m < |s| {
          assert front[..m] == s[..m];
        } else {
          assert s[..m] == s;
        }
      }
    } else {
      assert s[..|s|] == s;
    }
  }

  lemma LongestIsUnique(s: string, maxBytes: int, m: nat, n: nat)
    requires LongestPrefix(s, maxBytes, m) && LongestPrefix(s, maxBytes, n)
    ensures m == n
  {
  }

  lemma FitsUpTo(s: string, maxBytes: int, n: nat, m: nat)
    requires LongestPrefix(s, maxBytes, n) && 0 < m <= |s|
    ensures Bytes(s[..m]) <= maxBytes <==> m <= n
  {
    if m <= n {
      BytesMonotonic(s, m, n);
    }
  }

  /** The binary search for the longest prefix that fits. */
  method TruncateText(text: string, maxBytes: int) returns (r: string)
    ensures r == Truncated(text, maxBytes)
  {
    if Bytes(text) <= maxBytes {
      return text;
    }
    hide Bytes, LongestPrefix, PrefixLen;
    PrefixIsPrefix(text, maxBytes);
    PrefixIsLongest(text, maxBytes);
    ghost var n := PrefixLen(text, maxBytes);
    var lo: nat, hi: nat := 0, |text|;
    while lo < hi
      invariant lo <= n <= hi <= |text|
    {
      var mid := (lo + hi + 1) / 2;
      FitsUpTo(text, maxBytes, n, mid);
      if Bytes(text[..mid]) <= maxBytes {
        lo := mid;
      } else {
        hi := mid - 1;
      }
    }
    var prefix := text[..lo];
    var suffix := SUFFIX;
    var room := maxBytes - Bytes(prefix);
    if room > 0 {
      suffix := if room < |SUFFIX| then SUFFIX[..room] else SUFFIX;
    }
    r := prefix + suffix;
  }

  // ---------------------------------------------------------------- what truncation gives

  lemma {:induction false} AsciiBytes(s: string)
    requires forall i :: 0 <= i < |s| ==> s[i] as int < 0x80
    ensures Bytes(s) == |s|
  {
    if s != "" {
      AsciiBytes(s[..|s| - 1]);
    }
  }

  lemma SuffixBytes(room: int)
    ensures Bytes(Suffix(room)) == |Suffix(room)| == (if 0 < room < 14 then room else 14)
  {
    assert |SUFFIX| == 14 && forall i :: 0 <= i < 14 ==> SUFFIX[i] as int < 0x80;
    AsciiBytes(Suffix(room));
  }

  /** A character straddles the limit: the longest prefix that fits leaves bytes free. */
  predicate Straddles(text: string, maxBytes: int) {
    PrefixIsPrefix(text, maxBytes);
    0 < maxBytes - Bytes(text[..PrefixLen(text, maxBytes)])
  }

  /** What a longest prefix leaves free is less than one character's width. */
  lemma RoomIsSmall(text: string, maxBytes: int, n: nat)
    requires Bytes(text) > maxBytes && LongestPrefix(text, maxBytes, n)
    ensures maxBytes - Bytes(text[..n]) < 4
    ensures n > 0 || maxBytes >= 0 ==> maxBytes - Bytes(text[..n]) >= 0
    ensures n == 0 ==> Bytes(text[..n]) == 0
  {
    assert text[..|text|] == text && text[..0] == "";
    if n < |text| {
      BytesMonotonic(text, n, n + 1);
    }
  }

  /** A truncated text has exactly the allowed bytes if a character straddled the limit; otherwise
      the whole 14-byte suffix comes on top of a full prefix (of nothing, for a negative limit). */
  lemma TruncatedSize(text: string, maxBytes: int)
    requires Bytes(text) > maxBytes
    ensures Bytes(Truncated(text, maxBytes)) ==
              if Straddles(text, maxBytes) then maxBytes else (if maxBytes > 0 then maxBytes else 0) + 14
  {
    var n := PrefixLen(text, maxBytes);
    PrefixIsPrefix(text, maxBytes);
    PrefixIsLongest(text, maxBytes);
    var room := maxBytes - Bytes(text[..n]);
    hide Bytes, LongestPrefix, PrefixLen, Suffix;
    BytesConcat(text[..n], Suffix(room));
    SuffixBytes(room);
    RoomIsSmall(text, maxBytes, n);
  }

  /** The prefix kept by a truncation, and that no longer one fits. */
  lemma TruncatedKeepsLongestPrefix(text: string, maxBytes: int)
    requires Bytes(text) > maxBytes
    ensures exists n: nat :: LongestPrefix(text, maxBytes, n) &&
              Truncated(text, maxBytes) == text[..n] + Suffix(maxBytes - Bytes(text[..n]))
  {
    PrefixIsPrefix(text, maxBytes);
    PrefixIsLongest(text, maxBytes);
  }

  /** Truncating twice is truncating once. */
  lemma TruncateTwice(text: string, maxBytes: int)
    ensures Truncated(Truncated(text, maxBytes), maxBytes) == Truncated(text, maxBytes)
  {
    if Bytes(text) > maxBytes {
      TruncatedSize(text, maxBytes);
      if !Straddles(text, maxBytes) {
        var n := PrefixLen(text, maxBytes);
        PrefixIsPrefix(text, maxBytes);
        PrefixIsLongest(text, maxBytes);
        assert text[..0] == "";
        var again := text[..n] + SUFFIX;
        assert again[..n] == text[..n];
        forall m | n < m <= |again|
          ensures Bytes(again[..m]) > maxBytes
        {
          BytesMonotonic(again, n, m);
        }
        PrefixIsPrefix(again, maxBytes);
        PrefixIsLongest(again, maxBytes);
        LongestIsUnique(again, maxBytes, n, PrefixLen(again, maxBytes));
      }
    }
  }

  /** `r` is `text`, or, if that is too long, its longest prefix that fits followed by as much of the suffix as there
      are bytes left, all of it if there are none. */
  ghost predicate IsTruncation(text: string, maxBytes: int, r: string) {
    if Bytes(text) <= maxBytes then r == text else
    exists n: nat, tail: string {:trigger LongestPrefix(text, maxBytes, n), text[..n] + tail} ::
      LongestPrefix(text, maxBytes, n) && r == text[..n] + tail && IsTail(tail, maxBytes - Bytes(text[..n]))
  }

  predicate IsTail(tail: string, room: int) {
    tail <= "...[truncated]" && (if 0 < room then |tail| == room || |tail| == 14 <= room else |tail| == 14)
  }

  /** Truncation, said of the text alone. */
  lemma TruncatedExactly(text: string, maxBytes: int)
    ensures IsTruncation(text, maxBytes, Truncated(text, maxBytes))
  {
    if Bytes(text) > maxBytes {
      var n := PrefixLen(text, maxBytes);
      PrefixIsPrefix(text, maxBytes);
      PrefixIsLongest(text, maxBytes);
      var room := maxBytes - Bytes(text[..n]);
      var tail := Suffix(room);
      assert |SUFFIX| == 14;
      assert IsTail(tail, room);
      assert Truncated(text, maxBytes) == text[..n] + tail;
    }
  }

  /** The bytes of a text are those of its characters; a character takes one to four, by the ranges of the standard. */
  lemma BytesExactly(s: string, c: char)
    ensures Bytes("") == 0 && Bytes(s + [c]) == Bytes(s) + Bytes([c])
    ensures var n, b := c as int, Bytes([c]);
            && (n <= 0x7F ==> b == 1) && (0x80 <= n <= 0x7FF ==> b == 2)
            && (0x800 <= n <= 0xFFFF ==> b == 3) && (0x10000 <= n ==> b == 4)
  {
    assert (s + [c])[..|s|] == s && [c][..0] == "";
  }
}
