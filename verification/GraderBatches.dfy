/** Packing evaluation items into LLM calls: greedy, in order, under a size and a token limit. */
module GraderBatches {
  import opened Prelude

  datatype Item = Item(docIndex: nat, text: string)

  /** The limits of one call; `tokens` is the tokenizer. */
  datatype Limits = Limits(size: nat, room: int, tokens: string -> nat)

  function Cost(l: Limits, item: Item): nat { l.tokens(item.text) }

  function Total(l: Limits, items: seq<Item>): nat {
    if items == [] then 0 else Total(l, items[..|items| - 1]) + Cost(l, items[|items| - 1])
  }

  /** A batch the limits allow: within both of them, or a single item. */
  predicate Fits(l: Limits, batch: seq<Item>) {
    |batch| == 1 || (1 <= |batch| <= l.size && Total(l, batch) <= l.room)
  }

  /** An order-preserving split of `items` into allowed batches. */
  predicate Splits(l: Limits, items: seq<Item>, batches: seq<seq<Item>>) {
    Concat(batches) == items && forall b :: 0 <= b < |batches| ==> Fits(l, batches[b])
  }

  /** How far a batch of the first `n` items, costing `total`, can be extended. */
  function Grow(l: Limits, items: seq<Item>, n: nat, total: nat): (r: nat)
    requires n <= |items|
    ensures n <= r <= |items|
    decreases |items| - n
  {
    if n < |items| && n < l.size && total + Cost(l, items[n]) <= l.room
    then Grow(l, items, n + 1, total + Cost(l, items[n])) else n
  }

  function FirstLen(l: Limits, items: seq<Item>): (r: nat)
    requires items != []
    ensures 1 <= r <= |items|
  {
    Grow(l, items, 1, Cost(l, items[0]))
  }

  /** The batches the greedy packing makes. */
  function Batches(l: Limits, items: seq<Item>): seq<seq<Item>>
    decreases |items|
  {
    if items == [] then [] else
    var f := FirstLen(l, items);
    [items[..f]] + Batches(l, items[f..])
  }

  /** The packing loop; an empty list still makes one (empty) call. */
  method SplitItemsIntoBatches(items: seq<Item>, batchSize: nat, maxBatchSize: nat, maxTokens: nat,
                               queryTokens: nat, promptTokens: nat, tokens: string -> nat)
    returns (batches: seq<seq<Item>>, ghost l: Limits)
    requires batchSize > 0 && maxBatchSize > 0
    ensures l.tokens == tokens && l.size == (if batchSize < maxBatchSize then batchSize else maxBatchSize)
    ensures var room := maxTokens - queryTokens - promptTokens;
            l.room == if room > 0 then room else maxTokens / 2
    ensures items == [] ==> batches == [[]]
    ensures items != [] ==> batches == Batches(l, items)
  {
    var size := if batchSize < maxBatchSize then batchSize else maxBatchSize;
    var available := maxTokens - queryTokens - promptTokens;
    if available <= 0 {
      available := maxTokens / 2;
    }
    l := Limits(size, available, tokens);
    hide Packed, Batches;
    batches := [];
    var current: seq<Item>, currentTokens: nat := [], 0;
    var k := 0;
    while k < |items|
      invariant 0 <= k <= |items|
      invariant Packing(batches, current, currentTokens) == PackAll(l, items[..k])
    {
      var item := items[k];
      var itemTokens := tokens(item.text);
      assert items[..k + 1][..k] == items[..k];
      if current != [] && (|current| >= size || currentTokens + itemTokens > available) {
        batches := batches + [current];
        current := [];
        currentTokens := 0;
      }
      current := current + [item];
      currentTokens := currentTokens + itemTokens;
      k := k + 1;
    }
    assert items[..k] == items;
    PackAllMakesBatches(l, items);
    if current != [] {
      batches := batches + [current];
    }
    if batches == [] {
      batches := [[]];
    }
  }

  /** The loop's variables: the batches closed so far, the open one and its cost. */
  datatype Packing = Packing(closed: seq<seq<Item>>, open: seq<Item>, cost: nat)

  function Place(l: Limits, p: Packing, item: Item): Packing {
    var c := Cost(l, item);
    var q := if p.open != [] && (|p.open| >= l.size || p.cost + c > l.room)
             then Packing(p.closed + [p.open], [], 0) else p;
    Packing(q.closed, q.open + [item], q.cost + c)
  }

  function PackAll(l: Limits, items: seq<Item>): Packing {
    if items == [] then Packing([], [], 0) else Place(l, PackAll(l, items[..|items| - 1]), items[|items| - 1])
  }

  /** What remains to be packed when the batch `current` is open. */
  ghost function Rest(l: Limits, current: seq<Item>, total: nat, rest: seq<Item>): seq<seq<Item>> {
    if current == [] then Batches(l, rest) else
    var all := current + rest;
    var f := Grow(l, all, |current|, total);
    [all[..f]] + Batches(l, all[f..])
  }

  /** Packing one item: it joins the open batch, or closes it and opens the next one. */
  lemma RestStep(l: Limits, current: seq<Item>, total: nat, rest: seq<Item>)
    requires rest != []
    ensures var c := Cost(l, rest[0]);
            Rest(l, current, total, rest) ==
            if current != [] && (|current| >= l.size || total + c > l.room)
            then [current] + Rest(l, [rest[0]], c, rest[1..])
            else Rest(l, current + [rest[0]], (if current == [] then 0 else total) + c, rest[1..])
  {
    assert [rest[0]] + rest[1..] == rest && [] + [rest[0]] == [rest[0]];
    if current != [] {
      var all := current + rest;
      assert all[|current|] == rest[0] && all[..|current|] == current && all[|current|..] == rest;
      assert (current + [rest[0]]) + rest[1..] == all;
    }
  }

  /** All batches, those already closed and those still to be packed. */
  ghost function Packed(l: Limits, closed: seq<seq<Item>>, current: seq<Item>, total: nat, rest: seq<Item>): seq<seq<Item>> {
    closed + Rest(l, current, total, rest)
  }

  lemma PackStep(l: Limits, closed: seq<seq<Item>>, current: seq<Item>, total: nat, rest: seq<Item>)
    requires rest != [] && (current == [] ==> total == 0)
    ensures var c := Cost(l, rest[0]);
            Packed(l, closed, current, total, rest) ==
            if current != [] && (|current| >= l.size || total + c > l.room)
            then Packed(l, closed + [current], [] + [rest[0]], c, rest[1..])
            else Packed(l, closed, current + [rest[0]], total + c, rest[1..])
  {
    hide Rest;
    RestStep(l, current, total, rest);
    assert [] + [rest[0]] == [rest[0]];
    var later := Rest(l, [rest[0]], Cost(l, rest[0]), rest[1..]);
    assert closed + ([current] + later) == (closed + [current]) + later;
  }

  lemma PackEnd(l: Limits, closed: seq<seq<Item>>, current: seq<Item>, total: nat, rest: seq<Item>)
    requires rest == []
    ensures Packed(l, closed, current, total, rest) == if current == [] then closed else closed + [current]
  {
    assert current + [] == current && current[..|current|] == current;
  }

  lemma {:induction false} PackAllInvariant(l: Limits, items: seq<Item>, k: nat)
    requires k <= |items|
    ensures var p := PackAll(l, items[..k]);
            (p.open == [] ==> k == 0 && p.closed == [] && p.cost == 0) &&
            Packed(l, p.closed, p.open, p.cost, items[k..]) == Batches(l, items)
  {
    hide Packed, Batches;
    if k == 0 {
      assert items[0..] == items;
      PackedAtStart(l, items);
    } else {
      PackAllInvariant(l, items, k - 1);
      assert items[..k][..k - 1] == items[..k - 1];
      assert items[k - 1..][1..] == items[k..];
      var p := PackAll(l, items[..k - 1]);
      PackStep(l, p.closed, p.open, p.cost, items[k - 1..]);
    }
  }

  lemma PackedAtStart(l: Limits, items: seq<Item>)
    ensures Packed(l, [], [], 0, items) == Batches(l, items)
  {
    assert [] + Batches(l, items) == Batches(l, items);
  }

  lemma PackAllMakesBatches(l: Limits, items: seq<Item>)
    ensures var p := PackAll(l, items);
            (p.open == [] <==> items == []) && (p.open == [] ==> p.closed == []) &&
            Batches(l, items) == if p.open == [] then p.closed else p.closed + [p.open]
  {
    hide Packed, Batches;
    assert items[..|items|] == items && items[|items|..] == [];
    PackAllInvariant(l, items, |items|);
    var p := PackAll(l, items);
    PackEnd(l, p.closed, p.open, p.cost, []);
  }

  // ---------------------------------------------------------------- the greedy packing is a legal split

  lemma {:induction false} GrowFits(l: Limits, items: seq<Item>, n: nat, total: nat)
    requires 1 <= n <= |items| && total == Total(l, items[..n]) && Fits(l, items[..n])
    ensures Fits(l, items[..Grow(l, items, n, total)])
    decreases |items| - n
  {
    if n < |items| && n < l.size && total + Cost(l, items[n]) <= l.room {
      assert items[..n + 1][..n] == items[..n];
      GrowFits(l, items, n + 1, total + Cost(l, items[n]));
    }
  }

  lemma TotalOfOne(l: Limits, item: Item)
    ensures Total(l, [item]) == Cost(l, item)
  {
    assert Total(l, [item]) == Total(l, [item][..0]) + Cost(l, item);
  }

  lemma FirstFits(l: Limits, items: seq<Item>)
    requires items != []
    ensures Fits(l, items[..FirstLen(l, items)])
  {
    assert items[..1] == [items[0]];
    TotalOfOne(l, items[0]);
    GrowFits(l, items, 1, Cost(l, items[0]));
  }

  lemma {:induction false} GreedySplits(l: Limits, items: seq<Item>)
    ensures Splits(l, items, Batches(l, items))
    decreases |items|
  {
    if items != [] {
      var f := FirstLen(l, items);
      FirstFits(l, items);
      GreedySplits(l, items[f..]);
      assert Batches(l, items)[1..] == Batches(l, items[f..]);
      assert items[..f] + items[f..] == items;
    }
  }

  // ---------------------------------------------------------------- and no legal split has fewer batches

  lemma {:induction false} TotalPrefix(l: Limits, items: seq<Item>, n: nat)
    requires n <= |items|
    ensures Total(l, items[..n]) <= Total(l, items)
    decreases |items|
  {
    if n < |items| {
      var front := items[..|items| - 1];
      TotalPrefix(l, front, n);
      assert front[..n] == items[..n];
    } else {
      assert items[..n] == items;
    }
  }

  lemma {:induction false} TotalTail(l: Limits, items: seq<Item>)
    requires items != []
    ensures Total(l, items[1..]) <= Total(l, items)
    decreases |items|
  {
    if |items| > 1 {
      var front := items[..|items| - 1];
      TotalTail(l, front);
      assert items[1..][..|items| - 2] == front[1..];
    }
  }

  lemma {:induction false} GrowIsLongest(l: Limits, items: seq<Item>, n: nat, total: nat, m: nat)
    requires 1 <= n <= m <= |items| && total == Total(l, items[..n]) && Fits(l, items[..m])
    ensures m <= Grow(l, items, n, total)
    decreases m - n
  {
    if n < m {
      assert items[..m][..n + 1] == items[..n + 1] && items[..n + 1][..n] == items[..n];
      TotalPrefix(l, items[..m], n + 1);
      GrowIsLongest(l, items, n + 1, total + Cost(l, items[n]), m);
    }
  }

  /** No allowed first batch is longer than the greedy one. */
  lemma FirstIsLongest(l: Limits, items: seq<Item>, m: nat)
    requires 1 <= m <= |items| && Fits(l, items[..m])
    ensures m <= FirstLen(l, items)
  {
    assert items[..1] == [items[0]];
    TotalOfOne(l, items[0]);
    GrowIsLongest(l, items, 1, Cost(l, items[0]), m);
  }

  /** Batch `b` has no room for the first item of the next one. */
  predicate FullAt(l: Limits, batches: seq<seq<Item>>, b: nat)
    requires b + 1 < |batches|
  {
    batches[b + 1] != [] && !Fits(l, batches[b] + [batches[b + 1][0]])
  }

  /** Every greedy batch but the last is full, so no batch is closed before one of the limits asks for it. */
  lemma {:induction false} GreedyIsFull(l: Limits, items: seq<Item>)
    ensures forall b: nat :: b + 1 < |Batches(l, items)| ==> FullAt(l, Batches(l, items), b)
    decreases |items|
  {
    if items != [] {
      hide Fits;
      var f := FirstLen(l, items);
      var rest, all := Batches(l, items[f..]), Batches(l, items);
      GreedyIsFull(l, items[f..]);
      assert all == [items[..f]] + rest;
      hide Batches;
      if f < |items| {
        assert rest != [] && rest[0] != [] && rest[0][0] == items[f] by { FirstBatch(l, items[f..]); }
        assert items[..f] + [items[f]] == items[..f + 1];
        if Fits(l, items[..f + 1]) {
          FirstIsLongest(l, items, f + 1);
        }
        assert FullAt(l, all, 0);
      }
      forall b: nat | b + 1 < |all|
        ensures FullAt(l, all, b)
      {
        if b > 0 {
          assert FullAt(l, rest, b - 1);
        } else {
          assert f < |items| by { NoBatches(l); }
        }
      }
    }
  }

  lemma FirstBatch(l: Limits, items: seq<Item>)
    requires items != []
    ensures Batches(l, items) != [] && Batches(l, items)[0] != [] && Batches(l, items)[0][0] == items[0]
  {
    hide Fits;
  }

  lemma NoBatches(l: Limits)
    ensures Batches(l, []) == []
  {
  }

  lemma TailFits(l: Limits, batch: seq<Item>)
    requires Fits(l, batch) && |batch| > 1
    ensures Fits(l, batch[1..])
  {
    TotalTail(l, batch);
  }

  /** Fewer items never need more batches. */
  lemma {:induction false} DropOne(l: Limits, items: seq<Item>)
    requires items != []
    ensures |Batches(l, items[1..])| <= |Batches(l, items)|
    decreases |items|, 0
  {
    hide Fits, FirstLen;
    var f := FirstLen(l, items);
    if f > 1 {
      FirstFits(l, items);
      assert items[1..][..f - 1] == items[..f][1..];
      TailFits(l, items[..f]);
      FirstIsLongest(l, items[1..], f - 1);
      var f' := FirstLen(l, items[1..]);
      assert items[1..][f'..] == items[f..][1 + f' - f..];
      DropSome(l, items[f..], 1 + f' - f);
    }
  }

  lemma {:induction false} DropSome(l: Limits, items: seq<Item>, n: nat)
    requires n <= |items|
    ensures |Batches(l, items[n..])| <= |Batches(l, items)|
    decreases |items|, 1
  {
    if n > 0 {
      DropOne(l, items);
      DropSome(l, items[1..], n - 1);
      assert items[1..][n - 1..] == items[n..];
    } else {
      assert items[n..] == items;
    }
  }

  /** Main result: the greedy packing is a legal split and needs no more calls than any other one. */
  lemma {:induction false} GreedyIsOptimal(l: Limits, items: seq<Item>, other: seq<seq<Item>>)
    requires Splits(l, items, other)
    ensures Splits(l, items, Batches(l, items)) && |Batches(l, items)| <= |other|
    decreases |other|
  {
    GreedySplits(l, items);
    if items != [] {
      var m := |other[0]|;
      assert items == other[0] + Concat(other[1..]);
      assert items[..m] == other[0] && items[m..] == Concat(other[1..]);
      assert forall b :: 0 <= b < |other[1..]| ==> other[1..][b] == other[b + 1];
      GreedyIsOptimal(l, items[m..], other[1..]);
      FirstIsLongest(l, items, m);
      var f := FirstLen(l, items);
      assert items[m..][f - m..] == items[f..];
      DropSome(l, items[m..], f - m);
    }
  }
}
