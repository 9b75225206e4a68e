/**
 RAPTOR: chunks are clustered and summarized layer by layer until one root is left. The
 summaries of a layer run concurrently and append to one shared list in completion order.
 */
module Raptor {
  import opened Prelude

  datatype Chunk = Chunk(text: string, embedding: seq<real>)

  /**
   The answers of the models. `best(level, n)` picks one of the n cluster counts tried on a layer,
   `cluster(level, size, i, k)` the first of k clusters that chunk i of a layer of `size` chunks belongs
   to with enough probability (None: there is none), `summary` the summary of a cluster (None: it
   failed) and `order` the completion order of a layer's tasks.
   */
  datatype Models = Models(
    best: (nat, nat) -> nat,
    cluster: (nat, nat, nat, nat) -> Option<nat>,
    summary: (nat, nat) -> Option<Chunk>,
    order: (nat, nat) -> seq<nat>)

  ghost predicate LegalModels(m: Models) {
    && (forall level: nat, n: nat {:trigger m.best(level, n)} :: n > 0 ==> m.best(level, n) < n)
    && (forall level: nat, size: nat, i: nat, k: nat {:trigger m.cluster(level, size, i, k)} ::
          m.cluster(level, size, i, k).Some? ==> m.cluster(level, size, i, k).value < k)
    && (forall level: nat, k: nat {:trigger m.order(level, k)} :: Permutes(m.order(level, k), 0, k))
  }

  /** Every summary succeeds. */
  ghost predicate AllSummarized(m: Models) {
    forall level: nat, c: nat {:trigger m.summary(level, c)} :: m.summary(level, c).Some?
  }

  /** How many clusters are made of a layer of `size` chunks, when there is a count to pick. */
  function ClusterCount(m: Models, maxCluster: int, level: nat, size: nat): nat
    requires maxCluster >= 2 && size >= 2
  {
    1 + m.best(level, (if maxCluster < size then maxCluster else size) - 1)
  }

  /** `count` is one more than the models' pick, where the counts tried on a layer of `size` chunks are those
      below `maxCluster` and below `size`. */
  ghost predicate PicksItsCount(m: Models, maxCluster: int, level: nat, size: nat, count: nat) {
    && (2 <= maxCluster <= size ==> count == 1 + m.best(level, maxCluster - 1))
    && (2 <= size <= maxCluster ==> count == 1 + m.best(level, size - 1))
  }

  /** Above a layer of three or more chunks there are as many as the models picked, fewer than the maximum;
      above two chunks there is one. */
  ghost predicate CountsArePicked(m: Models, maxCluster: int, layers: seq<(nat, nat)>) {
    forall l: nat :: l + 1 < |layers| ==> CountIsPicked(m, maxCluster, layers, l)
  }

  ghost predicate CountIsPicked(m: Models, maxCluster: int, layers: seq<(nat, nat)>, l: nat)
    requires l + 1 < |layers|
  {
    layers[l].0 <= layers[l].1 && layers[l + 1].0 <= layers[l + 1].1 &&
    var size, above := layers[l].1 - layers[l].0, layers[l + 1].1 - layers[l + 1].0;
    && (size >= 3 ==> 1 <= above < maxCluster && above < size && PicksItsCount(m, maxCluster, l, size, above))
    && (size == 2 ==> above == 1)
  }

  lemma SizesArePicked(m: Models, maxCluster: int, base: nat, layers: seq<(nat, nat)>)
    requires LegalModels(m) && SizesAre(m, maxCluster, base, layers)
    requires forall l :: 0 <= l < |layers| - 1 && layers[l].1 >= layers[l].0 + 3 ==> maxCluster >= 2
    ensures CountsArePicked(m, maxCluster, layers)
  {
    forall l: nat | l + 1 < |layers|
      ensures CountIsPicked(m, maxCluster, layers, l)
    {
      assert layers[l].1 == layers[l].0 + LayerSize(m, maxCluster, base, l);
      assert layers[l + 1].1 == layers[l + 1].0 + LayerSize(m, maxCluster, base, l + 1);
    }
  }

  /** The clustering of one layer takes every chunk and leaves no cluster empty. */
  ghost predicate LayerClustered(m: Models, maxCluster: int, level: nat, size: nat)
    requires maxCluster >= 2 && size >= 2
  {
    var k := ClusterCount(m, maxCluster, level, size);
    k == 1 || Clustered(m, level, size, k)
  }

  ghost predicate AllClustered(m: Models, maxCluster: int) {
    maxCluster >= 2 && forall level: nat, size: nat :: size >= 3 ==> LayerClustered(m, maxCluster, level, size)
  }

  ghost predicate Clustered(m: Models, level: nat, size: nat, k: nat) {
    && (forall i: nat :: i < size ==> m.cluster(level, size, i, k).Some?)
    && forall c: nat :: c < k ==> InUse(m, level, size, k, c)
  }

  ghost predicate InUse(m: Models, level: nat, size: nat, k: nat, c: nat) {
    exists i: nat :: i < size && m.cluster(level, size, i, k) == Some(c)
  }

  /** The clusters of one layer are all summarized. */
  ghost predicate LayerSummarized(m: Models, level: nat, k: nat) {
    forall c: nat :: c < k ==> m.summary(level, c).Some?
  }

  datatype Reason = TooManyErrors | SummaryMissing | EmptyCluster | NoLabel | NoClusterCount

  datatype Outcome = NothingToDo | Built | Aborted(reason: Reason)

  /** Chunks [lo, mid) under their summaries [mid, hi); `labels` are the chunks' clusters. */
  ghost predicate LayerOk(children: seq<set<nat>>, labels: seq<nat>, lo: nat, mid: nat, hi: nat) {
    && lo <= mid < hi <= |children| && mid <= |labels|
    && hi - mid < mid - lo
    && (forall i: nat :: lo <= i < mid ==> HasParent(children, mid, hi, i))
    && (forall j :: mid <= j < hi ==> children[j] != {} && forall x :: x in children[j] ==> lo <= x < mid)
    && (forall j, j', x :: mid <= j < hi && mid <= j' < hi && x in children[j] && x in children[j'] ==> j == j')
    && (forall j, x: nat, y: nat :: mid <= j < hi && lo <= x < mid && lo <= y < mid && x in children[j] ==>
          (y in children[j] <==> labels[x] == labels[y]))
  }

  ghost predicate HasParent(children: seq<set<nat>>, mid: nat, hi: nat, i: nat)
    requires hi <= |children|
  {
    exists j :: mid <= j < hi && i in children[j]
  }

  /** The layers tile the chunk list, and each one is summarized by the next. */
  ghost predicate Tree(layers: seq<(nat, nat)>, children: seq<set<nat>>, labels: seq<nat>) {
    && layers != [] && layers[0].0 == 0
    && (forall l :: 0 <= l < |layers| ==> layers[l].0 <= layers[l].1 <= |children|)
    && (forall l :: 0 <= l < |layers| - 1 ==> layers[l].1 == layers[l + 1].0)
    && (forall l :: 0 <= l < |layers| - 1 ==> LayerOk(children, labels, layers[l].0, layers[l].1, layers[l + 1].1))
  }

  function Members(labels: seq<nat>, c: nat, start: nat): (r: set<nat>)
    ensures forall x :: x in r <==> start <= x < start + |labels| && labels[x - start] == c
  {
    set i | 0 <= i < |labels| && labels[i] == c :: i + start
  }

  function Usable(chunks: seq<Chunk>): seq<Chunk> {
    if chunks == [] then [] else
    Usable(chunks[..|chunks| - 1]) +
      (var c := chunks[|chunks| - 1]; if c.text != "" && c.embedding != [] then [c] else [])
  }

  /** The summaries `more` of a layer labelled `lbls`: one per cluster, in the order `done`. */
  ghost predicate Summarized(lbls: seq<nat>, done: seq<nat>, more: seq<set<nat>>, start: nat) {
    && |more| == |done| && 0 < |done| < |lbls| && Permutes(done, 0, |done|)
    && (forall i :: 0 <= i < |lbls| ==> lbls[i] < |done|)
    && (forall c :: 0 <= c < |done| ==> c in lbls)
    && (forall u :: 0 <= u < |more| ==> more[u] == Members(lbls, done[u], start))
  }

  /** One more layer of summaries, in whatever order the clusters finished, extends the tree. */
  lemma LayerAdded(layers: seq<(nat, nat)>, children: seq<set<nat>>, labels: seq<nat>,
                   lbls: seq<nat>, done: seq<nat>, more: seq<set<nat>>)
    requires Tree(layers, children, labels)
    requires var (start, end) := layers[|layers| - 1];
             && |children| == end && |labels| == start && |lbls| == end - start
             && Summarized(lbls, done, more, start)
    ensures Tree(layers + [(|children|, |children| + |more|)], children + more, labels + lbls)
  {
    var (start, end) := layers[|layers| - 1];
    NewLayerOk(children, labels, lbls, done, more, start);
    var layers' := layers + [(end, end + |more|)];
    forall l | 0 <= l < |layers'| - 1
      ensures LayerOk(children + more, labels + lbls, layers'[l].0, layers'[l].1, layers'[l + 1].1)
    {
      if l < |layers| - 1 {
        LayerStays(children, more, labels, lbls, layers[l].0, layers[l].1, layers[l + 1].1);
      }
    }
  }

  lemma LayerStays(children: seq<set<nat>>, more: seq<set<nat>>, labels: seq<nat>, lbls: seq<nat>, lo: nat, mid: nat, hi: nat)
    requires LayerOk(children, labels, lo, mid, hi)
    ensures LayerOk(children + more, labels + lbls, lo, mid, hi)
  {
    var c2 := children + more;
    assert forall j :: mid <= j < hi ==> c2[j] == children[j];
    forall i: nat | lo <= i < mid
      ensures HasParent(c2, mid, hi, i)
    {
      assert HasParent(children, mid, hi, i);
      var j :| mid <= j < hi && i in children[j];
      assert i in c2[j];
    }
  }

  lemma NewLayerOk(children: seq<set<nat>>, labels: seq<nat>, lbls: seq<nat>, done: seq<nat>, more: seq<set<nat>>, start: nat)
    requires |labels| == start && |children| == start + |lbls|
    requires Summarized(lbls, done, more, start)
    ensures LayerOk(children + more, labels + lbls, start, |children|, |children| + |more|)
  {
    var mid := |children|;
    var c2, l2 := children + more, labels + lbls;
    assert forall j :: mid <= j < mid + |more| ==> c2[j] == Members(lbls, done[j - mid], start);
    assert forall x :: start <= x < mid ==> l2[x] == lbls[x - start];
    var hi := mid + |more|;
    forall i: nat | start <= i < mid
      ensures HasParent(c2, mid, hi, i)
    {
      var u := PermutationHits(done, 0, |done|, lbls[i - start]);
      assert i in c2[mid + u];
    }
    forall j | mid <= j < mid + |more|
      ensures c2[j] != {}
    {
      assert done[j - mid] in lbls;
      var i :| 0 <= i < |lbls| && lbls[i] == done[j - mid];
      assert i + start in c2[j];
    }
  }

  class Builder {
    const maxCluster: int
    const maxErrors: nat
    var errorCount: nat

    constructor (maxCluster: int, maxErrors: int)
      ensures this.maxCluster == maxCluster && this.maxErrors == (if maxErrors > 1 then maxErrors else 1) && errorCount == 0
    {
      this.maxCluster := maxCluster;
      this.maxErrors := if maxErrors > 1 then maxErrors else 1;
      errorCount := 0;
    }

    /** One label per chunk of the layer, or None when some chunk fits no cluster. */
    method LabelLayer(m: Models, level: nat, size: nat, k: nat) returns (lbls: Option<seq<nat>>)
      requires LegalModels(m) && k > 0
      ensures lbls.Some? ==> |lbls.value| == size && forall i :: 0 <= i < size ==> lbls.value[i] < k
      ensures lbls.Some? ==> forall i :: 0 <= i < size ==>
                if k == 1 then lbls.value[i] == 0 else m.cluster(level, size, i, k) == Some(lbls.value[i])
      ensures lbls.None? ==> k > 1 && exists i: nat :: i < size && m.cluster(level, size, i, k).None?
    {
      var out: seq<nat> := [];
      var i := 0;
      while i < size
        invariant 0 <= i <= size && |out| == i && forall x :: 0 <= x < i ==> out[x] < k
        invariant forall x :: 0 <= x < i ==> if k == 1 then out[x] == 0 else m.cluster(level, size, x, k) == Some(out[x])
      {
        if k == 1 {
          out := out + [0];
        } else {
          var found := m.cluster(level, size, i, k);
          if found.None? {
            return None;
          }
          out := out + [found.value];
        }
        i := i + 1;
      }
      lbls := Some(out);
    }

    /** Run the summaries of one layer in their completion order; `ok` is false if any of them failed
        or too many errors have been seen. */
    method SummarizeLayer(m: Models, level: nat, lbls: seq<nat>, k: nat, start: nat, chunks0: seq<Chunk>, ghost children0: seq<set<nat>>)
      returns (ok: bool, aborted: bool, chunks: seq<Chunk>, ghost children: seq<set<nat>>)
      requires LegalModels(m) && |children0| == |chunks0|
      modifies this
      ensures ok ==> |chunks| == |chunks0| + k && |children| == |chunks| && children0 <= children
      ensures ok ==> forall u :: 0 <= u < k ==> children[|children0| + u] == Members(lbls, m.order(level, k)[u], start)
      ensures ok ==> chunks0 <= chunks && forall u :: 0 <= u < k ==> m.summary(level, m.order(level, k)[u]) == Some(chunks[|chunks0| + u])
      ensures ok <==> forall c :: 0 <= c < k ==> m.summary(level, c).Some?
      ensures if ok then !aborted && errorCount == old(errorCount) else errorCount > old(errorCount)
      ensures !ok ==> (aborted <==> errorCount >= maxErrors)
    {
      var order := m.order(level, k);
      assert Permutes(order, 0, k);
      chunks, children, aborted := chunks0, children0, false;
      var t := 0;
      while t < k
        invariant 0 <= t <= k && chunks0 <= chunks && |chunks| <= |chunks0| + t && !aborted
        invariant (forall u :: 0 <= u < t ==> m.summary(level, order[u]).Some?) <==> |chunks| == |chunks0| + t
        invariant if |chunks| == |chunks0| + t then errorCount == old(errorCount) else old(errorCount) < errorCount < maxErrors
        invariant |chunks| == |chunks0| + t ==> |children| == |chunks| && children0 <= children
        invariant |chunks| == |chunks0| + t ==>
          forall u :: 0 <= u < t ==> children[|children0| + u] == Members(lbls, order[u], start) &&
                                     m.summary(level, order[u]) == Some(chunks[|chunks0| + u])
      {
        var summary := m.summary(level, order[t]);
        if summary.Some? {
          chunks := chunks + [summary.value];
          children := children + [Members(lbls, order[t], start)];
        } else {
          errorCount := errorCount + 1;
          if errorCount >= maxErrors {
            ok, aborted := false, true;
            return;
          }
        }
        t := t + 1;
      }
      ok := |chunks| - |chunks0| == k;
      forall c | 0 <= c < k && ok
        ensures m.summary(level, c).Some?
      {
        var u := PermutationHits(order, 0, k, c);
      }
    }

    /** Cluster and summarize a layer of three or more chunks, or give the reason to stop. */
    method ClusterLayer(m: Models, level: nat, start: nat, chunks: seq<Chunk>, ghost children: seq<set<nat>>)
      returns (stop: Option<Reason>, lbls: seq<nat>, chunks': seq<Chunk>, ghost done: seq<nat>, ghost more: seq<set<nat>>)
      requires LegalModels(m) && |children| == |chunks| && start + 3 <= |chunks|
      modifies this
      ensures stop.None? ==> |lbls| == |chunks| - start && Summarized(lbls, done, more, start)
      ensures stop.None? ==> chunks <= chunks' && |chunks'| == |chunks| + |more| && errorCount == old(errorCount)
      ensures stop.None? ==> maxCluster >= 2 && |more| == ClusterCount(m, maxCluster, level, |chunks| - start)
      ensures stop.None? ==> 1 <= |more| < maxCluster && |more| < |chunks| - start
      ensures stop.None? ==> PicksItsCount(m, maxCluster, level, |chunks| - start, |more|)
      ensures stop.None? ==> forall u :: 0 <= u < |more| ==> m.summary(level, done[u]) == Some(chunks'[|chunks| + u])
      ensures stop == Some(NoClusterCount) ==> maxCluster < 2
      ensures AllSummarized(m) ==> errorCount == old(errorCount)
      ensures stop.None? <==>
                && maxCluster >= 2 && LayerClustered(m, maxCluster, level, |chunks| - start)
                && LayerSummarized(m, level, ClusterCount(m, maxCluster, level, |chunks| - start))
      ensures maxCluster >= 2 && stop.Some? ==>
                (stop.value in {NoLabel, EmptyCluster} <==> !LayerClustered(m, maxCluster, level, |chunks| - start))
      ensures stop.Some? ==> (if stop.value in {TooManyErrors, SummaryMissing} then errorCount > old(errorCount)
                              else errorCount == old(errorCount))
      ensures stop.Some? && stop.value in {TooManyErrors, SummaryMissing} ==> (stop.value.TooManyErrors? <==> errorCount >= maxErrors)
    {
      chunks', done, more, lbls := chunks, [], [], [];
      var size := |chunks| - start;
      var most := if maxCluster < size then maxCluster else size;
      if most < 2 {
        stop := Some(NoClusterCount);
        return;
      }
      var k := 1 + m.best(level, most - 1);
      assert k == ClusterCount(m, maxCluster, level, size);
      var labelled := LabelLayer(m, level, size, k);
      if labelled.None? {
        stop := Some(NoLabel);
        return;
      }
      lbls := labelled.value;
      forall c: nat | c < k
        ensures c in lbls <==> k == 1 || InUse(m, level, size, k, c)
      {
        UsedLabel(m, level, size, k, lbls, c);
      }
      var c := 0;
      while c < k
        invariant 0 <= c <= k && forall x :: 0 <= x < c ==> x in lbls
      {
        if c !in lbls {
          stop := Some(EmptyCluster);
          return;
        }
        c := c + 1;
      }
      var ok, aborted;
      ghost var all;
      ok, aborted, chunks', all := SummarizeLayer(m, level, lbls, k, start, chunks, children);
      if !ok {
        stop := Some(if aborted then TooManyErrors else SummaryMissing);
        return;
      }
      done := m.order(level, k);
      more := all[|children|..];
      assert Permutes(done, 0, k);
      stop := None;
    }

    /** Build the tree. `rootLost` tells that the summary of the last two chunks failed. */
    method Build(input: seq<Chunk>, m: Models)
      returns (r: Outcome, chunks: seq<Chunk>, layers: seq<(nat, nat)>, labels: seq<nat>, ghost children: seq<set<nat>>, ghost rootLost: bool)
      requires LegalModels(m)
      modifies this
      ensures r.NothingToDo? <==> |input| <= 1
      ensures r.Built? ==> Usable(input) <= chunks && |children| == |chunks|
      ensures r.Built? ==> layers != [] && layers[0] == (0, |Usable(input)|)
      ensures r.Built? && !rootLost ==> Rooted(chunks, layers, labels, children, Usable(input))
      ensures r.Built? && rootLost ==> Unrooted(chunks, layers, labels, children)
      ensures r.Built? && rootLost ==> m.summary(|layers| - 2, 0) == None && errorCount > old(errorCount)
      ensures r.Aborted? && maxCluster >= 2 ==> r.reason != NoClusterCount
      ensures AllSummarized(m) ==> !rootLost && errorCount == old(errorCount)
      ensures AllSummarized(m) && AllClustered(m, maxCluster) ==> !r.Aborted?
      ensures r.Built? ==> Summaries(m, chunks, layers, children, labels)
      ensures r.Built? ==> SizesAre(m, maxCluster, |Usable(input)|, if rootLost then layers[..|layers| - 1] else layers)
      ensures r.Built? ==> (rootLost <==> LastPairLost(m, layers))
      ensures r.Built? ==> (rootLost <==> PairFails(m, maxCluster, |Usable(input)|))
      ensures |Usable(input)| == 2 && m.summary(0, 0).None? ==>
                if old(errorCount) + 1 < maxErrors then r.Built? && rootLost else r == Aborted(TooManyErrors)
      ensures r.Aborted? && r.reason in {TooManyErrors, SummaryMissing} ==>
                errorCount > old(errorCount) && (r.reason.TooManyErrors? <==> errorCount >= maxErrors)
      ensures r.Built? ==> CountsArePicked(m, maxCluster, if rootLost then layers[..|layers| - 1] else layers)
    {
      hide Tree, Usable, Summarized, LegalModels, Clustered, Summaries, SizesAre, NoPairLost, PairFails, LayerSize, ClusterCount,
           LastPairLost, LayerClustered, LayerSummarized, CountsArePicked;
      UsableSize(input);
      rootLost, chunks, layers, labels, children := false, [], [], [], [];
      if |input| <= 1 {
        return NothingToDo, chunks, layers, labels, children, rootLost;
      }
      chunks := KeepUsable(input);
      children := seq(|chunks|, i => {});
      layers := [(0, |chunks|)];
      FirstLayer(children);
      FirstSizes(m, maxCluster, chunks, children);
      var start: nat := 0;
      while |chunks| - start > 1
        invariant Usable(input) <= chunks && |children| == |chunks| && |labels| == start <= |chunks|
        invariant layers != [] && layers[0] == (0, |Usable(input)|) && layers[|layers| - 1] == (start, |chunks|)
        invariant Tree(layers, children, labels)
        invariant if Usable(input) != [] then start < |chunks| else chunks == []
        invariant Summaries(m, chunks, layers, children, labels)
        invariant SizesAre(m, maxCluster, |Usable(input)|, layers) && NoPairLost(m, layers)
        invariant |layers| == 1 || |Usable(input)| != 2 || m.summary(0, 0).Some?
        invariant |layers| == 1 ==> start == 0 && |chunks| == |Usable(input)| && errorCount == old(errorCount)
        invariant forall l :: 0 <= l < |layers| - 1 && layers[l].1 >= layers[l].0 + 3 ==> maxCluster >= 2
        invariant errorCount >= old(errorCount) && (AllSummarized(m) ==> errorCount == old(errorCount))
        decreases |chunks| - start
      {
        var end := |chunks|;
        if end - start == 2 {
          var summary := m.summary(|layers| - 1, 0);
          if summary.None? {
            errorCount := errorCount + 1;
            if errorCount >= maxErrors {
              return Aborted(TooManyErrors), chunks, layers, labels, children, rootLost;
            }
            SizesArePicked(m, maxCluster, |Usable(input)|, layers);
            RootIsLost(chunks, layers, labels, children);
            PairIsLost(m, maxCluster, |Usable(input)|, layers);
            SummariesStay(m, chunks, layers, children, labels, [0, 0], end);
            labels := labels + [0, 0];
            layers := layers + [(end, end)];
            rootLost := true;
            return Built, chunks, layers, labels, children, rootLost;
          }
          PairAdded(layers, children, labels, start);
          PairSummarized(m, chunks, summary.value, layers, children, labels, start);
          SizesGrow(m, maxCluster, |Usable(input)|, layers, end + 1);
          chunks := chunks + [summary.value];
          children := children + [{start, start + 1}];
          labels := labels + [0, 0];
        } else {
          var stop, lbls, chunks';
          ghost var done, more;
          stop, lbls, chunks', done, more := ClusterLayer(m, |layers| - 1, start, chunks, children);
          if stop.Some? {
            return Aborted(stop.value), chunks, layers, labels, children, rootLost;
          }
          SummarizedSize(lbls, done, more, start);
          LayerAdded(layers, children, labels, lbls, done, more);
          SummariesAdded(m, chunks, chunks', layers, children, labels, lbls, done, more);
          SizesGrow(m, maxCluster, |Usable(input)|, layers, |chunks'|);
          chunks := chunks';
          children := children + more;
          labels := labels + lbls;
        }
        layers := layers + [(end, |chunks|)];
        start := end;
      }
      SizesArePicked(m, maxCluster, |Usable(input)|, layers);
      NoPairFails(m, maxCluster, |Usable(input)|, layers);
      r := Built;
    }
  }

  lemma UsedLabel(m: Models, level: nat, size: nat, k: nat, lbls: seq<nat>, c: nat)
    requires size > 0 && |lbls| == size && c < k
    requires forall i :: 0 <= i < size ==> if k == 1 then lbls[i] == 0 else m.cluster(level, size, i, k) == Some(lbls[i])
    ensures c in lbls <==> k == 1 || InUse(m, level, size, k, c)
  {
    if k == 1 {
      assert lbls[0] == c;
    } else if InUse(m, level, size, k, c) {
      var i: nat :| i < size && m.cluster(level, size, i, k) == Some(c);
      assert lbls[i] == c;
    }
  }

  /** A finished tree: all layers in place and one chunk on top, unless there was nothing to start from. */
  ghost predicate Rooted(chunks: seq<Chunk>, layers: seq<(nat, nat)>, labels: seq<nat>, children: seq<set<nat>>, base: seq<Chunk>) {
    && Tree(layers, children, labels) && layers[|layers| - 1].1 == |chunks| && |labels| == layers[|layers| - 1].0
    && (if base == [] then chunks == [] else layers[|layers| - 1].1 - layers[|layers| - 1].0 == 1)
  }

  /** A tree whose last two chunks could not be summarized: an empty layer sits on top of them. */
  ghost predicate Unrooted(chunks: seq<Chunk>, layers: seq<(nat, nat)>, labels: seq<nat>, children: seq<set<nat>>) {
    && |layers| >= 2 && |labels| >= 2
    && Tree(layers[..|layers| - 1], children, labels[..|labels| - 2])
    && layers[|layers| - 2] == (|labels| - 2, |chunks|) && |labels| == |chunks|
    && layers[|layers| - 1] == (|chunks|, |chunks|)
  }

  /** The layer below the top one had two chunks left, and their summary failed. */
  ghost predicate LastPairLost(m: Models, layers: seq<(nat, nat)>) {
    && |layers| >= 2 && layers[|layers| - 2].1 == layers[|layers| - 2].0 + 2
    && m.summary(|layers| - 2, 0).None?
  }

  /** The members of chunk `j` share a label, and the chunk is the summary of that label's cluster in layer `l`. */
  ghost predicate SummaryOf(m: Models, chunk: Chunk, members: set<nat>, labels: seq<nat>, l: nat) {
    forall x :: x in members ==> x < |labels| && m.summary(l, labels[x]) == Some(chunk)
  }

  /** Every chunk above the first layer is the summary of its members. */
  ghost predicate Summaries(m: Models, chunks: seq<Chunk>, layers: seq<(nat, nat)>, children: seq<set<nat>>, labels: seq<nat>) {
    |chunks| == |children| &&
    forall l: nat, j: nat :: l + 1 < |layers| && layers[l].1 <= j < layers[l + 1].1 && j < |chunks| ==>
      SummaryOf(m, chunks[j], children[j], labels, l)
  }

  /** The size of layer `l` over `base` chunks, as the models decide it. */
  function LayerSize(m: Models, maxCluster: int, base: nat, l: nat): nat {
    if l == 0 then base else
    var s := LayerSize(m, maxCluster, base, l - 1);
    if s <= 1 then 0 else if s == 2 then 1 else if maxCluster >= 2 then ClusterCount(m, maxCluster, l - 1, s) else 0
  }

  ghost predicate SizesAre(m: Models, maxCluster: int, base: nat, layers: seq<(nat, nat)>) {
    forall l :: 0 <= l < |layers| ==> layers[l].1 == layers[l].0 + LayerSize(m, maxCluster, base, l)
  }

  /** Some layer will have two chunks, and their summary fails. */
  ghost predicate PairFails(m: Models, maxCluster: int, base: nat) {
    exists l: nat :: LayerSize(m, maxCluster, base, l) == 2 && m.summary(l, 0).None?
  }

  ghost predicate NoPairLost(m: Models, layers: seq<(nat, nat)>) {
    forall l: nat :: l + 1 < |layers| && layers[l].1 == layers[l].0 + 2 ==> m.summary(l, 0).Some?
  }

  lemma FirstSizes(m: Models, maxCluster: int, chunks: seq<Chunk>, children: seq<set<nat>>)
    requires |chunks| == |children|
    ensures SizesAre(m, maxCluster, |chunks|, [(0, |chunks|)]) && NoPairLost(m, [(0, |chunks|)])
    ensures Summaries(m, chunks, [(0, |chunks|)], children, [])
  {
  }

  lemma SizesGrow(m: Models, maxCluster: int, base: nat, layers: seq<(nat, nat)>, end: nat)
    requires layers != [] && SizesAre(m, maxCluster, base, layers) && NoPairLost(m, layers)
    requires var (lo, hi) := layers[|layers| - 1];
             && lo + 2 <= hi <= end && (hi == lo + 2 ==> end == hi + 1 && m.summary(|layers| - 1, 0).Some?)
             && (hi > lo + 2 ==> maxCluster >= 2 && end == hi + ClusterCount(m, maxCluster, |layers| - 1, hi - lo))
    ensures var more := layers + [(layers[|layers| - 1].1, end)];
            SizesAre(m, maxCluster, base, more) && NoPairLost(m, more)
  {
    hide ClusterCount;
    assert layers[|layers| - 1].1 == layers[|layers| - 1].0 + LayerSize(m, maxCluster, base, |layers| - 1);
  }

  lemma PairIsLost(m: Models, maxCluster: int, base: nat, layers: seq<(nat, nat)>)
    requires layers != [] && SizesAre(m, maxCluster, base, layers) && m.summary(|layers| - 1, 0).None?
    requires layers[|layers| - 1].1 == layers[|layers| - 1].0 + 2
    ensures PairFails(m, maxCluster, base)
    ensures forall end: nat :: LastPairLost(m, layers + [(end, end)])
    ensures forall end: nat :: (layers + [(end, end)])[..|layers|] == layers
  {
    hide LayerSize;
    assert LayerSize(m, maxCluster, base, |layers| - 1) == 2;
  }

  lemma {:induction false} NothingAbove(m: Models, maxCluster: int, base: nat, n: nat, l: nat)
    requires LayerSize(m, maxCluster, base, n) <= 1 && n < l
    ensures LayerSize(m, maxCluster, base, l) == 0
    decreases l
  {
    if n < l - 1 {
      NothingAbove(m, maxCluster, base, n, l - 1);
    }
  }

  lemma NoPairFails(m: Models, maxCluster: int, base: nat, layers: seq<(nat, nat)>)
    requires layers != [] && SizesAre(m, maxCluster, base, layers) && NoPairLost(m, layers)
    requires layers[|layers| - 1].1 - layers[|layers| - 1].0 <= 1
    ensures !PairFails(m, maxCluster, base) && !LastPairLost(m, layers)
  {
    hide LayerSize;
    var n := |layers| - 1;
    assert LayerSize(m, maxCluster, base, n) <= 1;
    forall l: nat | LayerSize(m, maxCluster, base, l) == 2
      ensures m.summary(l, 0).Some?
    {
      if l > n {
        NothingAbove(m, maxCluster, base, n, l);
      }
    }
  }

  lemma SummariesAdded(m: Models, chunks: seq<Chunk>, chunks': seq<Chunk>, layers: seq<(nat, nat)>, children: seq<set<nat>>,
                       labels: seq<nat>, lbls: seq<nat>, done: seq<nat>, more: seq<set<nat>>)
    requires Summaries(m, chunks, layers, children, labels) && Tree(layers, children, labels)
    requires var (start, end) := layers[|layers| - 1];
             |chunks| == |children| == end && |labels| == start && |lbls| == end - start && Summarized(lbls, done, more, start)
    requires chunks <= chunks' && |chunks'| == |chunks| + |more|
    requires forall u :: 0 <= u < |more| ==> m.summary(|layers| - 1, done[u]) == Some(chunks'[|chunks| + u])
    ensures Summaries(m, chunks', layers + [(|chunks|, |chunks'|)], children + more, labels + lbls)
  {
    hide LayerOk;
    var start := layers[|layers| - 1].0;
    var layers', labels' := layers + [(|chunks|, |chunks'|)], labels + lbls;
    forall l: nat, j: nat | l + 1 < |layers'| && layers'[l].1 <= j < layers'[l + 1].1 && j < |chunks'|
      ensures SummaryOf(m, chunks'[j], (children + more)[j], labels', l)
    {
      if l + 1 < |layers| {
        assert j < |chunks| && SummaryOf(m, chunks[j], children[j], labels, l);
        assert forall x: nat :: x < |labels| ==> labels'[x] == labels[x];
      } else {
        var u := j - |chunks|;
        assert (children + more)[j] == Members(lbls, done[u], start);
        assert forall x: nat :: start <= x < start + |lbls| ==> labels'[x] == lbls[x - start];
      }
    }
  }

  lemma PairSummarized(m: Models, chunks: seq<Chunk>, summary: Chunk, layers: seq<(nat, nat)>, children: seq<set<nat>>,
                       labels: seq<nat>, start: nat)
    requires Summaries(m, chunks, layers, children, labels) && Tree(layers, children, labels)
    requires layers[|layers| - 1] == (start, start + 2) && |chunks| == start + 2 && |labels| == start
    requires m.summary(|layers| - 1, 0) == Some(summary)
    ensures Summaries(m, chunks + [summary], layers + [(start + 2, start + 3)], children + [{start, start + 1}], labels + [0, 0])
  {
    assert Members([0, 0], 0, start) == {start, start + 1};
    assert 0 in [0, 0];
    SummariesAdded(m, chunks, chunks + [summary], layers, children, labels, [0, 0], [0], [{start, start + 1}]);
  }

  /** An empty layer on top adds nothing to summarize. */
  lemma SummariesStay(m: Models, chunks: seq<Chunk>, layers: seq<(nat, nat)>, children: seq<set<nat>>, labels: seq<nat>, lbls: seq<nat>, end: nat)
    requires Summaries(m, chunks, layers, children, labels) && layers != [] && layers[|layers| - 1].1 == end
    ensures Summaries(m, chunks, layers + [(end, end)], children, labels + lbls)
  {
    var layers', labels' := layers + [(end, end)], labels + lbls;
    forall l: nat, j: nat | l + 1 < |layers'| && layers'[l].1 <= j < layers'[l + 1].1 && j < |chunks|
      ensures SummaryOf(m, chunks[j], children[j], labels', l)
    {
      assert SummaryOf(m, chunks[j], children[j], labels, l);
      assert forall x: nat :: x < |labels| ==> labels'[x] == labels[x];
    }
  }

  lemma UsableSize(input: seq<Chunk>)
    ensures |Usable(input)| <= |input|
  {
  }

  lemma FirstLayer(children: seq<set<nat>>)
    ensures Tree([(0, |children|)], children, [])
  {
  }

  lemma SummarizedSize(lbls: seq<nat>, done: seq<nat>, more: seq<set<nat>>, start: nat)
    requires Summarized(lbls, done, more, start)
    ensures 0 < |more| < |lbls|
  {
  }

  lemma RootIsLost(chunks: seq<Chunk>, layers: seq<(nat, nat)>, labels: seq<nat>, children: seq<set<nat>>)
    requires layers != [] && Tree(layers, children, labels) && layers[|layers| - 1] == (|labels|, |chunks|)
    requires |chunks| == |labels| + 2
    ensures Unrooted(chunks, layers + [(|chunks|, |chunks|)], labels + [0, 0], children)
  {
    assert (layers + [(|chunks|, |chunks|)])[..|layers|] == layers;
    assert (labels + [0, 0])[..|labels|] == labels;
  }

  /** The chunks a build starts from: those with a text and an embedding, in their order. */
  lemma {:induction false} UsableExactly(input: seq<Chunk>) returns (ix: seq<nat>)
    ensures PickedBy(input, ix, Usable(input))
    ensures forall p: nat :: p < |input| ==> (p in ix <==> |input[p].text| > 0 && |input[p].embedding| > 0)
  {
    ix := [];
    if input != [] {
      hide PickedBy;
      var last := |input| - 1;
      var front, x := input[..last], input[last];
      var before := UsableExactly(front);
      var take := x.text != "" && x.embedding != [];
      assert Usable(input) == if take then Usable(front) + [x] else Usable(front);
      hide Usable;
      ix := if take then before + [last] else before;
      PickedSnoc(front, x, before, Usable(front), take);
      assert front + [x] == input;
      forall p: nat | p < |input|
        ensures p in ix <==> |input[p].text| > 0 && |input[p].embedding| > 0
      {
        if p < last {
          assert front[p] == input[p] && (p in ix <==> p in before);
        }
      }
    }
  }

  method KeepUsable(input: seq<Chunk>) returns (chunks: seq<Chunk>)
    ensures chunks == Usable(input)
  {
    chunks := [];
    var i := 0;
    while i < |input|
      invariant 0 <= i <= |input| && chunks == Usable(input[..i])
    {
      assert input[..i + 1][..i] == input[..i];
      if input[i].text != "" && input[i].embedding != [] {
        chunks := chunks + [input[i]];
      }
      i := i + 1;
    }
    assert input[..i] == input;
  }

  lemma PairAdded(layers: seq<(nat, nat)>, children: seq<set<nat>>, labels: seq<nat>, start: nat)
    requires Tree(layers, children, labels) && layers[|layers| - 1] == (start, start + 2)
    requires |children| == start + 2 && |labels| == start
    ensures Tree(layers + [(start + 2, start + 3)], children + [{start, start + 1}], labels + [0, 0])
  {
    assert Members([0, 0], 0, start) == {start, start + 1};
    assert 0 in [0, 0];
    LayerAdded(layers, children, labels, [0, 0], [0], [{start, start + 1}]);
  }

  // ---------------------------------------------------------------- what a finished tree gives

  /** Chunk `x` of layer `l` hangs under `root` through one summary per layer. */
  ghost predicate Under(layers: seq<(nat, nat)>, children: seq<set<nat>>, l: nat, x: nat, root: nat)
    requires l < |layers| && forall i :: 0 <= i < |layers| ==> layers[i].1 <= |children|
    decreases |layers| - l
  {
    if l == |layers| - 1 then x == root
    else exists j: nat :: layers[l].1 <= j < layers[l + 1].1 && x in children[j] && Under(layers, children, l + 1, j, root)
  }

  /** In a tree whose top layer has one chunk, every chunk is summarized by that root, through a
      chain of summaries, whatever order the tasks finished in. */
  lemma {:induction false} EveryChunkIsUnderTheRoot(layers: seq<(nat, nat)>, children: seq<set<nat>>, labels: seq<nat>, l: nat, x: nat)
    requires Tree(layers, children, labels) && l < |layers| && layers[l].0 <= x < layers[l].1
    requires layers[|layers| - 1].1 == layers[|layers| - 1].0 + 1
    ensures Under(layers, children, l, x, layers[|layers| - 1].0)
    decreases |layers| - l
  {
    if l < |layers| - 1 {
      assert LayerOk(children, labels, layers[l].0, layers[l].1, layers[l + 1].1);
      assert HasParent(children, layers[l].1, layers[l + 1].1, x);
      var j: nat :| layers[l].1 <= j < layers[l + 1].1 && x in children[j];
      EveryChunkIsUnderTheRoot(layers, children, labels, l + 1, j);
    }
  }

  /** Layers shrink, so a tree over n chunks has at most n layers. */
  lemma {:induction false} LayersShrink(layers: seq<(nat, nat)>, children: seq<set<nat>>, labels: seq<nat>, l: nat)
    requires Tree(layers, children, labels) && l < |layers|
    ensures layers[l].1 - layers[l].0 + l <= layers[0].1
  {
    if l > 0 {
      LayersShrink(layers, children, labels, l - 1);
      assert LayerOk(children, labels, layers[l - 1].0, layers[l - 1].1, layers[l].1);
    }
  }

  // ---------------------------------------------------------------- models the hypotheses cover

  /** Of k clusters the last k chunks of a layer get one each, and all earlier chunks share the first. */
  function TailCluster(size: nat, i: nat, k: nat): Option<nat> {
    if k == 0 || i >= size then None
    else if i + k >= size && i + k - size < k then Some(i + k - size)
    else Some(0)
  }

  const TAIL_MODELS := Models(
    (level: nat, n: nat) => if n > 1 then 1 else 0,
    (level: nat, size: nat, i: nat, k: nat) => TailCluster(size, i, k),
    (level: nat, c: nat) => Some(Chunk("summary", [1.0])),
    (level: nat, k: nat) => InTurn(0, k))

  /** The hypotheses under which a build ends with one root are met by models that put several chunks
      of a layer into one cluster: three chunks in two clusters are labelled 0, 0, 1. */
  lemma SharedClustersAreCovered(maxCluster: int)
    requires maxCluster >= 2
    ensures LegalModels(TAIL_MODELS) && AllSummarized(TAIL_MODELS) && AllClustered(TAIL_MODELS, maxCluster)
    ensures maxCluster >= 3 ==> ClusterCount(TAIL_MODELS, maxCluster, 0, 3) == 2
    ensures forall i: nat :: i < 3 ==> TAIL_MODELS.cluster(0, 3, i, 2) == Some(if i < 2 then 0 else 1)
  {
    var m := TAIL_MODELS;
    forall level: nat, k: nat
      ensures Permutes(m.order(level, k), 0, k)
    {
      assert m.order(level, k) == InTurn(0, k);
    }
    forall level: nat, size: nat | size >= 3
      ensures LayerClustered(m, maxCluster, level, size)
    {
      var k := ClusterCount(m, maxCluster, level, size);
      forall c: nat | c < k
        ensures InUse(m, level, size, k, c)
      {
        assert m.cluster(level, size, size - k + c, k) == Some(c);
      }
    }
  }
}
