/** Context compression: near-duplicates out, weak chunks out, the rest into a token budget. */
module Compression {
  import opened Prelude
  import opened Ranking

  datatype Chunk = Chunk(id: string, text: string, score: Score)

  /** Settings, and the text services the module calls. */
  datatype Config = Config(
    ngram: nat, jaccard: real, floor: real, minChunks: nat, budget: int,
    tokens: string -> nat, words: string -> seq<string>, sentences: string -> seq<string>,
    relevance: (string, string) -> real)

  function Min(a: int, b: int): int { if a <= b then a else b }

  function Max(a: int, b: int): int { if a >= b then a else b }

  function Here(k: nat): int { k }

  function ScoreOf(chunks: seq<Chunk>): nat -> Score {
    (i: nat) => if i < |chunks| then chunks[i].score else None
  }

  // ------------------------------------------------------------------ near-duplicates

  function NGrams(words: seq<string>, n: nat): set<seq<string>> {
    if |words| < n then (if words == [] then {} else {words})
    else SetOf(seq(|words| - n + 1, i requires 0 <= i <= |words| - n => words[i..i + n]))
  }

  /** Every stretch of `n` words, and of a shorter text all its words. */
  lemma NGramsAre(words: seq<string>, n: nat, g: seq<string>)
    ensures g in NGrams(words, n) <==>
            if |words| < n then words != [] && g == words
            else exists i: nat, j :: j == i + n && j <= |words| && g == words[i..j]
  {
    if |words| >= n {
      var all := seq(|words| - n + 1, i requires 0 <= i <= |words| - n => words[i..i + n]);
      assert forall i: nat, j :: j == i + n && j <= |words| ==> all[i] == words[i..j];
      assert g in NGrams(words, n) <==> g in all;
      if g in all {
        var k :| 0 <= k < |all| && all[k] == g;
        assert g == words[k..k + n];
      }
    }
  }

  function Grams(cfg: Config, chunk: Chunk): set<seq<string>> { NGrams(cfg.words(chunk.text), cfg.ngram) }

  function Jaccard(a: set<seq<string>>, b: set<seq<string>>): (r: real)
    ensures r * |a + b| as real == |a * b| as real && (a == {} ==> r == 0.0)
    ensures 0.0 <= r <= 1.0
    ensures r == Overlap(b, a)
    ensures a != {} ==> (r == 1.0 <==> a == b)
  {
    if a == {} || b == {} then
      assert a * b == {};
      0.0
    else
      OverlapFacts(a, b);
      Overlap(a, b)
  }

  function Overlap(a: set<seq<string>>, b: set<seq<string>>): real {
    if a == {} || b == {} then 0.0 else |a * b| as real / |a + b| as real
  }

  lemma OverlapFacts(a: set<seq<string>>, b: set<seq<string>>)
    requires a != {} && b != {}
    ensures 0.0 <= Overlap(a, b) <= 1.0 && Overlap(a, b) == Overlap(b, a) && (Overlap(a, b) == 1.0 <==> a == b)
    ensures Overlap(a, b) * |a + b| as real == |a * b| as real
  {
    assert a * b == b * a && a + b == b + a;
    assert a + b == a * b + (a - b) + (b - a);
    assert |a + b| == |a * b| + |a - b| + |b - a|;
    assert |a + b| > 0 by { assert a <= a + b; }
    var i, u := |a * b| as real, |a + b| as real;
    assert i <= u && u > 0.0;
    RatioFacts(i, u);
    if |a * b| == |a + b| {
      assert a - b == {} && b - a == {};
    }
  }

  lemma RatioFacts(i: real, u: real)
    requires 0.0 <= i <= u && u > 0.0
    ensures 0.0 <= i / u <= 1.0 && (i / u == 1.0 <==> i == u) && i / u * u == i
  {
  }

  predicate Similar(cfg: Config, a: Chunk, b: Chunk) {
    Jaccard(Grams(cfg, a), Grams(cfg, b)) > cfg.jaccard
  }

  /** Not similar to any survivor before it. */
  ghost predicate Survives(cfg: Config, chunks: seq<Chunk>, i: nat)
    requires i < |chunks|
    decreases i
  {
    forall j: nat :: j < i && Survives(cfg, chunks, j) ==> !Similar(cfg, chunks[i], chunks[j])
  }

  /** Survivors are pairwise at or below the threshold; everything else exceeds it against an
      earlier survivor. */
  lemma SurvivorsApart(cfg: Config, chunks: seq<Chunk>, i: nat, j: nat)
    requires i < |chunks| && j < |chunks| && i != j && Survives(cfg, chunks, i) && Survives(cfg, chunks, j)
    ensures Jaccard(Grams(cfg, chunks[i]), Grams(cfg, chunks[j])) <= cfg.jaccard
  {
  }

  lemma CasualtyExplained(cfg: Config, chunks: seq<Chunk>, i: nat) returns (j: nat)
    requires i < |chunks| && !Survives(cfg, chunks, i)
    ensures j < i && Survives(cfg, chunks, j) && Jaccard(Grams(cfg, chunks[i]), Grams(cfg, chunks[j])) > cfg.jaccard
  {
    j :| j < i && Survives(cfg, chunks, j) && Similar(cfg, chunks[i], chunks[j]);
  }

  method AnySimilar(cfg: Config, grams: set<seq<string>>, keptGrams: seq<set<seq<string>>>) returns (r: bool)
    ensures r <==> exists k :: 0 <= k < |keptGrams| && Jaccard(grams, keptGrams[k]) > cfg.jaccard
  {
    for k := 0 to |keptGrams|
      invariant forall m :: 0 <= m < k ==> Jaccard(grams, keptGrams[m]) <= cfg.jaccard
    {
      if Jaccard(grams, keptGrams[k]) > cfg.jaccard { return true; }
    }
    r := false;
  }

  /** `idx` lists the survivors below `n`. */
  ghost predicate Lists(cfg: Config, chunks: seq<Chunk>, idx: seq<nat>, n: nat)
    requires n <= |chunks|
  {
    && Increasing(idx, n)
    && forall i: nat :: i < n ==> (i in idx <==> Survives(cfg, chunks, i))
  }

  /** A chunk survives exactly when it is unlike every survivor listed so far. */
  lemma ListsNext(cfg: Config, chunks: seq<Chunk>, idx: seq<nat>, i: nat, similar: bool)
    requires i < |chunks| && Lists(cfg, chunks, idx, i)
    requires forall k :: 0 <= k < |idx| ==> idx[k] < |chunks|
    requires similar <==> exists k :: 0 <= k < |idx| && Similar(cfg, chunks[i], chunks[idx[k]])
    ensures Lists(cfg, chunks, if similar then idx else idx + [i], i + 1)
  {
    hide Similar;
    if similar {
      var k :| 0 <= k < |idx| && Similar(cfg, chunks[i], chunks[idx[k]]);
      assert idx[k] in idx;
      assert !Survives(cfg, chunks, i);
    } else {
      forall j: nat | j < i && Survives(cfg, chunks, j) ensures !Similar(cfg, chunks[i], chunks[j]) {
        var k :| 0 <= k < |idx| && idx[k] == j;
      }
      assert Survives(cfg, chunks, i);
    }
  }

  /** The greedy walk: exactly the survivors, in order. */
  method WalkSurvivors(cfg: Config, chunks: seq<Chunk>) returns (idx: seq<nat>)
    ensures Lists(cfg, chunks, idx, |chunks|)
  {
    idx := [];
    var keptGrams: seq<set<seq<string>>> := [];
    NothingWalked(cfg, chunks);
    hide Lists, GramsOf, Jaccard, Grams, NGrams;
    for i := 0 to |chunks|
      invariant Lists(cfg, chunks, idx, i) && GramsOf(cfg, chunks, idx, keptGrams)
    {
      var grams := Grams(cfg, chunks[i]);
      var similar := AnySimilar(cfg, grams, keptGrams);
      WalkStep(cfg, chunks, idx, keptGrams, i, similar);
      if !similar {
        idx, keptGrams := idx + [i], keptGrams + [grams];
      }
    }
  }

  lemma NothingWalked(cfg: Config, chunks: seq<Chunk>)
    ensures Lists(cfg, chunks, [], 0) && GramsOf(cfg, chunks, [], [])
  {
  }

  lemma WalkStep(cfg: Config, chunks: seq<Chunk>, idx: seq<nat>, grams: seq<set<seq<string>>>, i: nat, similar: bool)
    requires i < |chunks| && Lists(cfg, chunks, idx, i) && GramsOf(cfg, chunks, idx, grams)
    requires similar <==> exists k :: 0 <= k < |grams| && Jaccard(Grams(cfg, chunks[i]), grams[k]) > cfg.jaccard
    ensures Lists(cfg, chunks, if similar then idx else idx + [i], i + 1)
    ensures !similar ==> GramsOf(cfg, chunks, idx + [i], grams + [Grams(cfg, chunks[i])])
  {
    SimilarGrams(cfg, chunks, idx, grams, i);
    ListsNext(cfg, chunks, idx, i, similar);
    hide Lists, Jaccard, Grams;
  }

  ghost predicate GramsOf(cfg: Config, chunks: seq<Chunk>, idx: seq<nat>, grams: seq<set<seq<string>>>) {
    |grams| == |idx| && forall k :: 0 <= k < |idx| ==> idx[k] < |chunks| && grams[k] == Grams(cfg, chunks[idx[k]])
  }

  lemma SimilarGrams(cfg: Config, chunks: seq<Chunk>, idx: seq<nat>, grams: seq<set<seq<string>>>, i: nat)
    requires GramsOf(cfg, chunks, idx, grams) && i < |chunks|
    ensures (exists k :: 0 <= k < |grams| && Jaccard(Grams(cfg, chunks[i]), grams[k]) > cfg.jaccard) <==>
            exists k :: 0 <= k < |idx| && Similar(cfg, chunks[i], chunks[idx[k]])
  {
    hide Jaccard, Grams;
  }

  // ------------------------------------------------------------------ topping up

  /** The best `n` of some positions by score, ties to the earlier one. */
  method Best(chunks: seq<Chunk>, among: seq<nat>, n: nat) returns (top: set<nat>)
    requires Increasing(among, |chunks|)
    ensures |top| == Min(n, |among|) && forall i :: i in top ==> i in among
    ensures forall i: nat, j: nat :: i in top && j in among && j !in top ==> Before(ScoreOf(chunks), Here, i, j)
  {
    hide Before;
    var key, pos := ScoreOf(chunks), Here;
    var order := Descending(key, among);
    DescendingRanks(key, pos, among);
    SameElements(order, among);
    var m := Min(n, |order|);
    top := SetOf(order[..m]);
    RankedDistinct(key, pos, order);
    assert Distinct(order[..m]);
    DistinctSetSize(order[..m]);
    forall i, j | i in top && j in among && j !in top ensures Before(key, pos, i, j) {
      var a :| 0 <= a < m && order[..m][a] == i;
      var b :| 0 <= b < |order| && order[b] == j;
      assert order[a] == i && Before(key, pos, order[if a < b then a else b], order[if a < b then b else a]);
      assert forall c :: 0 <= c < m ==> order[..m][c] == order[c] && order[c] in top;
    }
  }

  lemma RankedDistinct(key: nat -> Score, pos: nat -> int, s: seq<nat>)
    requires Ranked(key, pos, s)
    ensures Distinct(s)
  {
    forall i, j | 0 <= i < j < |s| ensures s[i] != s[j] {
      assert Before(key, pos, s[i], s[j]);
    }
  }

  function Rest(idx: seq<nat>, n: nat): (r: seq<nat>)
    ensures Increasing(r, n) && forall i: nat :: i in r <==> i < n && i !in idx
  {
    InOrder((set i: nat | i < n && i !in idx), n)
  }

  /** What near-duplicate removal leaves of a list: every survivor, and of the others only the best,
      and only while there are fewer than the minimum. */
  ghost predicate Deduped(cfg: Config, chunks: seq<Chunk>, unique: seq<nat>) {
    && Increasing(unique, |chunks|) && |unique| >= Min(cfg.minChunks, |chunks|)
    && (forall i: nat :: i < |chunks| && Survives(cfg, chunks, i) ==> i in unique)
    && (|unique| > cfg.minChunks ==> forall i: nat :: i in unique ==> i < |chunks| && Survives(cfg, chunks, i))
    && forall i: nat, j: nat :: i in unique && i < |chunks| && !Survives(cfg, chunks, i) && j < |chunks| && j !in unique
         ==> Before(ScoreOf(chunks), Here, i, j)
  }

  /** Survivors, topped up from the rest by score when there are too few. */
  method Dedupe(cfg: Config, chunks: seq<Chunk>) returns (kept: seq<Chunk>, dropped: nat, idx: seq<nat>)
    ensures Deduped(cfg, chunks, idx) && kept == Pick(chunks, idx) && dropped == |chunks| - |kept|
  {
    hide Survives;
    idx := WalkSurvivors(cfg, chunks);
    IncreasingSize(idx, |chunks|);
    if |idx| < cfg.minChunks {
      idx := TopUp(chunks, idx, cfg.minChunks - |idx|);
    }
    IncreasingSize(idx, |chunks|);
    kept := Pick(chunks, idx);
    dropped := |chunks| - |kept|;
  }

  /** Add the best `n` of the other positions. */
  method TopUp(chunks: seq<Chunk>, idx: seq<nat>, n: nat) returns (r: seq<nat>)
    requires Increasing(idx, |chunks|)
    ensures Increasing(r, |chunks|) && |r| == Min(|idx| + n, |chunks|)
    ensures forall i: nat :: i in idx ==> i in r
    ensures forall i: nat, j: nat :: i in r && i !in idx && j < |chunks| && j !in r ==>
            Before(ScoreOf(chunks), Here, i, j)
  {
    var rest := Rest(idx, |chunks|);
    var top := Best(chunks, rest, n);
    hide Before;
    UnionSize(idx, rest, top, |chunks|);
    assert forall i: nat :: i in SetOf(idx) + top ==> i < |chunks|;
    InOrderSize(SetOf(idx) + top, |chunks|);
    r := InOrder(SetOf(idx) + top, |chunks|);
  }

  lemma UnionSize(idx: seq<nat>, rest: seq<nat>, top: set<nat>, n: nat)
    requires Increasing(idx, n) && Increasing(rest, n) && (forall i: nat :: i < n ==> (i in idx <==> i !in rest))
    requires forall i: nat :: i in top ==> i in rest
    ensures |SetOf(idx) + top| == |idx| + |top| && |idx| + |rest| == n
  {
    IncreasingDistinct(idx, n);
    DistinctSetSize(idx);
    PartSizes(idx, rest, n);
    assert forall i: nat :: i in rest ==> i < n;
    hide SetOf, Increasing, Distinct;
    assert SetOf(idx) !! top;
  }

  lemma PartSizes(idx: seq<nat>, rest: seq<nat>, n: nat)
    requires Increasing(idx, n) && Increasing(rest, n) && (forall i: nat :: i < n ==> (i in idx <==> i !in rest))
    ensures |idx| + |rest| == n
  {
    DisjointSizes(SetOf(idx), SetOf(rest), n);
    IncreasingDistinct(idx, n);
    IncreasingDistinct(rest, n);
    DistinctSetSize(idx);
    DistinctSetSize(rest);
  }

  lemma DisjointSizes(a: set<nat>, b: set<nat>, n: nat)
    requires forall i: nat :: i in a + b <==> i < n
    requires a !! b
    ensures |a| + |b| == n
  {
    BelowSize(n, a + b);
  }

  lemma IncreasingDistinct(idx: seq<nat>, n: nat)
    requires Increasing(idx, n)
    ensures Distinct(idx)
  {
  }

  // ------------------------------------------------------------------ relevance floor

  predicate Clears(cfg: Config, chunk: Chunk) {
    chunk.score.None? || chunk.score.value >= cfg.floor
  }

  /** Nothing left out ranks before anything kept. */
  ghost predicate IsBest(chunks: seq<Chunk>, idx: seq<nat>) {
    forall i: nat, j: nat :: i in idx && j < |chunks| && j !in idx ==> Before(ScoreOf(chunks), Here, i, j)
  }

  /** Chunks at or above the floor, or the best few when those are too few. */
  method RelevanceFloor(cfg: Config, chunks: seq<Chunk>) returns (kept: seq<Chunk>, dropped: nat, idx: seq<nat>)
    ensures Increasing(idx, |chunks|) && kept == Pick(chunks, idx) && dropped == |chunks| - |kept|
    ensures |kept| >= Min(cfg.minChunks, |chunks|)
    ensures |chunks| <= cfg.minChunks ==> kept == chunks && idx == UpTo(|chunks|)
    ensures |chunks| > cfg.minChunks && |Clearing(cfg, chunks)| >= cfg.minChunks ==> idx == Clearing(cfg, chunks)
    ensures |chunks| > cfg.minChunks && |Clearing(cfg, chunks)| < cfg.minChunks ==>
            |kept| == cfg.minChunks && IsBest(chunks, idx)
  {
    if |chunks| <= cfg.minChunks {
      idx := UpTo(|chunks|);
      assert Pick(chunks, idx) == chunks;
      assert |Clearing(cfg, chunks)| <= |chunks|;
      return chunks, 0, idx;
    }
    idx := Clearing(cfg, chunks);
    if |idx| < cfg.minChunks {
      var top := Best(chunks, UpTo(|chunks|), cfg.minChunks);
      InOrderSize(top, |chunks|);
      idx := InOrder(top, |chunks|);
    }
    IncreasingSize(idx, |chunks|);
    kept := Pick(chunks, idx);
    dropped := |chunks| - |kept|;
  }

  function Clearing(cfg: Config, chunks: seq<Chunk>): (r: seq<nat>)
    ensures Increasing(r, |chunks|)
    ensures forall i: nat :: i in r <==> i < |chunks| && Clears(cfg, chunks[i])
    ensures |r| <= |chunks|
  {
    var r := InOrder((set i: nat | i < |chunks| && Clears(cfg, chunks[i])), |chunks|);
    IncreasingSize(r, |chunks|);
    r
  }

  lemma {:induction false} LastUnscored(chunks: seq<Chunk>, n: nat) returns (m: nat)
    requires n <= |chunks| && exists i: nat :: i < n && chunks[i].score.None?
    ensures m < n && chunks[m].score.None? && forall i: nat :: m < i < n ==> chunks[i].score.Some?
  {
    if chunks[n - 1].score.None? { m := n - 1; } else { m := LastUnscored(chunks, n - 1); }
  }

  lemma SomeLeftOut(idx: seq<nat>, n: nat) returns (j: nat)
    requires Increasing(idx, n) && |idx| < n
    ensures j < n && j !in idx
  {
    if forall i: nat :: i < n ==> i in idx {
      IncreasingDistinct(idx, n);
      DistinctSetSize(idx);
      BelowSize(n, SetOf(idx));
    }
    j :| j < n && j !in idx;
  }

  /** The floor promises that an unscored chunk is never floored away. When too few chunks clear it
      and the best are taken instead, every clearing chunk is among them exactly when all chunks are
      scored: otherwise the last unscored one is lost. */
  lemma TopUpKeepsClearingExactly(cfg: Config, chunks: seq<Chunk>, idx: seq<nat>)
    requires |Clearing(cfg, chunks)| < cfg.minChunks < |chunks| && Increasing(idx, |chunks|) && |idx| == cfg.minChunks
    requires IsBest(chunks, idx)
    ensures (forall i :: i in Clearing(cfg, chunks) ==> i in idx) <==>
            forall i: nat :: i < |chunks| ==> chunks[i].score.Some?
  {
    var clearing := Clearing(cfg, chunks);
    if forall i: nat :: i < |chunks| ==> chunks[i].score.Some? {
      forall i | i in clearing ensures i in idx {
        if i !in idx {
          forall j | j in idx ensures j in clearing {
            assert Before(ScoreOf(chunks), Here, j, i);
          }
          SubsetSize(idx, clearing, |chunks|);
          assert false;
        }
      }
    } else {
      var m := LastUnscored(chunks, |chunks|);
      var j := SomeLeftOut(idx, |chunks|);
      assert m in clearing;
      assert m in idx ==> Before(ScoreOf(chunks), Here, m, j);
      assert !Before(ScoreOf(chunks), Here, m, j);
    }
  }

  /** A list it fails on: one unscored chunk and two below the floor, at least two to keep. The floor
      keeps the two scored ones and loses the one that clears it. */
  method UnscoredLost(cfg: Config) returns (chunks: seq<Chunk>, kept: seq<Chunk>)
    requires cfg.floor == 0.5 && cfg.minChunks == 2
    ensures chunks == [Chunk("a", "", None), Chunk("b", "", Some(0.2)), Chunk("c", "", Some(0.1))]
    ensures Clears(cfg, chunks[0]) && kept == [chunks[1], chunks[2]]
  {
    chunks := [Chunk("a", "", None), Chunk("b", "", Some(0.2)), Chunk("c", "", Some(0.1))];
    var dropped, idx;
    kept, dropped, idx := RelevanceFloor(cfg, chunks);
    OneClears(cfg, chunks);
    MixedBest(chunks, idx);
  }

  lemma OneClears(cfg: Config, chunks: seq<Chunk>)
    requires |chunks| == 3 && Clears(cfg, chunks[0]) && !Clears(cfg, chunks[1]) && !Clears(cfg, chunks[2])
    ensures |Clearing(cfg, chunks)| == 1
  {
    var r := Clearing(cfg, chunks);
    assert 0 in r;
    SubsetSize(r, [0], 3);
  }

  lemma MixedBest(chunks: seq<Chunk>, idx: seq<nat>)
    requires |chunks| == 3 && chunks[0].score.None? && chunks[1].score.Some? && chunks[2].score.Some?
    requires Increasing(idx, 3) && |idx| == 2 && IsBest(chunks, idx)
    ensures idx == [1, 2]
  {
    assert !Before(ScoreOf(chunks), Here, 0, 1) && !Before(ScoreOf(chunks), Here, 0, 2);
    assert 0 in idx ==> 1 in idx && 2 in idx;
    assert idx[0] in idx && idx[1] in idx;
  }

  lemma SubsetSize(a: seq<nat>, b: seq<nat>, n: nat)
    requires Increasing(a, n) && Increasing(b, n) && forall i :: i in a ==> i in b
    ensures |a| <= |b|
  {
    IncreasingDistinct(a, n);
    IncreasingDistinct(b, n);
    DistinctSetSize(a);
    DistinctSetSize(b);
    SmallerSet(SetOf(a), SetOf(b));
  }

  lemma SmallerSet(a: set<nat>, b: set<nat>)
    requires a <= b
    ensures |a| <= |b|
  {
    assert b == a + (b - a);
  }

  // ------------------------------------------------------------------ trimming to sentences

  function JoinSpace(parts: seq<string>): string {
    if parts == [] then "" else if |parts| == 1 then parts[0]
    else JoinSpace(parts[..|parts| - 1]) + " " + parts[|parts| - 1]
  }

  /** What a set of positions costs. */
  function CostOf(cost: nat -> nat, keep: set<nat>, n: nat): nat {
    if n == 0 then 0 else CostOf(cost, keep, n - 1) + if n - 1 in keep then cost(n - 1) else 0
  }

  lemma {:induction false} CostOfAdding(cost: nat -> nat, keep: set<nat>, i: nat, n: nat)
    requires i !in keep
    ensures CostOf(cost, keep + {i}, n) == CostOf(cost, keep, n) + if i < n then cost(i) else 0
  {
    if n > 0 { CostOfAdding(cost, keep, i, n - 1); }
  }

  datatype Choice = Choice(keep: set<nat>, used: nat)

  /** Take sentences in order of relevance while they fit, the first one regardless. */
  function Greedy(cost: nat -> nat, order: seq<nat>, budget: nat): Choice {
    if order == [] then Choice({}, 0)
    else
      var c, i := Greedy(cost, order[..|order| - 1], budget), order[|order| - 1];
      if c.keep != {} && c.used >= budget then c
      else if c.keep == {} || c.used + cost(i) <= budget then Choice(c.keep + {i}, c.used + cost(i))
      else c
  }

  /** The best sentence is kept, and the kept ones fit unless it is alone. */
  lemma {:induction false} GreedyFits(cost: nat -> nat, order: seq<nat>, budget: nat, n: nat)
    requires Distinct(order) && forall i: nat :: i in order ==> i < n
    ensures var c := Greedy(cost, order, budget);
            && (forall i: nat :: i in c.keep ==> i in order)
            && c.used == CostOf(cost, c.keep, n)
            && (order != [] ==> order[0] in c.keep && (c.keep == {order[0]} || c.used <= budget))
  {
    if order != [] {
      var init, i := order[..|order| - 1], order[|order| - 1];
      assert order == init + [i];
      assert forall k :: 0 <= k < |init| ==> init[k] == order[k];
      assert forall j: nat :: j in init ==> j in order;
      GreedyFits(cost, init, budget, n);
      CostOfAdding(cost, Greedy(cost, init, budget).keep, i, n);
      NothingCosts(cost, n);
    } else {
      NothingCosts(cost, n);
    }
  }

  /** What the kept ones of a list cost. */
  function Spent(cost: nat -> nat, keep: set<nat>, order: seq<nat>): nat {
    if order == [] then 0
    else Spent(cost, keep, order[..|order| - 1]) + if order[|order| - 1] in keep then cost(order[|order| - 1]) else 0
  }

  lemma {:induction false} SpentSame(cost: nat -> nat, a: set<nat>, b: set<nat>, order: seq<nat>)
    requires forall i: nat :: i in order ==> (i in a <==> i in b)
    ensures Spent(cost, a, order) == Spent(cost, b, order)
  {
    if order != [] {
      assert forall i: nat :: i in order[..|order| - 1] ==> i in order;
      SpentSame(cost, a, b, order[..|order| - 1]);
    }
  }

  /** Kept exactly when it comes first, or the ones kept before it are below the budget and leave
      room for it. */
  ghost predicate Takes(cost: nat -> nat, order: seq<nat>, budget: nat, keep: set<nat>) {
    && (forall i: nat :: i in keep ==> i in order)
    && forall k :: 0 <= k < |order| ==> (order[k] in keep <==> Room(cost, keep, order, budget, k))
  }

  lemma {:induction false} GreedyTakes(cost: nat -> nat, order: seq<nat>, budget: nat)
    requires Distinct(order)
    ensures var c := Greedy(cost, order, budget);
            Takes(cost, order, budget, c.keep) && c.used == Spent(cost, c.keep, order)
  {
    if order != [] {
      var init, i := order[..|order| - 1], order[|order| - 1];
      hide Distinct, Takes, Spent, Room;
      InitDistinct(order);
      GreedyTakes(cost, init, budget);
      GreedyNext(cost, order, budget);
      hide Greedy;
      TakesNext(cost, init, i, budget, Greedy(cost, init, budget));
    }
  }

  lemma InitDistinct(order: seq<nat>)
    requires Distinct(order) && order != []
    ensures var init, i := order[..|order| - 1], order[|order| - 1];
            Distinct(init) && i !in init && order == init + [i]
  {
  }

  lemma GreedyNext(cost: nat -> nat, order: seq<nat>, budget: nat)
    requires order != []
    ensures var c, i := Greedy(cost, order[..|order| - 1], budget), order[|order| - 1];
            var takes := !(c.keep != {} && c.used >= budget) && (c.keep == {} || c.used + cost(i) <= budget);
            Greedy(cost, order, budget) == if takes then Choice(c.keep + {i}, c.used + cost(i)) else c
  {
  }

  lemma TakesNext(cost: nat -> nat, init: seq<nat>, i: nat, budget: nat, c: Choice)
    requires i !in init && Takes(cost, init, budget, c.keep) && c.used == Spent(cost, c.keep, init)
    ensures var takes := !(c.keep != {} && c.used >= budget) && (c.keep == {} || c.used + cost(i) <= budget);
            var keep := if takes then c.keep + {i} else c.keep;
            && Takes(cost, init + [i], budget, keep)
            && Spent(cost, keep, init + [i]) == if takes then c.used + cost(i) else c.used
  {
    var takes := !(c.keep != {} && c.used >= budget) && (c.keep == {} || c.used + cost(i) <= budget);
    var keep := if takes then c.keep + {i} else c.keep;
    if init != [] {
      assert init[0] in c.keep by { assert Room(cost, c.keep, init, budget, 0); }
    }
    TakesLonger(cost, c.keep, keep, init, i, budget);
    SpentSame(cost, c.keep, keep, init);
    hide Takes, Room;
    assert (init + [i])[..|init|] == init;
    assert Spent(cost, keep, init + [i]) == Spent(cost, keep, init) + if i in keep then cost(i) else 0;
  }

  lemma TakesLonger(cost: nat -> nat, was: set<nat>, keep: set<nat>, init: seq<nat>, i: nat, budget: nat)
    requires forall j: nat :: j in init ==> (j in keep <==> j in was)
    requires forall k :: 0 <= k < |init| ==> (init[k] in was <==> Room(cost, was, init, budget, k))
    requires i in keep <==>
             init == [] || (Spent(cost, was, init) < budget && Spent(cost, was, init) + cost(i) <= budget)
    ensures forall k :: 0 <= k <= |init| ==> ((init + [i])[k] in keep <==> Room(cost, keep, init + [i], budget, k))
  {
    hide Spent;
    var order := init + [i];
    forall k | 0 <= k <= |init| ensures order[k] in keep <==> Room(cost, keep, order, budget, k) {
      assert order[..k] == init[..k];
      SpentSame(cost, was, keep, init[..k]);
      if k < |init| {
        assert init[k] in was <==> Room(cost, was, init, budget, k);
      } else {
        assert init[..k] == init;
      }
    }
  }

  ghost predicate Room(cost: nat -> nat, keep: set<nat>, order: seq<nat>, budget: nat, k: nat)
    requires k < |order|
  {
    var spent := Spent(cost, keep, order[..k]);
    k == 0 || (spent < budget && spent + cost(order[k]) <= budget)
  }

  lemma {:induction false} NothingCosts(cost: nat -> nat, n: nat)
    ensures CostOf(cost, {}, n) == 0
  {
    if n > 0 { NothingCosts(cost, n - 1); }
  }

  lemma {:induction false} GreedyStopped(cost: nat -> nat, order: seq<nat>, budget: nat, k: nat)
    requires k <= |order| && Greedy(cost, order[..k], budget).keep != {}
    requires Greedy(cost, order[..k], budget).used >= budget
    ensures Greedy(cost, order, budget) == Greedy(cost, order[..k], budget)
  {
    if k == |order| {
      assert order[..k] == order;
    } else {
      assert order[..|order| - 1][..k] == order[..k];
      GreedyStopped(cost, order[..|order| - 1], budget, k);
    }
  }

  function CostAt(cfg: Config, sentences: seq<string>, i: nat): nat {
    if i < |sentences| then cfg.tokens(sentences[i]) else 0
  }

  function SentenceCost(cfg: Config, sentences: seq<string>): nat -> nat {
    (i: nat) => CostAt(cfg, sentences, i)
  }

  function Relevance(cfg: Config, query: string, sentences: seq<string>): nat -> Score {
    (i: nat) => if i < |sentences| then Some(cfg.relevance(query, sentences[i])) else None
  }

  function ByRelevance(cfg: Config, query: string, sentences: seq<string>): (r: seq<nat>)
    ensures |r| == |sentences| && (forall i: nat :: i in r ==> i < |sentences|)
  {
    var r := Descending(Relevance(cfg, query, sentences), UpTo(|sentences|));
    SameElements(r, UpTo(|sentences|));
    r
  }

  lemma ByRelevanceDistinct(cfg: Config, query: string, sentences: seq<string>)
    ensures Distinct(ByRelevance(cfg, query, sentences))
    ensures Ranked(Relevance(cfg, query, sentences), Here, ByRelevance(cfg, query, sentences))
  {
    DescendingRanks(Relevance(cfg, query, sentences), Here, UpTo(|sentences|));
    RankedDistinct(Relevance(cfg, query, sentences), Here, ByRelevance(cfg, query, sentences));
  }

  function Kept(cfg: Config, query: string, chunk: Chunk, budget: nat): set<nat> {
    var sentences := cfg.sentences(chunk.text);
    Greedy(SentenceCost(cfg, sentences), ByRelevance(cfg, query, sentences), budget).keep
  }

  predicate Whole(cfg: Config, chunk: Chunk, budget: nat) {
    cfg.tokens(chunk.text) <= budget || |cfg.sentences(chunk.text)| <= 1
  }

  /** The kept sentences, read off from the front. */
  function KeptOf(sentences: seq<string>, keep: set<nat>, n: nat): seq<string>
    requires n <= |sentences|
  {
    if n == 0 then []
    else if n - 1 in keep then KeptOf(sentences, keep, n - 1) + [sentences[n - 1]]
    else KeptOf(sentences, keep, n - 1)
  }

  lemma {:induction false} KeptSize(sentences: seq<string>, keep: set<nat>, n: nat)
    requires n <= |sentences| && forall i: nat :: i in keep ==> i < n
    ensures |KeptOf(sentences, keep, n)| == |keep| <= n
  {
    if n == 0 {
      assert keep == {};
    } else {
      var less: set<nat> := keep - {n - 1};
      KeptSize(sentences, less, n - 1);
      KeptSame(sentences, keep, less, n - 1);
      if n - 1 in keep { assert keep == less + {n - 1}; } else { assert keep == less; }
    }
  }

  lemma {:induction false} KeptSame(sentences: seq<string>, a: set<nat>, b: set<nat>, n: nat)
    requires n <= |sentences| && forall i: nat :: i < n ==> (i in a <==> i in b)
    ensures KeptOf(sentences, a, n) == KeptOf(sentences, b, n)
  {
    if n > 0 { KeptSame(sentences, a, b, n - 1); }
  }

  lemma PickOneMore(sentences: seq<string>, idx: seq<nat>, i: nat)
    requires i < |sentences| && forall k :: 0 <= k < |idx| ==> idx[k] < |sentences|
    ensures Pick(sentences, idx + [i]) == Pick(sentences, idx) + [sentences[i]] && idx + [] == idx
  {
  }

  /** The kept sentences stand in document order. */
  lemma {:induction false} KeptInOrder(sentences: seq<string>, keep: set<nat>, n: nat)
    requires n <= |sentences|
    ensures KeptOf(sentences, keep, n) == Pick(sentences, InOrder(keep, n))
  {
    if n > 0 {
      KeptInOrder(sentences, keep, n - 1);
      var before := InOrder(keep, n - 1);
      assert InOrder(keep, n) == before + if n - 1 in keep then [n - 1] else [];
      PickOneMore(sentences, before, n - 1);
    }
  }

  /** A chunk cut to its most relevant sentences, in document order. */
  function Trimmed(cfg: Config, query: string, chunk: Chunk, budget: nat): Chunk {
    if Whole(cfg, chunk, budget) then chunk
    else
      var sentences := cfg.sentences(chunk.text);
      chunk.(text := JoinSpace(KeptOf(sentences, Kept(cfg, query, chunk, budget), |sentences|)))
  }

  /** How many sentences a trim leaves out. */
  function Dropped(cfg: Config, query: string, chunk: Chunk, budget: nat): nat {
    if Whole(cfg, chunk, budget) then 0
    else
      KeptFacts(cfg, query, chunk, budget);
      |cfg.sentences(chunk.text)| - |Kept(cfg, query, chunk, budget)|
  }

  /** `r` is the chunk as it was when it fits or has one sentence; else its text is the sentences at
      `idx`, in document order with a space between, and a sentence is one of them exactly when it
      is the most relevant or fits beside the more relevant ones among them. */
  ghost predicate IsTrim(cfg: Config, query: string, chunk: Chunk, budget: nat, idx: seq<nat>, r: Chunk) {
    var sentences := cfg.sentences(chunk.text);
    if cfg.tokens(chunk.text) <= budget || |sentences| <= 1 then r == chunk
    else
      var order := ByRelevance(cfg, query, sentences);
      && Increasing(idx, |sentences|) && r == chunk.(text := JoinSpace(Pick(sentences, idx)))
      && forall k :: 0 <= k < |order| ==>
           (order[k] in idx <==> Room(SentenceCost(cfg, sentences), SetOf(idx), order, budget, k))
  }

  lemma TrimmedIsTrim(cfg: Config, query: string, chunk: Chunk, budget: nat) returns (idx: seq<nat>)
    ensures IsTrim(cfg, query, chunk, budget, idx, Trimmed(cfg, query, chunk, budget))
  {
    var sentences, keep := cfg.sentences(chunk.text), Kept(cfg, query, chunk, budget);
    idx := InOrder(keep, |sentences|);
    ByRelevanceDistinct(cfg, query, sentences);
    GreedyTakes(SentenceCost(cfg, sentences), ByRelevance(cfg, query, sentences), budget);
    KeptInOrder(sentences, keep, |sentences|);
    hide Greedy, ByRelevance, KeptOf, JoinSpace, Room, Increasing, InOrder, Ranked, Distinct, Spent;
    assert SetOf(idx) == keep;
  }

  method Choose(cost: nat -> nat, order: seq<nat>, budget: nat) returns (keepIdx: set<nat>)
    ensures keepIdx == Greedy(cost, order, budget).keep
  {
    var used: nat, n: nat := 0, 0;
    keepIdx := {};
    assert order[..0] == [];
    while n < |order|
      invariant n <= |order| && Choice(keepIdx, used) == Greedy(cost, order[..n], budget)
      invariant keepIdx == {} || used < budget
    {
      var i := order[n];
      assert order[..n + 1][..n] == order[..n];
      if keepIdx == {} || used + cost(i) <= budget {
        keepIdx, used := keepIdx + {i}, used + cost(i);
      }
      n := n + 1;
      if used >= budget {
        GreedyStopped(cost, order, budget, n);
        return;
      }
    }
    assert order[..|order|] == order;
  }

  method TrimChunk(cfg: Config, query: string, chunk: Chunk, budget: nat) returns (r: Chunk, dropped: nat)
    ensures r == Trimmed(cfg, query, chunk, budget)
    ensures dropped == Dropped(cfg, query, chunk, budget)
    ensures CutTo(cfg, query, chunk, budget, r)
  {
    TrimmedCuts(cfg, query, chunk, budget);
    if cfg.tokens(chunk.text) <= budget { return chunk, 0; }
    var sentences := cfg.sentences(chunk.text);
    if |sentences| <= 1 { return chunk, 0; }
    var keepIdx := Choose(SentenceCost(cfg, sentences), ByRelevance(cfg, query, sentences), budget);
    assert keepIdx == Kept(cfg, query, chunk, budget);
    KeptFacts(cfg, query, chunk, budget);
    hide Greedy, ByRelevance, KeptOf, JoinSpace, Kept;
    r := chunk.(text := JoinSpace(KeptOf(sentences, keepIdx, |sentences|)));
    dropped := |sentences| - |keepIdx|;
  }

  /** The best sentence is kept and the kept ones fit unless it is alone. */
  lemma KeptFacts(cfg: Config, query: string, chunk: Chunk, budget: nat)
    requires cfg.sentences(chunk.text) != []
    ensures var sentences, keep := cfg.sentences(chunk.text), Kept(cfg, query, chunk, budget);
            var best := ByRelevance(cfg, query, sentences)[0];
            && best in keep && |KeptOf(sentences, keep, |sentences|)| == |keep| <= |sentences|
            && CostOf(SentenceCost(cfg, sentences), keep, |sentences|) <= Max(budget, cfg.tokens(sentences[best]))
  {
    var sentences, keep := cfg.sentences(chunk.text), Kept(cfg, query, chunk, budget);
    var cost, order, n := SentenceCost(cfg, sentences), ByRelevance(cfg, query, sentences), |sentences|;
    ByRelevanceDistinct(cfg, query, sentences);
    GreedyFits(cost, order, budget, n);
    hide Greedy, ByRelevance, CostOf, Ranked;
    KeptSize(sentences, keep, n);
    NothingCosts(cost, n);
    CostOfAdding(cost, {}, order[0], n);
    assert {} + {order[0]} == {order[0]};
  }

  /** Joining two texts with a space costs at most their tokens and `slack` more. */
  ghost predicate JoinsWithin(cfg: Config, slack: nat) {
    forall a, b :: cfg.tokens(a + " " + b) <= cfg.tokens(a) + cfg.tokens(b) + slack
  }

  /** `n` parts need `n - 1` joins. */
  function Spaces(slack: nat, n: nat): nat {
    if n <= 1 then 0 else Spaces(slack, n - 1) + slack
  }

  lemma JoinOne(cfg: Config, slack: nat, parts: seq<string>)
    requires JoinsWithin(cfg, slack) && |parts| >= 2
    ensures cfg.tokens(JoinSpace(parts)) <= cfg.tokens(JoinSpace(parts[..|parts| - 1]))
            + cfg.tokens(parts[|parts| - 1]) + slack
  {
  }

  lemma {:induction false} JoinCost(cfg: Config, slack: nat, sentences: seq<string>, keep: set<nat>, n: nat)
    requires JoinsWithin(cfg, slack) && n <= |sentences| && KeptOf(sentences, keep, n) != []
    ensures cfg.tokens(JoinSpace(KeptOf(sentences, keep, n))) <=
            CostOf(SentenceCost(cfg, sentences), keep, n) + Spaces(slack, |KeptOf(sentences, keep, n)|)
  {
    var before := KeptOf(sentences, keep, n - 1);
    if before != [] { JoinCost(cfg, slack, sentences, keep, n - 1); }
    if n - 1 in keep {
      JoinLast(cfg, slack, before, sentences[n - 1]);
      hide JoinsWithin, JoinSpace;
    }
  }

  lemma JoinLast(cfg: Config, slack: nat, before: seq<string>, last: string)
    requires JoinsWithin(cfg, slack)
    ensures before == [] ==> JoinSpace(before + [last]) == last
    ensures before != [] ==>
              cfg.tokens(JoinSpace(before + [last])) <= cfg.tokens(JoinSpace(before)) + cfg.tokens(last) + slack
  {
    if before != [] {
      assert (before + [last])[..|before|] == before;
      JoinOne(cfg, slack, before + [last]);
    }
  }

  /** A trim meets its target up to the join slack, unless the chunk has one sentence or its most
      relevant sentence alone is too long; then it costs just that. */
  lemma TrimmedCost(cfg: Config, slack: nat, query: string, chunk: Chunk, budget: nat)
    requires JoinsWithin(cfg, slack)
    ensures var sentences := cfg.sentences(chunk.text);
            var r := cfg.tokens(Trimmed(cfg, query, chunk, budget).text);
            if Whole(cfg, chunk, budget) then r == cfg.tokens(chunk.text)
            else
              var best := cfg.tokens(sentences[ByRelevance(cfg, query, sentences)[0]]);
              var kept := |Kept(cfg, query, chunk, budget)|;
              1 <= kept <= |sentences| && r <= Max(budget, best) + Spaces(slack, kept)
  {
    if !Whole(cfg, chunk, budget) {
      KeptFacts(cfg, query, chunk, budget);
      hide JoinsWithin, Kept, ByRelevance, CostOf, KeptOf, JoinSpace;
      var sentences, keep := cfg.sentences(chunk.text), Kept(cfg, query, chunk, budget);
      assert keep != {};
      JoinCost(cfg, slack, sentences, keep, |sentences|);
    }
  }

  // ------------------------------------------------------------------ the token budget

  datatype Filling = Filling(kept: seq<Chunk>, used: nat, excess: nat, dropped: nat, stopped: bool)

  function Required(cfg: Config, chunks: seq<Chunk>): nat { Min(cfg.minChunks, |chunks|) }

  /** What a trim may use: an even share of what is left for the chunks still required, at least 1. */
  function Share(cfg: Config, need: nat, kept: nat, used: nat): (r: nat)
    ensures r >= 1
  {
    Max(FloorDiv(cfg.budget - used, Max(need - kept, 1)), 1)
  }

  /** Python's floor division. */
  function FloorDiv(a: int, b: int): (q: int)
    requires b > 0
    ensures q * b <= a < q * b + b
    ensures a >= 0 ==> q <= a
    ensures a <= 0 ==> q <= 0
  {
    var q := a / b;
    assert a == q * b + a % b;
    FloorBounds(a, b, q);
    q
  }

  lemma FloorBounds(a: int, b: int, q: int)
    requires b > 0 && q * b <= a < q * b + b
    ensures a >= 0 ==> q <= a
    ensures a <= 0 ==> q <= 0
  {
    if q > 0 { ProductAtLeast(q, b); }
  }

  lemma ProductAtLeast(q: int, b: int)
    requires q > 0 && b > 0
    ensures q * b >= q && q * b >= b
  {
    assert (q - 1) * b >= 0 && q * (b - 1) >= 0;
  }

  function FillOne(cfg: Config, query: string, need: nat, f: Filling, chunk: Chunk): Filling {
    var cost := cfg.tokens(chunk.text);
    var remaining := cfg.budget - f.used;
    if f.stopped then f
    else if cost <= remaining then f.(kept := f.kept + [chunk], used := f.used + cost)
    else if remaining <= 0 && |f.kept| >= need then f.(stopped := true)
    else
      var share := Share(cfg, need, |f.kept|, f.used);
      var trimmed := Trimmed(cfg, query, chunk, share);
      var size := cfg.tokens(trimmed.text);
      Filling(f.kept + [trimmed], f.used + size, f.excess + Max(size - share, 0),
              f.dropped + Dropped(cfg, query, chunk, share), |f.kept| >= need)
  }

  /** The state after the first `n` chunks. `excess` sums by how much each trim missed its share. */
  function Filled(cfg: Config, query: string, chunks: seq<Chunk>, n: nat): Filling
    requires n <= |chunks|
  {
    if n == 0 then Filling([], 0, 0, 0, false)
    else FillOne(cfg, query, Required(cfg, chunks), Filled(cfg, query, chunks, n - 1), chunks[n - 1])
  }

  function TokensOf(cfg: Config, chunks: seq<Chunk>): nat {
    if chunks == [] then 0 else TokensOf(cfg, chunks[..|chunks| - 1]) + cfg.tokens(chunks[|chunks| - 1].text)
  }

  /** The same chunk, whole or cut to sentences. */
  predicate SameSource(a: Chunk, b: Chunk) { a == b.(text := a.text) }

  lemma {:induction false} FilledStops(cfg: Config, query: string, chunks: seq<Chunk>, k: nat, n: nat)
    requires k <= n <= |chunks| && (k == n || Filled(cfg, query, chunks, k).stopped)
    ensures Filled(cfg, query, chunks, n) == Filled(cfg, query, chunks, k)
  {
    hide FillOne;
    if k < n {
      FilledStops(cfg, query, chunks, k, n - 1);
      FillOneStopped(cfg, query, Required(cfg, chunks), Filled(cfg, query, chunks, n - 1), chunks[n - 1]);
    }
  }

  lemma FilledNext(cfg: Config, query: string, chunks: seq<Chunk>, n: nat)
    requires n <= |chunks|
    ensures Filled(cfg, query, chunks, 0) == Filling([], 0, 0, 0, false)
    ensures n < |chunks| ==>
              Filled(cfg, query, chunks, n + 1) ==
                  FillOne(cfg, query, Required(cfg, chunks), Filled(cfg, query, chunks, n), chunks[n])
  {
  }

  lemma FillOneStopped(cfg: Config, query: string, need: nat, f: Filling, chunk: Chunk)
    requires f.stopped
    ensures FillOne(cfg, query, need, f, chunk) == f
  {
  }

  /** One chunk of the fill: added whole, trimmed, or refused; `stop` ends the fill. */
  method Place(cfg: Config, query: string, need: nat, kept: seq<Chunk>, used: nat, chunk: Chunk, ghost f: Filling)
    returns (kept': seq<Chunk>, used': nat, dropped: nat, stop: bool)
    requires f == Filling(kept, used, f.excess, f.dropped, false)
    ensures var g := FillOne(cfg, query, need, f, chunk);
            g == Filling(kept', used', g.excess, f.dropped + dropped, stop)
  {
    var remaining, cost := cfg.budget - used, cfg.tokens(chunk.text);
    kept', used', dropped, stop := kept, used, 0, false;
    hide Trimmed, Share, Kept, Whole, Dropped;
    if cost <= remaining {
      kept', used' := kept + [chunk], used + cost;
    } else {
      var mustKeep := |kept| < need;
      stop := !mustKeep;
      if remaining > 0 || mustKeep {
        var trimmed;
        trimmed, dropped := TrimChunk(cfg, query, chunk, Share(cfg, need, |kept|, used));
        kept', used' := kept + [trimmed], used + cfg.tokens(trimmed.text);
      }
    }
  }

  method TokenBudgetFill(cfg: Config, query: string, chunks: seq<Chunk>)
    returns (kept: seq<Chunk>, sentencesDropped: nat)
    ensures kept == Filled(cfg, query, chunks, |chunks|).kept
    ensures sentencesDropped == Filled(cfg, query, chunks, |chunks|).dropped
    ensures Fills(cfg, query, chunks, kept)
  {
    hide *;
    var used: nat, n: nat, stop := 0, 0, false;
    kept, sentencesDropped := [], 0;
    NothingFilled(cfg, query, chunks);
    while n < |chunks| && !stop
      invariant n <= |chunks| && Reached(Filled(cfg, query, chunks, n), kept, used, sentencesDropped, stop)
    {
      kept, used, sentencesDropped, stop := FillNext(cfg, query, chunks, n, kept, used, sentencesDropped);
      n := n + 1;
    }
    AllFilled(cfg, query, chunks, n, kept, used, sentencesDropped, stop);
    FillSays(cfg, query, chunks);
  }

  lemma NothingFilled(cfg: Config, query: string, chunks: seq<Chunk>)
    ensures Reached(Filled(cfg, query, chunks, 0), [], 0, 0, false)
  {
  }

  lemma AllFilled(cfg: Config, query: string, chunks: seq<Chunk>, n: nat,
                  kept: seq<Chunk>, used: nat, dropped: nat, stop: bool)
    requires n <= |chunks| && Reached(Filled(cfg, query, chunks, n), kept, used, dropped, stop)
    requires n == |chunks| || stop
    ensures kept == Filled(cfg, query, chunks, |chunks|).kept && dropped == Filled(cfg, query, chunks, |chunks|).dropped
  {
    hide Filled;
    FilledStops(cfg, query, chunks, n, |chunks|);
  }

  ghost predicate Reached(f: Filling, kept: seq<Chunk>, used: nat, dropped: nat, stop: bool) {
    f == Filling(kept, used, f.excess, dropped, stop)
  }

  method FillNext(cfg: Config, query: string, chunks: seq<Chunk>, n: nat, kept: seq<Chunk>, used: nat, dropped: nat)
    returns (kept': seq<Chunk>, used': nat, dropped': nat, stop: bool)
    requires n < |chunks| && Reached(Filled(cfg, query, chunks, n), kept, used, dropped, false)
    ensures Reached(Filled(cfg, query, chunks, n + 1), kept', used', dropped', stop)
  {
    hide FillOne, Required;
    FilledNext(cfg, query, chunks, n);
    var more;
    kept', used', more, stop := Place(cfg, query, Required(cfg, chunks), kept, used, chunks[n],
                                      Filled(cfg, query, chunks, n));
    dropped' := dropped + more;
  }

  lemma TokensOfSnoc(cfg: Config, chunks: seq<Chunk>, c: Chunk)
    ensures TokensOf(cfg, chunks + [c]) == TokensOf(cfg, chunks) + cfg.tokens(c.text)
  {
    assert (chunks + [c])[..|chunks|] == chunks;
  }

  /** What every stage of a fill satisfies: chunks kept from the front without a gap, each whole or
      trimmed; all of them until it stops, and then at least the required ones. */
  ghost predicate KeepsFront(cfg: Config, need: nat, chunks: seq<Chunk>, n: nat, f: Filling) {
    && |f.kept| <= n <= |chunks| && (forall k :: 0 <= k < |f.kept| ==> SameSource(f.kept[k], chunks[k]))
    && (!f.stopped ==> |f.kept| == n) && (f.stopped ==> |f.kept| >= need)
    && f.used == TokensOf(cfg, f.kept)
  }

  lemma FillOneKeepsFront(cfg: Config, query: string, need: nat, chunks: seq<Chunk>, n: nat, f: Filling)
    requires n < |chunks| && KeepsFront(cfg, need, chunks, n, f)
    ensures KeepsFront(cfg, need, chunks, n + 1, FillOne(cfg, query, need, f, chunks[n]))
  {
    hide Trimmed, Share, TokensOf, Dropped, SameSource;
    var share := Share(cfg, need, |f.kept|, f.used);
    TrimmedSame(cfg, query, chunks[n], share);
    TokensOfSnoc(cfg, f.kept, chunks[n]);
    TokensOfSnoc(cfg, f.kept, Trimmed(cfg, query, chunks[n], share));
  }

  /** A trim touches nothing but the text. */
  lemma TrimmedSame(cfg: Config, query: string, c: Chunk, budget: nat)
    ensures SameSource(Trimmed(cfg, query, c, budget), c) && SameSource(c, c)
  {
  }

  lemma {:induction false} FilledKeepsFront(cfg: Config, query: string, chunks: seq<Chunk>, n: nat)
    requires n <= |chunks|
    ensures KeepsFront(cfg, Required(cfg, chunks), chunks, n, Filled(cfg, query, chunks, n))
  {
    hide FillOne;
    if n > 0 {
      FilledKeepsFront(cfg, query, chunks, n - 1);
      FillOneKeepsFront(cfg, query, Required(cfg, chunks), chunks, n - 1, Filled(cfg, query, chunks, n - 1));
    }
  }

  /** The chunk fits what the ones kept before it leave of the budget. */
  ghost predicate Fits(cfg: Config, chunk: Chunk, kept: seq<Chunk>, k: nat)
    requires k <= |kept|
  {
    cfg.tokens(chunk.text) <= cfg.budget - TokensOf(cfg, kept[..k])
  }

  /** A chunk that fits comes out whole; one that does not is trimmed to its part of what is left:
      an even one among the chunks still required, never below one token. */
  ghost predicate Placed(cfg: Config, query: string, need: nat, chunk: Chunk, kept: seq<Chunk>, k: nat)
    requires k < |kept|
  {
    if Fits(cfg, chunk, kept, k) then kept[k] == chunk
    else
      var left := cfg.budget - TokensOf(cfg, kept[..k]);
      CutTo(cfg, query, chunk, Max(left / Max(need - k, 1), 1), kept[k])
  }

  ghost predicate CutTo(cfg: Config, query: string, chunk: Chunk, share: nat, r: Chunk) {
    exists idx :: IsTrim(cfg, query, chunk, share, idx, r)
  }

  /** Past the required chunks every one kept fits, but the last may be cut if there is budget left. */
  ghost predicate FitsBeyond(cfg: Config, need: nat, chunks: seq<Chunk>, kept: seq<Chunk>)
    requires |kept| <= |chunks|
  {
    forall k :: need <= k < |kept| ==> BeyondAt(cfg, chunks, kept, k)
  }

  ghost predicate BeyondAt(cfg: Config, chunks: seq<Chunk>, kept: seq<Chunk>, k: nat)
    requires k < |kept| <= |chunks|
  {
    || Fits(cfg, chunks[k], kept, k)
    || (k == |kept| - 1 && TokensOf(cfg, kept[..k]) < cfg.budget)
  }

  /** Why a fill ends: its last chunk had to be cut, or the next one finds nothing left. */
  ghost predicate Ends(cfg: Config, need: nat, chunks: seq<Chunk>, kept: seq<Chunk>)
    requires |kept| <= |chunks|
  {
    || (need < |kept| && !Fits(cfg, chunks[|kept| - 1], kept, |kept| - 1))
    || (|kept| < |chunks| && TokensOf(cfg, kept) >= cfg.budget && !Fits(cfg, chunks[|kept|], kept, |kept|))
  }

  /** What a fill gives, said of its result alone. */
  ghost predicate Fills(cfg: Config, query: string, chunks: seq<Chunk>, kept: seq<Chunk>) {
    var need := Min(cfg.minChunks, |chunks|);
    && need <= |kept| <= |chunks|
    && (forall k :: 0 <= k < |kept| ==> Placed(cfg, query, need, chunks[k], kept, k))
    && FitsBeyond(cfg, need, chunks, kept)
    && (|kept| < |chunks| ==> Ends(cfg, need, chunks, kept))
  }

  /** The same, of a stage of the fill. */
  ghost predicate Front(cfg: Config, query: string, need: nat, chunks: seq<Chunk>, kept: seq<Chunk>, stopped: bool) {
    && |kept| <= |chunks|
    && (forall k :: 0 <= k < |kept| ==> Placed(cfg, query, need, chunks[k], kept, k))
    && FitsBeyond(cfg, need, chunks, kept)
    && (stopped ==> Ends(cfg, need, chunks, kept))
    && (!stopped && need < |kept| ==> Fits(cfg, chunks[|kept| - 1], kept, |kept| - 1))
  }

  /** Adding a chunk at the end changes nothing before it. */
  lemma PlacedLonger(cfg: Config, query: string, need: nat, chunks: seq<Chunk>, kept: seq<Chunk>, c: Chunk)
    requires |kept| < |chunks| && forall k :: 0 <= k < |kept| ==> Placed(cfg, query, need, chunks[k], kept, k)
    requires Placed(cfg, query, need, chunks[|kept|], kept + [c], |kept|)
    ensures forall k :: 0 <= k < |kept + [c]| ==> Placed(cfg, query, need, chunks[k], kept + [c], k)
  {
    hide TokensOf, IsTrim;
    forall k | 0 <= k < |kept| ensures Placed(cfg, query, need, chunks[k], kept + [c], k) {
      assert Placed(cfg, query, need, chunks[k], kept, k);
      assert (kept + [c])[..k] == kept[..k];
    }
  }

  lemma FitsLonger(cfg: Config, need: nat, chunks: seq<Chunk>, kept: seq<Chunk>, c: Chunk)
    requires |kept| < |chunks| && FitsBeyond(cfg, need, chunks, kept)
    requires need < |kept| ==> Fits(cfg, chunks[|kept| - 1], kept, |kept| - 1)
    requires need <= |kept| ==> Fits(cfg, chunks[|kept|], kept, |kept|) || TokensOf(cfg, kept) < cfg.budget
    ensures FitsBeyond(cfg, need, chunks, kept + [c])
  {
    forall k | need <= k <= |kept| ensures BeyondAt(cfg, chunks, kept + [c], k) {
      assert k < |kept| ==> BeyondAt(cfg, chunks, kept, k);
      SliceOfPrefix(kept, kept + [c], 0, k);
      assert kept[..|kept|] == kept;
      hide TokensOf;
    }
  }

  /** One more chunk, whole, cut while required, or cut as the last. */
  lemma FrontLonger(cfg: Config, query: string, need: nat, chunks: seq<Chunk>, kept: seq<Chunk>, c: Chunk, stop: bool)
    requires Front(cfg, query, need, chunks, kept, false) && |kept| < |chunks|
    requires Placed(cfg, query, need, chunks[|kept|], kept + [c], |kept|)
    requires stop ==> need <= |kept| && TokensOf(cfg, kept) < cfg.budget && !Fits(cfg, chunks[|kept|], kept, |kept|)
    requires !stop && need <= |kept| ==> Fits(cfg, chunks[|kept|], kept, |kept|)
    ensures Front(cfg, query, need, chunks, kept + [c], stop)
  {
    PlacedLonger(cfg, query, need, chunks, kept, c);
    FitsLonger(cfg, need, chunks, kept, c);
    FitsSame(cfg, chunks[|kept|], kept, c);
    hide Placed, Fits, FitsBeyond;
  }

  lemma FitsSame(cfg: Config, chunk: Chunk, kept: seq<Chunk>, c: Chunk)
    ensures Fits(cfg, chunk, kept + [c], |kept|) <==> cfg.tokens(chunk.text) <= cfg.budget - TokensOf(cfg, kept)
    ensures Fits(cfg, chunk, kept, |kept|) <==> cfg.tokens(chunk.text) <= cfg.budget - TokensOf(cfg, kept)
  {
    hide TokensOf;
    assert (kept + [c])[..|kept|] == kept && kept[..|kept|] == kept;
  }

  /** What the fill adds is placed as it should be. */
  lemma PlacedLast(cfg: Config, query: string, need: nat, chunk: Chunk, kept: seq<Chunk>)
    ensures var used := TokensOf(cfg, kept);
            Placed(cfg, query, need, chunk,
                   kept + [if cfg.tokens(chunk.text) <= cfg.budget - used then chunk
                           else Trimmed(cfg, query, chunk, Share(cfg, need, |kept|, used))], |kept|)
  {
    var used := TokensOf(cfg, kept);
    hide *;
    if cfg.tokens(chunk.text) <= cfg.budget - used {
      LastIsPlaced(cfg, query, need, chunk, kept, chunk);
    } else {
      var share := Share(cfg, need, |kept|, used);
      TrimmedCuts(cfg, query, chunk, share);
      ShareIs(cfg, need, |kept|, used);
      LastIsPlaced(cfg, query, need, chunk, kept, Trimmed(cfg, query, chunk, share));
    }
  }

  lemma TrimmedCuts(cfg: Config, query: string, chunk: Chunk, share: nat)
    ensures CutTo(cfg, query, chunk, share, Trimmed(cfg, query, chunk, share))
  {
    hide IsTrim, Trimmed;
    var _ := TrimmedIsTrim(cfg, query, chunk, share);
  }

  lemma LastIsPlaced(cfg: Config, query: string, need: nat, chunk: Chunk, kept: seq<Chunk>, c: Chunk)
    ensures var left := cfg.budget - TokensOf(cfg, kept);
            Placed(cfg, query, need, chunk, kept + [c], |kept|) <==>
            if cfg.tokens(chunk.text) <= left then c == chunk
            else CutTo(cfg, query, chunk, Max(left / Max(need - |kept|, 1), 1), c)
  {
    hide TokensOf, CutTo;
    FitsSame(cfg, chunk, kept, c);
    hide Fits;
    assert (kept + [c])[..|kept|] == kept;
  }

  lemma ShareIs(cfg: Config, need: nat, kept: nat, used: nat)
    ensures Share(cfg, need, kept, used) == Max((cfg.budget - used) / Max(need - kept, 1), 1)
  {
  }

  lemma FillOneFills(cfg: Config, query: string, need: nat, chunks: seq<Chunk>, n: nat, f: Filling)
    requires n < |chunks| && KeepsFront(cfg, need, chunks, n, f)
    requires Front(cfg, query, need, chunks, f.kept, f.stopped)
    ensures var g := FillOne(cfg, query, need, f, chunks[n]);
            |g.kept| <= |chunks| && Front(cfg, query, need, chunks, g.kept, g.stopped)
  {
    if !f.stopped {
      PlacedLast(cfg, query, need, chunks[n], f.kept);
      FitsSame(cfg, chunks[n], f.kept, chunks[n]);
      var g := FillOne(cfg, query, need, f, chunks[n]);
      hide Trimmed, Share, TokensOf, Dropped, SameSource, Placed, Fits;
      if g.kept == f.kept {
        hide FitsBeyond;
        assert f.kept[..n] == f.kept;
      } else {
        var c := g.kept[|f.kept|];
        assert g.kept == f.kept + [c];
        hide Front, FillOne;
        FrontLonger(cfg, query, need, chunks, f.kept, c, g.stopped);
      }
    }
  }

  lemma {:induction false} FilledFills(cfg: Config, query: string, chunks: seq<Chunk>, n: nat)
    requires n <= |chunks|
    ensures Front(cfg, query, Required(cfg, chunks), chunks,
                  Filled(cfg, query, chunks, n).kept, Filled(cfg, query, chunks, n).stopped)
  {
    hide FillOne, Placed, Ends, Fits, Required;
    if n > 0 {
      FilledFills(cfg, query, chunks, n - 1);
      FilledKeepsFront(cfg, query, chunks, n - 1);
      hide Front, KeepsFront;
      FillOneFills(cfg, query, Required(cfg, chunks), chunks, n - 1, Filled(cfg, query, chunks, n - 1));
    }
  }

  /** What the fill gives is what its result says by itself. */
  lemma FillSays(cfg: Config, query: string, chunks: seq<Chunk>)
    ensures Fills(cfg, query, chunks, Filled(cfg, query, chunks, |chunks|).kept)
  {
    hide Filled, Placed, FitsBeyond, Ends, Fits;
    FilledFills(cfg, query, chunks, |chunks|);
    FilledKeepsFront(cfg, query, chunks, |chunks|);
  }

  /** Required chunks that find the budget spent cost one token each beyond it. */
  function Spill(cfg: Config, need: nat, k: nat): nat {
    if cfg.budget > 0 then Max(Min(k, need) - 1, 0) else Min(k, need)
  }

  ghost predicate Within(cfg: Config, need: nat, f: Filling) {
    && f.used <= Max(cfg.budget, 0) + Spill(cfg, need, |f.kept|) + f.excess
    && (f.kept == [] ==> f.used == 0)
  }

  lemma FillOneWithin(cfg: Config, query: string, need: nat, f: Filling, chunk: Chunk)
    requires Within(cfg, need, f)
    ensures Within(cfg, need, FillOne(cfg, query, need, f, chunk))
  {
    var share := Share(cfg, need, |f.kept|, f.used);
    assert cfg.budget - f.used > 0 ==> share <= cfg.budget - f.used;
    assert cfg.budget - f.used <= 0 ==> share == 1;
    hide Trimmed, Share, Dropped;
  }

  lemma {:induction false} FilledWithin(cfg: Config, query: string, chunks: seq<Chunk>, n: nat)
    requires n <= |chunks|
    ensures Within(cfg, Required(cfg, chunks), Filled(cfg, query, chunks, n))
  {
    hide FillOne;
    if n > 0 {
      FilledWithin(cfg, query, chunks, n - 1);
      FillOneWithin(cfg, query, Required(cfg, chunks), Filled(cfg, query, chunks, n - 1), chunks[n - 1]);
    }
  }

  /** The total of a fill: at most the budget and one token for every required chunk after the
      first, plus by how much trims missed their share; and at least the required chunks. */
  lemma FillBound(cfg: Config, query: string, chunks: seq<Chunk>)
    requires cfg.budget > 0
    ensures var f := Filled(cfg, query, chunks, |chunks|);
            && |f.kept| >= Min(cfg.minChunks, |chunks|)
            && TokensOf(cfg, f.kept) <= cfg.budget + Max(Min(cfg.minChunks, |chunks|) - 1, 0) + f.excess
  {
    FilledKeepsFront(cfg, query, chunks, |chunks|);
    FilledWithin(cfg, query, chunks, |chunks|);
  }

  /** By how much a trim to a share can miss it: one sentence cannot be split, and the most relevant
      sentence is kept whatever it costs, with a join for every sentence kept after it. */
  function Miss(cfg: Config, slack: nat, query: string, c: Chunk, share: nat): nat {
    var sentences := cfg.sentences(c.text);
    if |sentences| <= 1 then Max(cfg.tokens(c.text) - share, 0)
    else
      Max(cfg.tokens(sentences[ByRelevance(cfg, query, sentences)[0]]) - share, 0)
      + Spaces(slack, |Kept(cfg, query, c, share)|)
  }

  /** The fill cuts this chunk: it overflows, and is still required or there is budget left. */
  predicate Cuts(cfg: Config, need: nat, f: Filling, c: Chunk) {
    && !f.stopped && cfg.tokens(c.text) > cfg.budget - f.used
    && (cfg.budget - f.used > 0 || |f.kept| < need)
  }

  /** What one chunk of the fill is charged: its miss of its own share if it is cut, else nothing. */
  function Charge(cfg: Config, slack: nat, query: string, need: nat, f: Filling, c: Chunk): nat {
    if Cuts(cfg, need, f, c) then Miss(cfg, slack, query, c, Share(cfg, need, |f.kept|, f.used)) else 0
  }

  /** The misses of the chunks that are cut; a chunk kept whole and one never reached cost nothing. */
  function Misses(cfg: Config, slack: nat, query: string, chunks: seq<Chunk>, n: nat): nat
    requires n <= |chunks|
  {
    if n == 0 then 0
    else
      Misses(cfg, slack, query, chunks, n - 1)
      + Charge(cfg, slack, query, Required(cfg, chunks), Filled(cfg, query, chunks, n - 1), chunks[n - 1])
  }

  lemma TrimMisses(cfg: Config, slack: nat, query: string, c: Chunk, share: nat)
    requires JoinsWithin(cfg, slack)
    ensures Max(cfg.tokens(Trimmed(cfg, query, c, share).text) - share, 0) <= Miss(cfg, slack, query, c, share)
  {
    TrimmedCost(cfg, slack, query, c, share);
    hide JoinsWithin, Trimmed, Kept, ByRelevance;
  }

  lemma FillOneExcess(cfg: Config, slack: nat, query: string, need: nat, f: Filling, c: Chunk)
    requires JoinsWithin(cfg, slack)
    ensures FillOne(cfg, query, need, f, c).excess <= f.excess + Charge(cfg, slack, query, need, f, c)
  {
    TrimMisses(cfg, slack, query, c, Share(cfg, need, |f.kept|, f.used));
    hide JoinsWithin, Trimmed, Miss, Share, Dropped;
  }

  /** The overshoot is owed to the trims that missed their share, and each of those to a chunk of one
      sentence or to a leading sentence longer than the share, and to the joins. */
  lemma {:induction false} ExcessBound(cfg: Config, slack: nat, query: string, chunks: seq<Chunk>, n: nat)
    requires JoinsWithin(cfg, slack) && n <= |chunks|
    ensures Filled(cfg, query, chunks, n).excess <= Misses(cfg, slack, query, chunks, n)
  {
    hide FillOne, Charge, JoinsWithin, Required;
    if n > 0 {
      ExcessBound(cfg, slack, query, chunks, n - 1);
      FillOneExcess(cfg, slack, query, Required(cfg, chunks), Filled(cfg, query, chunks, n - 1), chunks[n - 1]);
    }
  }

  /** Altogether: the budget, one token for each required chunk after the first, and the misses. */
  lemma FillWithinMisses(cfg: Config, slack: nat, query: string, chunks: seq<Chunk>)
    requires JoinsWithin(cfg, slack) && cfg.budget > 0
    ensures TokensOf(cfg, Filled(cfg, query, chunks, |chunks|).kept) <=
            cfg.budget + Max(Min(cfg.minChunks, |chunks|) - 1, 0) + Misses(cfg, slack, query, chunks, |chunks|)
  {
    FillBound(cfg, query, chunks);
    hide Filled, Misses, TokensOf, JoinsWithin;
    ExcessBound(cfg, slack, query, chunks, |chunks|);
  }

  /** The chunk has several sentences, the best of which fits its share. */
  predicate SplitsWithin(cfg: Config, query: string, c: Chunk, share: nat) {
    var sentences := cfg.sentences(c.text);
    |sentences| > 1 && cfg.tokens(sentences[ByRelevance(cfg, query, sentences)[0]]) <= share
  }

  /** Either not cut, or cut at sentences to its share. */
  predicate Splits(cfg: Config, query: string, need: nat, f: Filling, c: Chunk) {
    Cuts(cfg, need, f, c) ==> SplitsWithin(cfg, query, c, Share(cfg, need, |f.kept|, f.used))
  }

  lemma {:induction false} NoJoinCost(n: nat)
    ensures Spaces(0, n) == 0
  {
    if n > 1 { NoJoinCost(n - 1); }
  }

  lemma NoCharge(cfg: Config, query: string, need: nat, f: Filling, c: Chunk)
    requires Splits(cfg, query, need, f, c)
    ensures Charge(cfg, 0, query, need, f, c) == 0
  {
    NoJoinCost(|Kept(cfg, query, c, Share(cfg, need, |f.kept|, f.used))|);
    hide Share, ByRelevance, Kept, Spaces;
  }

  /** When every cut chunk splits and joining costs nothing, no trim misses its target. */
  lemma {:induction false} NoMisses(cfg: Config, query: string, chunks: seq<Chunk>, n: nat)
    requires n <= |chunks|
    requires forall k :: 0 <= k < n ==> Splits(cfg, query, Required(cfg, chunks), Filled(cfg, query, chunks, k),
                                               chunks[k])
    ensures Misses(cfg, 0, query, chunks, n) == 0
  {
    hide Splits, Charge, Required, Filled;
    if n > 0 {
      NoMisses(cfg, query, chunks, n - 1);
      NoCharge(cfg, query, Required(cfg, chunks), Filled(cfg, query, chunks, n - 1), chunks[n - 1]);
    }
  }

  lemma FillMeetsTargets(cfg: Config, query: string, chunks: seq<Chunk>)
    requires JoinsWithin(cfg, 0) && cfg.budget > 0
    requires forall k :: 0 <= k < |chunks| ==>
               Splits(cfg, query, Required(cfg, chunks), Filled(cfg, query, chunks, k), chunks[k])
    ensures TokensOf(cfg, Filled(cfg, query, chunks, |chunks|).kept) <= cfg.budget
            + Max(Min(cfg.minChunks, |chunks|) - 1, 0)
  {
    hide *;
    NoMisses(cfg, query, chunks, |chunks|);
    FillWithinMisses(cfg, 0, query, chunks);
  }

  // ------------------------------------------------------------------ the whole stage

  lemma PickPick(chunks: seq<Chunk>, a: seq<nat>, b: seq<nat>)
    requires Increasing(a, |chunks|) && Increasing(b, |a|)
    ensures Increasing(Pick(a, b), |chunks|) && Pick(Pick(chunks, a), b) == Pick(chunks, Pick(a, b))
  {
  }

  /** Each chunk kept is the one at its position of the input, whole or trimmed. */
  ghost predicate Embeds(chunks: seq<Chunk>, idx: seq<nat>, kept: seq<Chunk>) {
    && Increasing(idx, |chunks|) && |idx| == |kept|
    && forall k :: 0 <= k < |kept| ==> SameSource(kept[k], chunks[idx[k]])
  }

  /** Which of some positions hold a chunk at or above the floor, or an unscored one. */
  ghost function Strong(cfg: Config, chunks: seq<Chunk>, among: seq<nat>): set<nat> {
    set i | i in among && i < |chunks| && (chunks[i].score.Some? ==> chunks[i].score.value >= cfg.floor)
  }

  /** What the floor leaves of those: all of them when they are few; the ones that clear it, or the
      best minimum when too few do. */
  ghost predicate Floored(cfg: Config, chunks: seq<Chunk>, unique: seq<nat>, strong: seq<nat>) {
    && Increasing(strong, |chunks|) && |strong| >= Min(cfg.minChunks, |unique|)
    && (forall i: nat :: i in strong ==> i in unique)
    && (|unique| <= cfg.minChunks ==> strong == unique)
    && (|unique| > cfg.minChunks && |Strong(cfg, chunks, unique)| >= cfg.minChunks ==>
          forall i: nat :: i in strong <==> i in Strong(cfg, chunks, unique))
    && (|unique| > cfg.minChunks && |Strong(cfg, chunks, unique)| < cfg.minChunks ==>
          |strong| == cfg.minChunks
          && forall i: nat, j: nat :: i in strong && j in unique && j !in strong ==>
              Before(ScoreOf(chunks), Here, i, j))
  }

  /** The floor's work on the list of survivors, said of positions in the whole list. */
  lemma FlooredWhole(cfg: Config, chunks: seq<Chunk>, unique: seq<nat>, b: seq<nat>)
    requires Increasing(unique, |chunks|) && Increasing(b, |unique|)
    requires var cs := Pick(chunks, unique);
             && |b| >= Min(cfg.minChunks, |cs|)
             && (|cs| <= cfg.minChunks ==> b == UpTo(|cs|))
             && (|cs| > cfg.minChunks && |Clearing(cfg, cs)| >= cfg.minChunks ==> b == Clearing(cfg, cs))
             && (|cs| > cfg.minChunks && |Clearing(cfg, cs)| < cfg.minChunks ==> |b| == cfg.minChunks && IsBest(cs, b))
    ensures Floored(cfg, chunks, unique, Pick(unique, b))
  {
    var cs, strong := Pick(chunks, unique), Pick(unique, b);
    PickPick(chunks, unique, b);
    StrongIsClearing(cfg, chunks, unique);
    if |unique| <= cfg.minChunks {
      assert strong == unique;
    } else if |Clearing(cfg, cs)| < cfg.minChunks {
      BestPicked(chunks, unique, b);
    }
  }

  /** The clearing ones among the survivors, as positions of the whole list. */
  lemma StrongIsClearing(cfg: Config, chunks: seq<Chunk>, unique: seq<nat>)
    requires Increasing(unique, |chunks|)
    ensures var c := Clearing(cfg, Pick(chunks, unique));
            && |c| == |Strong(cfg, chunks, unique)|
            && forall i: nat :: i in Pick(unique, c) <==> i in Strong(cfg, chunks, unique)
  {
    var c := Clearing(cfg, Pick(chunks, unique));
    var picked := Pick(unique, c);
    PickPick(chunks, unique, c);
    hide Strong, Clearing, Increasing, SetOf, Distinct;
    forall i: nat ensures i in picked <==> i in Strong(cfg, chunks, unique) {
      PickedIsStrong(cfg, chunks, unique, i);
    }
    IncreasingDistinct(picked, |chunks|);
    DistinctSetSize(picked);
    assert SetOf(picked) == Strong(cfg, chunks, unique);
  }

  lemma PickedIsStrong(cfg: Config, chunks: seq<Chunk>, unique: seq<nat>, i: nat)
    requires Increasing(unique, |chunks|)
    ensures i in Pick(unique, Clearing(cfg, Pick(chunks, unique))) <==> i in Strong(cfg, chunks, unique)
  {
    var c := Clearing(cfg, Pick(chunks, unique));
    var picked := Pick(unique, c);
    if i in Strong(cfg, chunks, unique) {
      var m: nat :| m < |unique| && unique[m] == i;
      assert m in c;
      var k :| 0 <= k < |c| && c[k] == m;
      assert picked[k] == i;
    }
  }

  lemma BestPicked(chunks: seq<Chunk>, unique: seq<nat>, b: seq<nat>)
    requires Increasing(unique, |chunks|) && Increasing(b, |unique|) && IsBest(Pick(chunks, unique), b)
    ensures forall i: nat, j: nat :: i in Pick(unique, b) && j in unique && j !in Pick(unique, b) ==>
              Before(ScoreOf(chunks), Here, i, j)
  {
    var cs, strong := Pick(chunks, unique), Pick(unique, b);
    forall i: nat, j: nat | i in strong && j in unique && j !in strong ensures Before(ScoreOf(chunks), Here, i, j) {
      var k :| 0 <= k < |strong| && strong[k] == i;
      var m: nat :| m < |unique| && unique[m] == j;
      assert m !in b;
      assert b[k] in b && Before(ScoreOf(cs), Here, b[k], m);
      assert unique[b[k]] == i;
    }
  }

  lemma EmbedsFront(cfg: Config, chunks: seq<Chunk>, strong: seq<nat>, need: nat, f: Filling)
    requires Increasing(strong, |chunks|)
    requires KeepsFront(cfg, need, Pick(chunks, strong), |strong|, f)
    ensures |f.kept| <= |strong| && Embeds(chunks, strong[..|f.kept|], f.kept)
  {
  }

  /** The stage, when nothing in it raises. `unique` are the positions near-duplicate removal
      leaves, `strong` those the floor leaves of them, and the fill keeps `strong` from the front. */
  ghost predicate Compressed(cfg: Config, query: string, chunks: seq<Chunk>,
                             unique: seq<nat>, strong: seq<nat>, kept: seq<Chunk>)
  {
    && Deduped(cfg, chunks, unique) && Floored(cfg, chunks, unique, strong)
    && Fills(cfg, query, Pick(chunks, strong), kept)
  }

  /** The survivors that clear the floor. */
  ghost function ClearSurvivors(cfg: Config, chunks: seq<Chunk>): set<nat> {
    set i: nat | i < |chunks| && Survives(cfg, chunks, i)
                 && (chunks[i].score.Some? ==> chunks[i].score.value >= cfg.floor)
  }

  /** With enough of them, the clearing survivors are what the first two steps leave. */
  lemma EnoughClear(cfg: Config, chunks: seq<Chunk>, unique: seq<nat>, strong: seq<nat>)
    requires Deduped(cfg, chunks, unique) && Floored(cfg, chunks, unique, strong)
    requires chunks != [] && |ClearSurvivors(cfg, chunks)| >= cfg.minChunks
    ensures forall i: nat :: i in strong <==> i in ClearSurvivors(cfg, chunks)
  {
    hide Survives, Clears, Before;
    var clear := ClearSurvivors(cfg, chunks);
    IncreasingDistinct(unique, |chunks|);
    DistinctSetSize(unique);
    assert clear <= SetOf(unique);
    if |unique| <= cfg.minChunks {
      SubsetFills(clear, SetOf(unique));
    } else {
      assert Strong(cfg, chunks, unique) == clear;
    }
  }

  lemma SubsetFills(a: set<nat>, b: set<nat>)
    requires a <= b && |b| <= |a|
    ensures a == b
  {
    assert b == a + (b - a);
  }

  /** Past the minimum only survivors come out. */
  lemma ManySurvive(cfg: Config, chunks: seq<Chunk>, unique: seq<nat>, strong: seq<nat>)
    requires Deduped(cfg, chunks, unique) && Floored(cfg, chunks, unique, strong)
    requires |strong| > cfg.minChunks
    ensures forall i: nat :: i in strong ==> i < |chunks| && Survives(cfg, chunks, i)
  {
    hide Survives, Clears, Before;
    IncreasingDistinct(unique, |chunks|);
    IncreasingDistinct(strong, |chunks|);
    DistinctSetSize(unique);
    DistinctSetSize(strong);
    SmallerSet(SetOf(strong), SetOf(unique));
  }

  /** Chunks come out in input order, each at most once, whole or trimmed, and never fewer than the
      minimum: past it only survivors, with enough clearing survivors only those, from the front
      until the fill ends, within the budget up to what its trims miss. If something in the stage
      raises, the input is left as it was. */
  method CompressChunks(cfg: Config, query: string, chunks: seq<Chunk>, raises: bool)
    returns (kept: seq<Chunk>, ghost idx: seq<nat>, ghost unique: seq<nat>, ghost strong: seq<nat>)
    ensures Embeds(chunks, idx, kept) && |kept| >= Min(cfg.minChunks, |chunks|)
    ensures chunks == [] || raises ==> kept == chunks
    ensures chunks != [] && !raises ==> Compressed(cfg, query, chunks, unique, strong, kept) && idx <= strong
    ensures chunks != [] && !raises && |kept| > cfg.minChunks ==>
              forall k :: 0 <= k < |idx| ==> idx[k] < |chunks| && Survives(cfg, chunks, idx[k])
    ensures chunks != [] && !raises && |ClearSurvivors(cfg, chunks)| >= cfg.minChunks ==>
              forall i: nat :: i in strong <==> i in ClearSurvivors(cfg, chunks)
    ensures chunks != [] && !raises && cfg.budget > 0 ==> forall slack: nat :: JoinsWithin(cfg, slack) ==>
              TokensOf(cfg, kept) <= cfg.budget + Max(Min(cfg.minChunks, |strong|) - 1, 0)
                                     + Misses(cfg, slack, query, Pick(chunks, strong), |strong|)
  {
    hide *;
    if chunks == [] || raises {
      kept, idx, unique, strong := chunks, UpTo(|chunks|), [], [];
      EmbedsAll(chunks, cfg.minChunks);
      return;
    }
    var relevant, dropped;
    relevant, unique, strong := Relevant(cfg, chunks);
    kept, dropped := TokenBudgetFill(cfg, query, relevant);
    StageFront(cfg, query, chunks, strong);
    idx := strong[..|kept|];
    StageSurvivors(cfg, chunks, unique, strong, |kept|);
    StageBudget(cfg, query, relevant);
    CompressedBy(cfg, query, chunks, unique, strong, kept);
  }

  lemma CompressedBy(cfg: Config, query: string, chunks: seq<Chunk>,
                     unique: seq<nat>, strong: seq<nat>, kept: seq<Chunk>)
    requires Increasing(strong, |chunks|) && Deduped(cfg, chunks, unique) && Floored(cfg, chunks, unique, strong)
    requires Fills(cfg, query, Pick(chunks, strong), kept)
    ensures Compressed(cfg, query, chunks, unique, strong, kept)
  {
  }

  lemma EmbedsAll(chunks: seq<Chunk>, min: nat)
    ensures Embeds(chunks, UpTo(|chunks|), chunks) && |chunks| >= Min(min, |chunks|)
  {
  }

  /** Near-duplicates and weak chunks out. */
  method Relevant(cfg: Config, chunks: seq<Chunk>)
    returns (kept: seq<Chunk>, ghost unique: seq<nat>, ghost strong: seq<nat>)
    ensures Deduped(cfg, chunks, unique) && Floored(cfg, chunks, unique, strong)
    ensures Increasing(strong, |chunks|) && kept == Pick(chunks, strong)
    ensures |strong| >= Min(cfg.minChunks, |chunks|)
  {
    hide Deduped, Floored, Clearing, Strong, Increasing, IsBest;
    var once, _, a := Dedupe(cfg, chunks);
    DedupedIncreases(cfg, chunks, a);
    var relevant, _, b := RelevanceFloor(cfg, once);
    PickPick(chunks, a, b);
    FlooredWhole(cfg, chunks, a, b);
    kept, unique, strong := relevant, a, Pick(a, b);
  }

  lemma DedupedIncreases(cfg: Config, chunks: seq<Chunk>, a: seq<nat>)
    requires Deduped(cfg, chunks, a)
    ensures Increasing(a, |chunks|) && |a| >= Min(cfg.minChunks, |chunks|)
  {
  }

  /** The fill, said of positions in the whole list. */
  lemma StageFront(cfg: Config, query: string, chunks: seq<Chunk>, strong: seq<nat>)
    requires Increasing(strong, |chunks|) && |strong| >= Min(cfg.minChunks, |chunks|)
    ensures var cs := Pick(chunks, strong);
            var kept := Filled(cfg, query, cs, |cs|).kept;
            && Min(cfg.minChunks, |chunks|) <= |kept| <= |strong| && Embeds(chunks, strong[..|kept|], kept)
  {
    hide Filled, Embeds;
    var cs := Pick(chunks, strong);
    FilledKeepsFront(cfg, query, cs, |cs|);
    EmbedsFront(cfg, chunks, strong, Required(cfg, cs), Filled(cfg, query, cs, |cs|));
  }

  /** Which positions the first two steps leave, with many kept or with enough clearing survivors. */
  lemma StageSurvivors(cfg: Config, chunks: seq<Chunk>, unique: seq<nat>, strong: seq<nat>, n: nat)
    requires Deduped(cfg, chunks, unique) && Floored(cfg, chunks, unique, strong) && n <= |strong|
    ensures n > cfg.minChunks ==>
              forall k :: 0 <= k < n ==> strong[k] < |chunks| && Survives(cfg, chunks, strong[k])
    ensures chunks != [] && |ClearSurvivors(cfg, chunks)| >= cfg.minChunks ==>
              forall i: nat :: i in strong <==> i in ClearSurvivors(cfg, chunks)
  {
    hide Deduped, Floored, ClearSurvivors, Survives;
    assert forall k :: 0 <= k < n ==> strong[k] in strong;
    if n > cfg.minChunks { ManySurvive(cfg, chunks, unique, strong); }
    if chunks != [] && |ClearSurvivors(cfg, chunks)| >= cfg.minChunks { EnoughClear(cfg, chunks, unique, strong); }
  }

  lemma StageBudget(cfg: Config, query: string, chunks: seq<Chunk>)
    ensures cfg.budget > 0 ==> forall slack: nat :: JoinsWithin(cfg, slack) ==>
              TokensOf(cfg, Filled(cfg, query, chunks, |chunks|).kept)
              <= cfg.budget + Max(Min(cfg.minChunks, |chunks|) - 1, 0) + Misses(cfg, slack, query, chunks, |chunks|)
  {
    hide *;
    if cfg.budget > 0 {
      forall slack: nat | JoinsWithin(cfg, slack)
        ensures TokensOf(cfg, Filled(cfg, query, chunks, |chunks|).kept)
              <= cfg.budget + Max(Min(cfg.minChunks, |chunks|) - 1, 0) + Misses(cfg, slack, query, chunks, |chunks|)
      {
        FillWithinMisses(cfg, slack, query, chunks);
      }
    }
  }
}
