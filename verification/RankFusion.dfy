/** Reciprocal rank fusion: of the dense and sparse retrievers, and of the pools of a fan-out. */
module RankFusion {
  import opened Prelude
  import opened Ranking

  type Rank = n: int | n >= 1 witness 1

  /** An id at a rank of some list. */
  datatype Placed = Placed(id: string, rank: Rank)

  datatype Candidate = Candidate(id: string, text: string, dense: Score, sparse: Score, fused: Score)

  datatype Hit = Hit(id: string, score: real, rank: Rank)

  function Weight(k: nat, rank: Rank): (w: real)
    ensures w > 0.0 && w * (k + rank) as real == 1.0
  {
    1.0 / (k + rank) as real
  }

  /** What the lists give an id, all told. */
  function Points(k: nat, ps: seq<Placed>, id: string): (r: real)
    ensures r >= 0.0
  {
    if ps == [] then 0.0
    else Points(k, ps[..|ps| - 1], id) + if ps[|ps| - 1].id == id then Weight(k, ps[|ps| - 1].rank) else 0.0
  }

  function AllPoints(k: nat, ps: seq<Placed>): real {
    if ps == [] then 0.0 else AllPoints(k, ps[..|ps| - 1]) + Weight(k, ps[|ps| - 1].rank)
  }

  /** The ids in order of first appearance. */
  function Firsts(ps: seq<Placed>): (r: seq<string>)
    ensures Distinct(r)
    ensures forall p :: p in ps ==> p.id in r
    ensures forall id :: id in r ==> exists p :: p in ps && p.id == id
  {
    if ps == [] then []
    else
      var init, p := ps[..|ps| - 1], ps[|ps| - 1];
      assert ps == init + [p];
      assert p in ps;
      if p.id in Firsts(init) then Firsts(init) else Firsts(init) + [p.id]
  }

  /** Of two ids the one listed first stands somewhere before every place of the other. */
  lemma {:induction false} FirstsInOrder(ps: seq<Placed>, i: nat, j: nat) returns (a: nat)
    requires i < j < |Firsts(ps)|
    ensures a < |ps| && ps[a].id == Firsts(ps)[i] && forall b :: 0 <= b <= a ==> ps[b].id != Firsts(ps)[j]
  {
    var init, p := ps[..|ps| - 1], ps[|ps| - 1];
    assert ps == init + [p];
    if j < |Firsts(init)| {
      a := FirstsInOrder(init, i, j);
    } else {
      assert Firsts(init)[i] in Firsts(init);
      var q :| q in init && q.id == Firsts(init)[i];
      a :| 0 <= a < |init| && init[a] == q;
      assert Firsts(ps)[j] !in Firsts(init);
      assert forall b :: 0 <= b <= a ==> ps[b] in init;
    }
  }

  function PointsOf(k: nat, ps: seq<Placed>): string -> Score {
    (id: string) => Some(Points(k, ps, id))
  }

  /** The fused order. */
  function Fusion(k: nat, ps: seq<Placed>): seq<string> { Descending(PointsOf(k, ps), Firsts(ps)) }

  function FirstAt(ps: seq<Placed>): string -> int { (id: string) => Index(Firsts(ps), id) }

  function Index(s: seq<string>, x: string): (i: nat)
    ensures i <= |s| && (i < |s| ==> s[i] == x)
    ensures forall j :: 0 <= j < i ==> s[j] != x
  {
    if s == [] || s[0] == x then 0
    else
      assert s == [s[0]] + s[1..];
      1 + Index(s[1..], x)
  }

  /** Every id that appears is fused exactly once, ordered by points and then by first appearance. */
  lemma FusionRanks(k: nat, ps: seq<Placed>)
    ensures Ranked(PointsOf(k, ps), FirstAt(ps), Fusion(k, ps)) && Distinct(Fusion(k, ps))
    ensures forall id :: id in Fusion(k, ps) <==> exists p :: p in ps && p.id == id
  {
    var ids, pos, key := Firsts(ps), FirstAt(ps), PointsOf(k, ps);
    FirstsRise(ids);
    assert forall p :: p in ps ==> p.id in ids;
    hide Firsts, Points, PointsOf, Descending;
    DescendingRanks(key, pos, ids);
    SameElements(Fusion(k, ps), ids);
    RankedApart(key, pos, Fusion(k, ps));
  }

  lemma FirstsRise(ids: seq<string>)
    requires Distinct(ids)
    ensures forall i, j :: 0 <= i < j < |ids| ==> Index(ids, ids[i]) < Index(ids, ids[j])
  {
    assert forall i :: 0 <= i < |ids| ==> Index(ids, ids[i]) == i;
  }

  lemma RankedApart(key: string -> Score, pos: string -> int, s: seq<string>)
    requires Ranked(key, pos, s)
    ensures Distinct(s)
  {
    forall i, j | 0 <= i < j < |s| ensures s[i] != s[j] {
      assert Before(key, pos, s[i], s[j]);
    }
  }

  // ------------------------------------------------------------------ conservation

  function Total(f: string -> real, ids: seq<string>): real {
    if ids == [] then 0.0 else Total(f, ids[..|ids| - 1]) + f(ids[|ids| - 1])
  }

  lemma {:induction false} TotalBumped(f: string -> real, g: string -> real, ids: seq<string>, x: string, w: real)
    requires Distinct(ids) && (forall id :: id != x ==> g(id) == f(id)) && g(x) == f(x) + w
    ensures Total(g, ids) == Total(f, ids) + if x in ids then w else 0.0
  {
    if ids != [] {
      assert ids == ids[..|ids| - 1] + [ids[|ids| - 1]];
      TotalBumped(f, g, ids[..|ids| - 1], x, w);
    }
  }

  function PlainPoints(k: nat, ps: seq<Placed>): string -> real { (id: string) => Points(k, ps, id) }

  /** No points are lost or invented: over the fused ids they add up to what the lists gave out. */
  lemma {:induction false} PointsConserved(k: nat, ps: seq<Placed>)
    ensures Total(PlainPoints(k, ps), Firsts(ps)) == AllPoints(k, ps)
  {
    if ps != [] {
      PointsConserved(k, ps[..|ps| - 1]);
      PointsAdded(k, ps);
    }
  }

  lemma PointsAdded(k: nat, ps: seq<Placed>)
    requires ps != []
    ensures Total(PlainPoints(k, ps), Firsts(ps)) ==
            Total(PlainPoints(k, ps[..|ps| - 1]), Firsts(ps[..|ps| - 1])) + Weight(k, ps[|ps| - 1].rank)
  {
    var init, p := ps[..|ps| - 1], ps[|ps| - 1];
    var f, g, ids := PlainPoints(k, init), PlainPoints(k, ps), Firsts(init);
    assert g(p.id) == f(p.id) + Weight(k, p.rank);
    assert forall id :: id != p.id ==> g(id) == f(id);
    if p.id !in ids { Unplaced(k, init, p.id); }
    assert Firsts(ps) == if p.id in ids then ids else ids + [p.id];
    hide Firsts, Points, PlainPoints, Weight;
    TotalBumped(f, g, ids, p.id, Weight(k, p.rank));
    assert (ids + [p.id])[..|ids|] == ids;
  }

  lemma {:induction false} Unplaced(k: nat, ps: seq<Placed>, id: string)
    requires forall p :: p in ps ==> p.id != id
    ensures Points(k, ps, id) == 0.0
  {
    if ps != [] {
      assert ps == ps[..|ps| - 1] + [ps[|ps| - 1]];
      Unplaced(k, ps[..|ps| - 1], id);
    }
  }

  lemma {:induction false} PointsConcat(k: nat, a: seq<Placed>, b: seq<Placed>, id: string)
    ensures Points(k, a + b, id) == Points(k, a, id) + Points(k, b, id)
  {
    if b == [] {
      assert a + b == a;
    } else {
      assert (a + b)[..|a + b| - 1] == a + b[..|b| - 1];
      PointsConcat(k, a, b[..|b| - 1], id);
    }
  }

  // ------------------------------------------------------------------ dominance

  /** No id is listed twice. */
  ghost predicate Plain(list: seq<Placed>) {
    forall i, j :: 0 <= i < j < |list| ==> list[i].id != list[j].id
  }

  predicate Lists(list: seq<Placed>, id: string) { exists p :: p in list && p.id == id }

  /** `a` is listed wherever `b` is, and at least as high. */
  ghost predicate AtLeastAsGood(list: seq<Placed>, a: string, b: string) {
    forall q :: q in list && q.id == b ==> exists p :: p in list && p.id == a && p.rank <= q.rank
  }

  /** ... and strictly higher, or listed where `b` is not. */
  ghost predicate Better(list: seq<Placed>, a: string, b: string) {
    && AtLeastAsGood(list, a, b)
    && exists p :: p in list && p.id == a && forall q :: q in list && q.id == b ==> p.rank < q.rank
  }

  /** In a list without duplicates an id's points are the weight of its one place. */
  lemma {:induction false} PointsOfPlace(k: nat, list: seq<Placed>, p: Placed)
    requires Plain(list) && p in list
    ensures Points(k, list, p.id) == Weight(k, p.rank) == 1.0 / (k + p.rank) as real
  {
    var init, last := list[..|list| - 1], list[|list| - 1];
    assert list == init + [last];
    assert forall i :: 0 <= i < |init| ==> init[i] == list[i];
    if p == last {
      Unplaced(k, init, p.id);
    } else {
      assert Plain(init) && p in init;
      PointsOfPlace(k, init, p);
    }
  }

  lemma WeightFalls(k: nat, r: Rank, s: Rank)
    ensures r < s ==> Weight(k, r) > Weight(k, s)
    ensures r <= s ==> Weight(k, r) >= Weight(k, s)
  {
    if r < s {
      var a, b := (k + r) as real, (k + s) as real;
      assert 0.0 < a < b;
      assert 1.0 / a - 1.0 / b == (b - a) / (a * b);
      assert a * b > 0.0;
    }
  }

  lemma ListPoints(k: nat, list: seq<Placed>, a: string, b: string)
    requires Plain(list) && AtLeastAsGood(list, a, b)
    ensures Points(k, list, a) >= Points(k, list, b)
    ensures Better(list, a, b) ==> Points(k, list, a) > Points(k, list, b)
  {
    if Lists(list, b) {
      var q :| q in list && q.id == b;
      var p :| p in list && p.id == a && p.rank <= q.rank;
      PointsOfPlace(k, list, p);
      PointsOfPlace(k, list, q);
      WeightFalls(k, p.rank, q.rank);
      if Better(list, a, b) {
        var r :| r in list && r.id == a && forall q :: q in list && q.id == b ==> r.rank < q.rank;
        PointsOfPlace(k, list, r);
        WeightFalls(k, r.rank, q.rank);
      }
    } else {
      Unplaced(k, list, b);
      if Better(list, a, b) {
        var r :| r in list && r.id == a;
        PointsOfPlace(k, list, r);
      }
    }
  }

  lemma {:induction false} ListsPoints(k: nat, lists: seq<seq<Placed>>, a: string, b: string)
    requires forall l :: l in lists ==> Plain(l) && AtLeastAsGood(l, a, b)
    ensures Points(k, Flatten(lists), a) >= Points(k, Flatten(lists), b)
    ensures (exists l :: l in lists && Better(l, a, b)) ==> Points(k, Flatten(lists), a) > Points(k, Flatten(lists), b)
  {
    if lists != [] {
      var head, rest := lists[0], lists[1..];
      assert lists == [head] + rest;
      ListsPoints(k, rest, a, b);
      ListPoints(k, head, a, b);
      PointsConcat(k, head, Flatten(rest), a);
      PointsConcat(k, head, Flatten(rest), b);
    }
  }

  /** A chunk at least as high in every list, and higher or extra in one, is fused first. */
  lemma Dominance(k: nat, lists: seq<seq<Placed>>, a: string, b: string, i: nat, j: nat)
    requires forall l :: l in lists ==> Plain(l) && AtLeastAsGood(l, a, b)
    requires exists l :: l in lists && Better(l, a, b)
    requires var f := Fusion(k, Flatten(lists)); i < |f| && j < |f| && f[i] == a && f[j] == b
    ensures i < j
  {
    ListsPoints(k, lists, a, b);
    FusionRises(k, Flatten(lists), i, j);
  }

  lemma FusionRises(k: nat, ps: seq<Placed>, i: nat, j: nat)
    requires var f := Fusion(k, ps); i < |f| && j < |f| && Points(k, ps, f[i]) > Points(k, ps, f[j])
    ensures i < j
  {
    FusionRanks(k, ps);
    var f := Fusion(k, ps);
    assert !Before(PointsOf(k, ps), FirstAt(ps), f[j], f[i]);
    hide Fusion, Before, Points;
  }

  // ------------------------------------------------------------------ one list alone

  function Ids(list: seq<Placed>): (r: seq<string>)
    ensures |r| == |list| && forall i :: 0 <= i < |list| ==> r[i] == list[i].id
  {
    seq(|list|, i requires 0 <= i < |list| => list[i].id)
  }

  lemma {:induction false} FirstsOfPlain(list: seq<Placed>)
    requires Plain(list)
    ensures Firsts(list) == Ids(list)
  {
    if list != [] {
      var init := list[..|list| - 1];
      FirstsOfPlain(init);
      assert Ids(list) == Ids(init) + [list[|list| - 1].id];
    }
  }

  /** A single list without duplicates keeps its own order. */
  lemma LoneListKeepsOrder(k: nat, list: seq<Placed>)
    requires Plain(list) && forall i, j :: 0 <= i < j < |list| ==> list[i].rank < list[j].rank
    ensures Fusion(k, list) == Ids(list)
  {
    FirstsOfPlain(list);
    var ids, key := Ids(list), PointsOf(k, list);
    forall i, j | 0 <= i < j < |ids| ensures !Below(key(ids[i]), key(ids[j])) {
      PointsOfPlace(k, list, list[i]);
      PointsOfPlace(k, list, list[j]);
      WeightFalls(k, list[i].rank, list[j].rank);
    }
    DescendingFixes(key, ids);
  }

  // ------------------------------------------------------------------ the sparse list

  predicate Matches(h: (string, real)) { h.1 > 0.0 }

  function ByScore(h: (string, real)): Score { Some(h.1) }

  function Capped<T>(s: seq<T>, cap: nat): (r: seq<T>)
    ensures r <= s && |r| == if cap < |s| then cap else |s|
  {
    if cap < |s| then s[..cap] else s
  }

  /** The best `topK` chunks with any lexical overlap, ranked from 1. */
  function SparseScores(scored: seq<(string, real)>, topK: nat): seq<Hit> {
    var best := Capped(Descending(ByScore, Filter(Matches, scored)), topK);
    seq(|best|, i requires 0 <= i < |best| => Hit(best[i].0, best[i].1, i + 1))
  }

  lemma {:induction false} DescendingSorts<T>(key: T -> Score, s: seq<T>)
    ensures forall i, j :: 0 <= i < j < |s| ==> !Below(key(Descending(key, s)[i]), key(Descending(key, s)[j]))
  {
    if s != [] {
      DescendingSorts(key, s[1..]);
      InsertSorts(key, s[0], Descending(key, s[1..]));
    }
  }

  lemma {:induction false} InsertSorts<T>(key: T -> Score, x: T, s: seq<T>)
    requires forall i, j :: 0 <= i < j < |s| ==> !Below(key(s[i]), key(s[j]))
    ensures forall i, j :: 0 <= i < j <= |s| ==> !Below(key(Insert(key, x, s)[i]), key(Insert(key, x, s)[j]))
  {
    if s != [] && Below(key(x), key(s[0])) {
      InsertSorts(key, x, s[1..]);
      var t := Insert(key, x, s[1..]);
      forall j | 0 <= j < |t| ensures !Below(key(s[0]), key(t[j])) {
        assert t[j] in multiset(t);
        if t[j] != x {
          assert t[j] in multiset(s[1..]);
          var m :| 0 <= m < |s[1..]| && s[1..][m] == t[j];
          assert s[m + 1] == t[j];
        }
      }
    }
  }

  /** Ranks count from 1, scores are positive and never rise, and a left-out match scores no more. */
  lemma SparseScoresRanked(scored: seq<(string, real)>, topK: nat, x: (string, real))
    ensures var hits := SparseScores(scored, topK);
            && |hits| <= topK
            && (forall i :: 0 <= i < |hits| ==>
                hits[i].rank == i + 1 && hits[i].score > 0.0 && (hits[i].id, hits[i].score) in scored)
            && (forall i, j :: 0 <= i < j < |hits| ==> hits[i].score >= hits[j].score)
            && (x in scored && x.1 > 0.0 ==>
                  (exists i :: 0 <= i < |hits| && (hits[i].id, hits[i].score) == x)
                  || (|hits| == topK && forall i :: 0 <= i < |hits| ==> hits[i].score >= x.1))
  {
    var matching := Filter(Matches, scored);
    var order := Descending(ByScore, matching);
    var hits := SparseScores(scored, topK);
    DescendingSorts(ByScore, matching);
    SameElements(order, matching);
    hide Descending, Filter;
    assert forall i :: 0 <= i < |hits| ==> (hits[i].id, hits[i].score) == order[i] && order[i] in matching;
    forall i, j | 0 <= i < j < |hits| ensures hits[i].score >= hits[j].score {
      assert !Below(ByScore(order[i]), ByScore(order[j]));
    }
    if x in scored && x.1 > 0.0 {
      assert x in order;
      var m :| 0 <= m < |order| && order[m] == x;
      if m >= |hits| {
        forall i | 0 <= i < |hits| ensures hits[i].score >= x.1 {
          assert !Below(ByScore(order[i]), ByScore(order[m]));
        }
      }
    }
  }

  // ------------------------------------------------------------------ fusing dense and sparse

  function DenseList(dense: seq<Candidate>): (r: seq<Placed>)
    ensures |r| == |dense| && forall i :: 0 <= i < |r| ==> r[i] == Placed(dense[i].id, i + 1)
  {
    seq(|dense|, i requires 0 <= i < |dense| => Placed(dense[i].id, i + 1))
  }

  /** The sparse hits that can be shown: already dense, or hydrated. */
  function SparseList(dense: seq<Candidate>, sparse: seq<Hit>, hydrated: map<string, Candidate>): seq<Placed> {
    if sparse == [] then []
    else
      var h := sparse[|sparse| - 1];
      SparseList(dense, sparse[..|sparse| - 1], hydrated)
      + if h.id in Firsts(DenseList(dense)) || h.id in hydrated then [Placed(h.id, h.rank)] else []
  }

  function FuseVotes(dense: seq<Candidate>, sparse: seq<Hit>, hydrated: map<string, Candidate>): seq<Placed> {
    DenseList(dense) + SparseList(dense, sparse, hydrated)
  }

  ghost predicate InDense(dense: seq<Candidate>, id: string) {
    exists i :: 0 <= i < |dense| && dense[i].id == id
  }

  ghost predicate IsHit(sparse: seq<Hit>, id: string, rank: Rank) {
    exists j :: 0 <= j < |sparse| && sparse[j].id == id && sparse[j].rank == rank
  }

  lemma InDenseList(dense: seq<Candidate>, id: string)
    ensures id in Firsts(DenseList(dense)) <==> InDense(dense, id)
  {
    var l := DenseList(dense);
    if i :| 0 <= i < |dense| && dense[i].id == id {
      assert l[i] in l;
    }
    if id in Firsts(l) {
      var p :| p in l && p.id == id;
      var i :| 0 <= i < |l| && l[i] == p;
      assert dense[i].id == id;
    }
  }

  lemma HitNext(sparse: seq<Hit>, h: Hit, id: string, rank: Rank)
    ensures IsHit(sparse + [h], id, rank) <==> IsHit(sparse, id, rank) || (h.id == id && h.rank == rank)
  {
    var s := sparse + [h];
    assert s[|sparse|] == h;
    if j :| 0 <= j < |sparse| && sparse[j].id == id && sparse[j].rank == rank {
      assert s[j] == sparse[j];
    }
  }

  lemma SparseNext(dense: seq<Candidate>, sparse: seq<Hit>, h: Hit, hydrated: map<string, Candidate>)
    ensures SparseList(dense, sparse + [h], hydrated) == SparseList(dense, sparse, hydrated)
            + if InDense(dense, h.id) || h.id in hydrated then [Placed(h.id, h.rank)] else []
  {
    assert (sparse + [h])[..|sparse|] == sparse;
    InDenseList(dense, h.id);
  }

  /** The sparse list holds exactly the hits that can be shown, at their ranks. */
  lemma {:induction false} SparseListIs(dense: seq<Candidate>, sparse: seq<Hit>, hydrated: map<string, Candidate>,
                                        p: Placed)
    ensures p in SparseList(dense, sparse, hydrated) <==>
            IsHit(sparse, p.id, p.rank) && (p.id in hydrated || InDense(dense, p.id))
  {
    if sparse != [] {
      var init, h := sparse[..|sparse| - 1], sparse[|sparse| - 1];
      assert sparse == init + [h];
      hide *;
      SparseListIs(dense, init, hydrated, p);
      SparseNext(dense, init, h, hydrated);
      HitNext(init, h, p.id, p.rank);
    }
  }

  lemma {:induction false} SparseListPlain(dense: seq<Candidate>, sparse: seq<Hit>, hydrated: map<string, Candidate>)
    requires forall i, j :: 0 <= i < j < |sparse| ==> sparse[i].id != sparse[j].id
    ensures Plain(SparseList(dense, sparse, hydrated))
  {
    if sparse != [] {
      var init, h := sparse[..|sparse| - 1], sparse[|sparse| - 1];
      assert sparse == init + [h];
      SparseListPlain(dense, init, hydrated);
      SparseNext(dense, init, h, hydrated);
      var l := SparseList(dense, init, hydrated);
      hide SparseList, InDense;
      forall i | 0 <= i < |l| ensures l[i].id != h.id {
        assert l[i] in l;
        SparseListIs(dense, init, hydrated, l[i]);
        var j :| 0 <= j < |init| && init[j].id == l[i].id;
        assert sparse[j].id != sparse[|sparse| - 1].id;
      }
    }
  }

  /** An id's points: one over its dense place and the smoothing constant, and the same of its sparse
      rank if it can be shown. */
  lemma FusedPoints(k: nat, dense: seq<Candidate>, sparse: seq<Hit>, hydrated: map<string, Candidate>, id: string)
    returns (d: real, s: real)
    requires forall i, j :: 0 <= i < j < |dense| ==> dense[i].id != dense[j].id
    requires forall i, j :: 0 <= i < j < |sparse| ==> sparse[i].id != sparse[j].id
    ensures Points(k, FuseVotes(dense, sparse, hydrated), id) == d + s
    ensures forall i :: 0 <= i < |dense| && dense[i].id == id ==> d == 1.0 / (k + i + 1) as real
    ensures (forall i :: 0 <= i < |dense| ==> dense[i].id != id) ==> d == 0.0
    ensures forall j :: 0 <= j < |sparse| && sparse[j].id == id ==>
              s == if id in hydrated || InDense(dense, id) then 1.0 / (k + sparse[j].rank) as real else 0.0
    ensures (forall j :: 0 <= j < |sparse| ==> sparse[j].id != id) ==> s == 0.0
  {
    var a, b := DenseList(dense), SparseList(dense, sparse, hydrated);
    PointsConcat(k, a, b, id);
    d, s := Points(k, a, id), Points(k, b, id);
    DensePoints(k, dense, id);
    SparsePoints(k, dense, sparse, hydrated, id);
  }

  lemma DensePoints(k: nat, dense: seq<Candidate>, id: string)
    requires forall i, j :: 0 <= i < j < |dense| ==> dense[i].id != dense[j].id
    ensures forall i :: 0 <= i < |dense| && dense[i].id == id ==>
              Points(k, DenseList(dense), id) == 1.0 / (k + i + 1) as real
    ensures (forall i :: 0 <= i < |dense| ==> dense[i].id != id) ==> Points(k, DenseList(dense), id) == 0.0
  {
    var a := DenseList(dense);
    if i :| 0 <= i < |dense| && dense[i].id == id {
      assert a[i] in a;
      PointsOfPlace(k, a, a[i]);
    } else {
      Unplaced(k, a, id);
    }
  }

  lemma SparsePoints(k: nat, dense: seq<Candidate>, sparse: seq<Hit>, hydrated: map<string, Candidate>, id: string)
    requires forall i, j :: 0 <= i < j < |sparse| ==> sparse[i].id != sparse[j].id
    ensures forall j :: 0 <= j < |sparse| && sparse[j].id == id ==>
              Points(k, SparseList(dense, sparse, hydrated), id)
              == if id in hydrated || InDense(dense, id) then 1.0 / (k + sparse[j].rank) as real else 0.0
    ensures (forall j :: 0 <= j < |sparse| ==> sparse[j].id != id) ==>
              Points(k, SparseList(dense, sparse, hydrated), id) == 0.0
  {
    var b := SparseList(dense, sparse, hydrated);
    SparseListPlain(dense, sparse, hydrated);
    hide SparseList, Points, InDense, Weight;
    if p :| p in b && p.id == id {
      PointsOfPlace(k, b, p);
      SparseListIs(dense, sparse, hydrated, p);
    } else {
      Unplaced(k, b, id);
      forall j | 0 <= j < |sparse| && sparse[j].id == id ensures id !in hydrated && !InDense(dense, id) {
        SparseListIs(dense, sparse, hydrated, Placed(id, sparse[j].rank));
      }
    }
  }

  /** The dictionary after the dense list: a repeated id keeps its place and takes the later chunk. */
  function DenseDict(dense: seq<Candidate>): map<string, Candidate> {
    if dense == [] then map[] else var c := dense[|dense| - 1]; DenseDict(dense[..|dense| - 1])[c.id := c]
  }

  lemma {:induction false} DenseChunkIsLast(dense: seq<Candidate>, i: nat)
    requires i < |dense| && forall j :: i < j < |dense| ==> dense[j].id != dense[i].id
    ensures dense[i].id in DenseDict(dense) && DenseDict(dense)[dense[i].id] == dense[i]
  {
    if i < |dense| - 1 { DenseChunkIsLast(dense[..|dense| - 1], i); }
  }

  /** ... and after the sparse list. */
  function FuseDict(dense: seq<Candidate>, sparse: seq<Hit>, hydrated: map<string, Candidate>): map<string, Candidate> {
    if sparse == [] then DenseDict(dense)
    else
      var d, h := FuseDict(dense, sparse[..|sparse| - 1], hydrated), sparse[|sparse| - 1];
      if h.id in d then d[h.id := d[h.id].(sparse := Some(h.score))]
      else if h.id in hydrated then d[h.id := hydrated[h.id].(sparse := Some(h.score))]
      else d
  }

  /** The running scores, place by place. */
  function Scores(k: nat, ps: seq<Placed>): map<string, real> {
    if ps == [] then map[] else WithPlace(k, Scores(k, ps[..|ps| - 1]), ps[|ps| - 1])
  }

  function WithPlace(k: nat, scores: map<string, real>, p: Placed): map<string, real> {
    scores[p.id := (if p.id in scores then scores[p.id] else 0.0) + Weight(k, p.rank)]
  }

  /** They hold exactly the ids that appeared, each with its points. */
  lemma {:induction false} ScoresArePoints(k: nat, ps: seq<Placed>, id: string)
    ensures id in Scores(k, ps) <==> id in Firsts(ps)
    ensures id in Scores(k, ps) ==> Scores(k, ps)[id] == Points(k, ps, id)
  {
    if ps != [] {
      var init, p := ps[..|ps| - 1], ps[|ps| - 1];
      ScoresArePoints(k, init, id);
      if id !in Firsts(init) { Unplaced(k, init, id); }
    }
  }

  /** The dictionaries a fusion keeps while it reads its lists. */
  datatype Tally = Tally(order: seq<string>, score: map<string, real>, cards: map<string, Candidate>)

  const NO_TALLY := Tally([], map[], map[])

  ghost predicate Tallies(k: nat, ps: seq<Placed>, cards: map<string, Candidate>, t: Tally) {
    && t == Tally(Firsts(ps), Scores(k, ps), cards)
    && forall id :: id in cards <==> id in Firsts(ps)
  }

  /** Add one place to an id's score and file its card. */
  function Count(k: nat, t: Tally, p: Placed, card: Candidate): Tally {
    Tally(if p.id in t.order then t.order else t.order + [p.id], WithPlace(k, t.score, p), t.cards[p.id := card])
  }

  lemma CountTallies(k: nat, ps: seq<Placed>, cards: map<string, Candidate>, t: Tally, p: Placed, card: Candidate)
    requires Tallies(k, ps, cards, t)
    ensures Tallies(k, ps + [p], cards[p.id := card], Count(k, t, p, card))
  {
    FirstsNext(ps, p);
    assert (ps + [p])[..|ps|] == ps;
    hide Firsts, WithPlace;
  }

  lemma TalliesKeys(k: nat, ps: seq<Placed>, cards: map<string, Candidate>, t: Tally, id: string)
    requires Tallies(k, ps, cards, t)
    ensures t.cards == cards && (id in cards <==> id in Firsts(ps))
  {
  }

  lemma TalliesNothing(k: nat)
    ensures Tallies(k, [], map[], NO_TALLY)
  {
  }

  /** The tallied ids in fused order, up to the cap. */
  method Ordered(k: nat, ghost ps: seq<Placed>, ghost cards: map<string, Candidate>, t: Tally, cap: nat)
    returns (ids: seq<string>)
    requires Tallies(k, ps, cards, t)
    ensures ids == Capped(Fusion(k, ps), cap)
    ensures forall id :: id in ids ==> id in t.score && t.score[id] == Points(k, ps, id) && id in t.cards
  {
    var key := (id: string) => if id in t.score then Some(t.score[id]) else None;
    ids := Capped(Descending(key, t.order), cap);
    forall id | id in t.order ensures id in t.score && t.score[id] == Points(k, ps, id) {
      ScoresArePoints(k, ps, id);
    }
    SameKeys(key, PointsOf(k, ps), t.order);
    SameElements(Fusion(k, ps), t.order);
    assert forall id :: id in ids ==> id in Fusion(k, ps);
  }

  lemma {:induction false} SameKeys<T>(f: T -> Score, g: T -> Score, s: seq<T>)
    requires forall x :: x in s ==> f(x) == g(x)
    ensures Descending(f, s) == Descending(g, s)
  {
    if s != [] {
      SameKeys(f, g, s[1..]);
      var r := Descending(f, s[1..]);
      forall i | 0 <= i < |r| ensures f(r[i]) == g(r[i]) {
        assert r[i] in multiset(r);
        assert r[i] in multiset(s[1..]);
        var j :| 0 <= j < |s[1..]| && s[1..][j] == r[i];
        assert s[j + 1] == r[i];
      }
      SameInsert(f, g, s[0], Descending(f, s[1..]));
    }
  }

  lemma {:induction false} SameInsert<T>(f: T -> Score, g: T -> Score, x: T, s: seq<T>)
    requires f(x) == g(x) && forall y :: y in s ==> f(y) == g(y)
    ensures Insert(f, x, s) == Insert(g, x, s)
  {
    if s != [] { SameInsert(f, g, x, s[1..]); }
  }

  /** Tally both lists, then give the candidates in fused order with their three scores. */
  method RrfFuse(k: nat, cap: nat, dense: seq<Candidate>, sparse: seq<Hit>, hydrated: map<string, Candidate>)
    returns (r: seq<Candidate>)
    requires forall id :: id in hydrated ==> hydrated[id].id == id
    ensures |r| == |Capped(Fusion(k, FuseVotes(dense, sparse, hydrated)), cap)|
    ensures forall i :: 0 <= i < |r| ==> FusedAt(k, dense, sparse, hydrated, i, r[i])
    ensures forall i, j :: 0 <= i < j < |r| ==> r[i].id != r[j].id
  {
    hide Points, FuseVotes, FuseDict, Fusion, Tallies, FusedAt, Capped, DenseDict, DenseList;
    CappedDistinct(k, FuseVotes(dense, sparse, hydrated), cap);
    var t := TallyDense(k, dense);
    t := TallySparse(k, dense, sparse, hydrated, t);
    var ps := FuseVotes(dense, sparse, hydrated);
    var ids := Ordered(k, ps, FuseDict(dense, sparse, hydrated), t, cap);
    forall i | 0 <= i < |ids|
      ensures ids[i] in t.cards && ids[i] in t.score
      ensures FusedAt(k, dense, sparse, hydrated, i, t.cards[ids[i]].(fused := Some(t.score[ids[i]])))
      ensures t.cards[ids[i]].id == ids[i]
    {
      CardAt(k, dense, sparse, hydrated, t, cap, i);
      CardIds(dense, sparse, hydrated, ids[i]);
    }
    r := seq(|ids|, i requires 0 <= i < |ids| => t.cards[ids[i]].(fused := Some(t.score[ids[i]])));
  }

  /** Position `i` of the result is the `i`-th fused id, its card and its points. */
  ghost predicate FusedAt(k: nat, dense: seq<Candidate>, sparse: seq<Hit>, hydrated: map<string, Candidate>, i: nat,
                          c: Candidate) {
    var ps, d := FuseVotes(dense, sparse, hydrated), FuseDict(dense, sparse, hydrated);
    && i < |Fusion(k, ps)| && Fusion(k, ps)[i] in d
    && c == d[Fusion(k, ps)[i]].(fused := Some(Points(k, ps, Fusion(k, ps)[i])))
  }

  lemma CardAt(k: nat, dense: seq<Candidate>, sparse: seq<Hit>, hydrated: map<string, Candidate>, t: Tally, cap: nat,
               i: nat)
    requires var ps := FuseVotes(dense, sparse, hydrated);
             Tallies(k, ps, FuseDict(dense, sparse, hydrated), t) && i < |Capped(Fusion(k, ps), cap)|
    ensures var id := Capped(Fusion(k, FuseVotes(dense, sparse, hydrated)), cap)[i];
            && id in t.cards && id in t.score && t.cards == FuseDict(dense, sparse, hydrated)
            && FusedAt(k, dense, sparse, hydrated, i, t.cards[id].(fused := Some(t.score[id])))
  {
    var ps := FuseVotes(dense, sparse, hydrated);
    hide FuseVotes, FuseDict;
    SameElements(Fusion(k, ps), Firsts(ps));
    assert Fusion(k, ps)[i] in Fusion(k, ps);
    ScoresArePoints(k, ps, Fusion(k, ps)[i]);
  }

  lemma CappedDistinct(k: nat, ps: seq<Placed>, cap: nat)
    ensures Distinct(Capped(Fusion(k, ps), cap))
  {
    FusionRanks(k, ps);
  }

  lemma {:induction false} CardIds(dense: seq<Candidate>, sparse: seq<Hit>, hydrated: map<string, Candidate>,
                                   id: string)
    requires forall id :: id in hydrated ==> hydrated[id].id == id
    ensures id in FuseDict(dense, sparse, hydrated) ==> FuseDict(dense, sparse, hydrated)[id].id == id
    decreases |sparse|, |dense|
  {
    if sparse != [] {
      CardIds(dense, sparse[..|sparse| - 1], hydrated, id);
    } else if dense != [] {
      CardIds(dense[..|dense| - 1], [], hydrated, id);
      assert FuseDict(dense, [], hydrated) == DenseDict(dense);
    }
  }

  lemma DenseNext(dense: seq<Candidate>, i: nat)
    requires i < |dense|
    ensures DenseList(dense[..i + 1]) == DenseList(dense[..i]) + [Placed(dense[i].id, i + 1)]
    ensures DenseDict(dense[..i + 1]) == DenseDict(dense[..i])[dense[i].id := dense[i]]
  {
    assert dense[..i + 1][..i] == dense[..i];
  }

  method TallyDense(k: nat, dense: seq<Candidate>) returns (t: Tally)
    ensures Tallies(k, DenseList(dense), DenseDict(dense), t)
  {
    t := NO_TALLY;
    TalliesNothing(k);
    assert DenseList(dense[..0]) == [] && DenseDict(dense[..0]) == map[];
    for i := 0 to |dense|
      invariant Tallies(k, DenseList(dense[..i]), DenseDict(dense[..i]), t)
    {
      var p := Placed(dense[i].id, i + 1);
      DenseNext(dense, i);
      CountTallies(k, DenseList(dense[..i]), DenseDict(dense[..i]), t, p, dense[i]);
      hide *;
      t := Count(k, t, p, dense[i]);
    }
    assert dense[..|dense|] == dense;
  }

  method TallySparse(k: nat, dense: seq<Candidate>, sparse: seq<Hit>, hydrated: map<string, Candidate>, start: Tally)
    returns (t: Tally)
    requires Tallies(k, DenseList(dense), DenseDict(dense), start)
    ensures Tallies(k, FuseVotes(dense, sparse, hydrated), FuseDict(dense, sparse, hydrated), t)
  {
    t := start;
    NoHits(dense, hydrated);
    assert sparse[..0] == [];
    hide *;
    for j := 0 to |sparse|
      invariant Tallies(k, FuseVotes(dense, sparse[..j], hydrated), FuseDict(dense, sparse[..j], hydrated), t)
    {
      HitTallies(k, dense, sparse, j, hydrated, t);
      t := AddHit(k, t, sparse[j], hydrated);
    }
    assert sparse[..|sparse|] == sparse;
  }

  lemma NoHits(dense: seq<Candidate>, hydrated: map<string, Candidate>)
    ensures FuseVotes(dense, [], hydrated) == DenseList(dense) && FuseDict(dense, [], hydrated) == DenseDict(dense)
  {
  }

  /** Score a hit the dictionary knows or can hydrate; skip one that cannot be shown. */
  function AddHit(k: nat, t: Tally, h: Hit, hydrated: map<string, Candidate>): Tally {
    if h.id in t.cards then Count(k, t, Placed(h.id, h.rank), t.cards[h.id].(sparse := Some(h.score)))
    else if h.id in hydrated then Count(k, t, Placed(h.id, h.rank), hydrated[h.id].(sparse := Some(h.score)))
    else t
  }

  /** A hit the dictionary knows, a hit that can be hydrated, and one that cannot be shown. */
  lemma HitTallies(k: nat, dense: seq<Candidate>, sparse: seq<Hit>, j: nat, hydrated: map<string, Candidate>, t: Tally)
    requires j < |sparse|
    requires Tallies(k, FuseVotes(dense, sparse[..j], hydrated), FuseDict(dense, sparse[..j], hydrated), t)
    ensures Tallies(k, FuseVotes(dense, sparse[..j + 1], hydrated), FuseDict(dense, sparse[..j + 1], hydrated),
                    AddHit(k, t, sparse[j], hydrated))
  {
    var h, before := sparse[j], sparse[..j];
    var ps, d := FuseVotes(dense, before, hydrated), FuseDict(dense, before, hydrated);
    hide *;
    assert sparse[..j + 1] == before + [h];
    TalliesKeys(k, ps, d, t, h.id);
    ShownSoFar(dense, before, hydrated, h.id);
    FuseNext(dense, before, h, hydrated);
    AddHitTallies(k, ps, d, t, h, hydrated);
  }

  lemma AddHitTallies(k: nat, ps: seq<Placed>, d: map<string, Candidate>, t: Tally, h: Hit,
                      hydrated: map<string, Candidate>)
    requires Tallies(k, ps, d, t)
    ensures Tallies(k, if h.id in d || h.id in hydrated then ps + [Placed(h.id, h.rank)] else ps,
                    if h.id in d then d[h.id := d[h.id].(sparse := Some(h.score))]
                    else if h.id in hydrated then d[h.id := hydrated[h.id].(sparse := Some(h.score))] else d,
                    AddHit(k, t, h, hydrated))
  {
    hide Tallies, Count;
    TalliesKeys(k, ps, d, t, h.id);
    if h.id in t.cards {
      CountTallies(k, ps, d, t, Placed(h.id, h.rank), t.cards[h.id].(sparse := Some(h.score)));
    } else if h.id in hydrated {
      CountTallies(k, ps, d, t, Placed(h.id, h.rank), hydrated[h.id].(sparse := Some(h.score)));
    }
  }

  lemma FuseNext(dense: seq<Candidate>, sparse: seq<Hit>, h: Hit, hydrated: map<string, Candidate>)
    ensures var d := FuseDict(dense, sparse, hydrated);
            FuseDict(dense, sparse + [h], hydrated) ==
            if h.id in d then d[h.id := d[h.id].(sparse := Some(h.score))]
            else if h.id in hydrated then d[h.id := hydrated[h.id].(sparse := Some(h.score))]
            else d
    ensures FuseVotes(dense, sparse + [h], hydrated) ==
            if h.id in Firsts(DenseList(dense)) || h.id in hydrated
            then FuseVotes(dense, sparse, hydrated) + [Placed(h.id, h.rank)]
            else FuseVotes(dense, sparse, hydrated)
  {
    assert (sparse + [h])[..|sparse|] == sparse;
  }

  /** What a fused candidate is: the dense chunk, or else the hydrated one, with the sparse score of
      its hit and no dense score of its own making. */
  lemma {:induction false} FusedCard(dense: seq<Candidate>, sparse: seq<Hit>, hydrated: map<string, Candidate>,
                                     id: string)
    requires forall i, j :: 0 <= i < j < |sparse| ==> sparse[i].id != sparse[j].id
    ensures var d, base := FuseDict(dense, sparse, hydrated), DenseDict(dense);
            && (id in base ==> id in d)
            && (forall j :: 0 <= j < |sparse| && sparse[j].id == id ==>
                  (id in d <==> id in base || id in hydrated) &&
                  (id in d ==>
                     d[id] == (if id in base then base[id] else hydrated[id]).(sparse := Some(sparse[j].score))))
            && ((forall j :: 0 <= j < |sparse| ==> sparse[j].id != id) ==>
                (id in d <==> id in base) && (id in d ==> d[id] == base[id]))
  {
    if sparse != [] {
      var init, h := sparse[..|sparse| - 1], sparse[|sparse| - 1];
      FusedCard(dense, init, hydrated, id);
      assert forall j :: 0 <= j < |init| ==> init[j] == sparse[j];
      hide DenseDict;
    }
  }

  /** What is in the dictionary while the sparse list is read: the dense ids and hydrated ones. */
  lemma {:induction false} ShownSoFar(dense: seq<Candidate>, sparse: seq<Hit>, hydrated: map<string, Candidate>,
                                      id: string)
    ensures id in Firsts(FuseVotes(dense, sparse, hydrated)) ==> id in Firsts(DenseList(dense)) || id in hydrated
    ensures id in Firsts(DenseList(dense)) ==> id in Firsts(FuseVotes(dense, sparse, hydrated))
  {
    if sparse == [] {
      assert FuseVotes(dense, sparse, hydrated) == DenseList(dense);
    } else {
      hide Firsts, FuseVotes, DenseList, FuseDict;
      var init, h := sparse[..|sparse| - 1], sparse[|sparse| - 1];
      assert sparse == init + [h];
      ShownSoFar(dense, init, hydrated, id);
      FuseNext(dense, init, h, hydrated);
      FirstsNext(FuseVotes(dense, init, hydrated), Placed(h.id, h.rank));
    }
  }

  lemma FirstsNext(ps: seq<Placed>, p: Placed)
    ensures Firsts(ps + [p]) == if p.id in Firsts(ps) then Firsts(ps) else Firsts(ps) + [p.id]
  {
    assert (ps + [p])[..|ps|] == ps;
  }

  /** With the dense side down, fusion is the hydratable part of the BM25 order. */
  lemma DenseDown(k: nat, scored: seq<(string, real)>, topK: nat, hydrated: map<string, Candidate>)
    requires Apart(scored)
    ensures var hits := SparseScores(scored, topK);
            Fusion(k, FuseVotes([], hits, hydrated)) == Ids(SparseList([], hits, hydrated))
  {
    var hits := SparseScores(scored, topK);
    SparseScoresRanked(scored, topK, ("", 0.0));
    SparseDistinct(scored, topK);
    SparseListRises(hits, hydrated);
    assert FuseVotes([], hits, hydrated) == SparseList([], hits, hydrated);
    LoneListKeepsOrder(k, SparseList([], hits, hydrated));
  }

  ghost predicate Apart(s: seq<(string, real)>) {
    forall i, j :: 0 <= i < j < |s| ==> s[i].0 != s[j].0
  }

  lemma SparseDistinct(scored: seq<(string, real)>, topK: nat)
    requires Apart(scored)
    ensures forall i, j :: 0 <= i < j < |SparseScores(scored, topK)| ==>
            SparseScores(scored, topK)[i].id != SparseScores(scored, topK)[j].id
  {
    var matching := Filter(Matches, scored);
    FilterKeepsApart(scored);
    var order := Descending(ByScore, matching);
    PermutedApart(matching, order);
  }

  lemma {:induction false} FilterKeepsApart(scored: seq<(string, real)>)
    requires Apart(scored)
    ensures Apart(Filter(Matches, scored))
  {
    if scored != [] {
      assert forall i :: 0 <= i < |scored[1..]| ==> scored[1..][i] == scored[i + 1];
      FilterKeepsApart(scored[1..]);
      var rest := Filter(Matches, scored[1..]);
      forall j | 0 <= j < |rest| ensures rest[j].0 != scored[0].0 {
        assert rest[j] in rest;
        var n :| 0 <= n < |scored[1..]| && scored[1..][n] == rest[j];
        assert scored[n + 1] == rest[j];
      }
      assert Filter(Matches, scored) == (if Matches(scored[0]) then [scored[0]] else []) + rest;
    }
  }

  lemma PermutedApart(a: seq<(string, real)>, b: seq<(string, real)>)
    requires multiset(a) == multiset(b) && Apart(a)
    ensures Apart(b)
  {
    SameElements(a, b);
    forall i, j | 0 <= i < j < |b| ensures b[i].0 != b[j].0 {
      if b[i].0 == b[j].0 {
        assert b[i] in a && b[j] in a;
        var m, n :| 0 <= m < |a| && 0 <= n < |a| && a[m] == b[i] && a[n] == b[j];
        assert m == n;
        TwiceMeansTwo(b, i, j);
        OnceInApart(a, m);
        assert false;
      }
    }
  }

  lemma TwiceMeansTwo(b: seq<(string, real)>, i: nat, j: nat)
    requires i < j < |b| && b[i] == b[j]
    ensures multiset(b)[b[i]] >= 2
  {
    assert b == b[..j] + [b[j]] + b[j + 1..];
    assert b[..j][i] == b[i] && b[i] in multiset(b[..j]);
  }

  lemma {:induction false} OnceInApart(a: seq<(string, real)>, m: nat)
    requires m < |a| && Apart(a)
    ensures multiset(a)[a[m]] == 1
  {
    assert a == a[..m] + [a[m]] + a[m + 1..];
    assert a[m] !in a[..m] && a[m] !in a[m + 1..];
    assert a[m] !in multiset(a[..m]) && a[m] !in multiset(a[m + 1..]);
  }

  lemma {:induction false} SparseListRises(hits: seq<Hit>, hydrated: map<string, Candidate>)
    requires forall i :: 0 <= i < |hits| ==> hits[i].rank == i + 1
    requires forall i, j :: 0 <= i < j < |hits| ==> hits[i].id != hits[j].id
    ensures var l := SparseList([], hits, hydrated);
            && Plain(l) && (forall i, j :: 0 <= i < j < |l| ==> l[i].rank < l[j].rank)
            && forall i :: 0 <= i < |l| ==> l[i].rank <= |hits| && l[i].id == hits[l[i].rank - 1].id
  {
    if hits != [] {
      SparseListRises(hits[..|hits| - 1], hydrated);
    }
  }

  // ------------------------------------------------------------------ merging the pools of a fan-out

  function PoolLists(pools: seq<seq<Candidate>>): (r: seq<seq<Placed>>)
    ensures |r| == |pools| && forall i :: 0 <= i < |r| ==> r[i] == DenseList(pools[i])
  {
    seq(|pools|, i requires 0 <= i < |pools| => DenseList(pools[i]))
  }

  /** The first whole chunk seen under each id. */
  function FirstChunks(cs: seq<Candidate>): map<string, Candidate> {
    if cs == [] then map[]
    else
      var d, c := FirstChunks(cs[..|cs| - 1]), cs[|cs| - 1];
      if c.id in d then d else d[c.id := c]
  }

  lemma {:induction false} FirstChunkIsFirst(cs: seq<Candidate>, i: nat)
    requires i < |cs| && forall j :: 0 <= j < i ==> cs[j].id != cs[i].id
    ensures cs[i].id in FirstChunks(cs) && FirstChunks(cs)[cs[i].id] == cs[i]
  {
    if i < |cs| - 1 {
      FirstChunkIsFirst(cs[..|cs| - 1], i);
    } else {
      NoChunk(cs[..i], cs[i].id);
    }
  }

  lemma {:induction false} NoChunk(cs: seq<Candidate>, id: string)
    requires forall j :: 0 <= j < |cs| ==> cs[j].id != id
    ensures id !in FirstChunks(cs)
  {
    if cs != [] { NoChunk(cs[..|cs| - 1], id); }
  }

  /** Union the pools by id, keep the first whole chunk, rank by summed points. */
  method RrfMerge(k: nat, cap: nat, pools: seq<seq<Candidate>>) returns (r: seq<Candidate>)
    ensures |r| == |Capped(Fusion(k, Flatten(PoolLists(pools))), cap)|
    ensures forall i :: 0 <= i < |r| ==> MergedAt(k, pools, i, r[i])
  {
    var t := TallyPools(k, pools);
    ghost var ps, cs := Flatten(PoolLists(pools)), Flatten(pools);
    var ids := Ordered(k, ps, FirstChunks(cs), t, cap);
    TalliesCards(k, ps, FirstChunks(cs), t);
    hide Tallies, FirstChunks, Fusion, Flatten, PoolLists;
    assert forall i :: 0 <= i < |ids| ==> ids[i] in ids;
    r := seq(|ids|, i requires 0 <= i < |ids| => t.cards[ids[i]]);
  }

  lemma TalliesCards(k: nat, ps: seq<Placed>, cards: map<string, Candidate>, t: Tally)
    requires Tallies(k, ps, cards, t)
    ensures t.cards == cards
  {
  }

  lemma PoolsNext(pools: seq<seq<Candidate>>, i: nat)
    requires i < |pools|
    ensures Flatten(PoolLists(pools[..i + 1])) == Flatten(PoolLists(pools[..i])) + DenseList(pools[i])
    ensures Flatten(pools[..i + 1]) == Flatten(pools[..i]) + pools[i]
  {
    assert PoolLists(pools[..i + 1]) == PoolLists(pools[..i]) + [DenseList(pools[i])];
    assert pools[..i + 1] == pools[..i] + [pools[i]];
    FlattenSnoc(PoolLists(pools[..i]), DenseList(pools[i]));
    FlattenSnoc(pools[..i], pools[i]);
  }

  method TallyPools(k: nat, pools: seq<seq<Candidate>>) returns (t: Tally)
    ensures Tallies(k, Flatten(PoolLists(pools)), FirstChunks(Flatten(pools)), t)
  {
    t := NO_TALLY;
    TalliesNothing(k);
    assert PoolLists(pools[..0]) == [] && pools[..0] == [];
    assert FirstChunks(Flatten(pools[..0])) == map[];
    hide Tallies, FirstChunks, DenseList, Flatten, PoolLists;
    for i := 0 to |pools|
      invariant Tallies(k, Flatten(PoolLists(pools[..i])), FirstChunks(Flatten(pools[..i])), t)
    {
      PoolsNext(pools, i);
      t := MergePool(k, Flatten(PoolLists(pools[..i])), Flatten(pools[..i]), pools[i], t);
    }
    assert pools[..|pools|] == pools;
  }

  ghost predicate MergedAt(k: nat, pools: seq<seq<Candidate>>, i: nat, c: Candidate) {
    var ps, d := Flatten(PoolLists(pools)), FirstChunks(Flatten(pools));
    i < |Fusion(k, ps)| && Fusion(k, ps)[i] in d && c == d[Fusion(k, ps)[i]]
  }

  lemma PoolNext(ps: seq<Placed>, cs: seq<Candidate>, pool: seq<Candidate>, j: nat)
    requires j < |pool|
    ensures ps + DenseList(pool)[..j + 1] == (ps + DenseList(pool)[..j]) + [Placed(pool[j].id, j + 1)]
    ensures var d := FirstChunks(cs + pool[..j]);
            FirstChunks(cs + pool[..j + 1]) ==
            if pool[j].id in d then d[pool[j].id := d[pool[j].id]] else d[pool[j].id := pool[j]]
  {
    assert (cs + pool[..j + 1])[..|cs| + j] == cs + pool[..j];
    var d := FirstChunks(cs + pool[..j]);
    if pool[j].id in d { assert d[pool[j].id := d[pool[j].id]] == d; }
  }

  method MergePool(k: nat, ghost ps: seq<Placed>, ghost cs: seq<Candidate>, pool: seq<Candidate>, start: Tally)
    returns (t: Tally)
    requires Tallies(k, ps, FirstChunks(cs), start)
    ensures Tallies(k, ps + DenseList(pool), FirstChunks(cs + pool), t)
  {
    t := start;
    assert ps + DenseList(pool)[..0] == ps && cs + pool[..0] == cs;
    for j := 0 to |pool|
      invariant Tallies(k, ps + DenseList(pool)[..j], FirstChunks(cs + pool[..j]), t)
    {
      var c := pool[j];
      PoolNext(ps, cs, pool, j);
      TalliesKeys(k, ps + DenseList(pool)[..j], FirstChunks(cs + pool[..j]), t, c.id);
      hide *;
      var card := if c.id in t.cards then t.cards[c.id] else c;
      CountTallies(k, ps + DenseList(pool)[..j], FirstChunks(cs + pool[..j]), t, Placed(c.id, j + 1), card);
      t := Count(k, t, Placed(c.id, j + 1), card);
    }
    assert DenseList(pool)[..|pool|] == DenseList(pool) && pool[..|pool|] == pool;
  }

  /** A single duplicate-free pool passes through in its own order. */
  lemma LonePool(k: nat, pool: seq<Candidate>)
    requires forall i, j :: 0 <= i < j < |pool| ==> pool[i].id != pool[j].id
    ensures Fusion(k, Flatten(PoolLists([pool]))) == Ids(DenseList(pool))
  {
    assert PoolLists([pool])[1..] == [];
    assert Flatten(PoolLists([pool])) == DenseList(pool);
    LoneListKeepsOrder(k, DenseList(pool));
  }
}
