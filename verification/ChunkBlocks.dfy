/** From the blocks of a document to the pages of its passages. */
module ChunkBlocks {
  import opened Prelude
  import opened StructureChunker
  import opened ChunkPages

  // ------------------------------------------------------------------ which text a section is made of

  /** A stretch of text and the block it is from. */
  type Piece = (string, Block)

  function Whole(docs: seq<Block>): seq<Piece> {
    if docs == [] then [] else Whole(Front(docs)) + [(LastOf(docs).text, LastOf(docs))]
  }

  /** What sectioning goes over: whole blocks under headings or anchors, else lines. */
  function Pieces(cfg: Config, docs: seq<Block>): seq<Piece> {
    if AnyHeading(docs) || AnyAnchor(docs) then Whole(docs) else AllLines(cfg, docs)
  }

  /** Every piece is text of one of the blocks. */
  lemma {:induction false} PiecesAreOfBlocks(cfg: Config, docs: seq<Block>)
    ensures forall p :: p in Whole(docs) ==> p.1 in docs && p.0 == p.1.text
    ensures forall p :: p in AllLines(cfg, docs) ==> p.1 in docs && p.0 in cfg.lines(p.1.text)
  {
    if docs != [] {
      var front, d := Front(docs), LastOf(docs);
      PiecesAreOfBlocks(cfg, front);
      assert docs == front + [d];
      forall p | p in Tagged(cfg.lines(d.text), d) ensures p.1 == d && p.0 in cfg.lines(d.text) {
        var i :| 0 <= i < |Tagged(cfg.lines(d.text), d)| && Tagged(cfg.lines(d.text), d)[i] == p;
      }
    }
  }

  function Texts(ps: seq<Piece>): (r: seq<string>)
    ensures |r| == |ps| && forall i :: 0 <= i < |r| ==> r[i] == ps[i].0
  {
    seq(|ps|, i requires 0 <= i < |ps| => ps[i].0)
  }

  /** The first page of the first piece's block, the last page of the last one's. */
  predicate SpansPieces(f: Fields, ps: seq<Piece>) {
    ps != [] && f.pageStart == ps[0].1.pageStart && f.pageEnd == LastOf(ps).1.pageEnd
  }

  /** Section `i` is exactly these pieces, on exactly their pages. */
  ghost predicate SectionAt(ss: seq<Fields>, starts: seq<nat>, ps: seq<Piece>, i: nat)
  {
    && i < |ss| == |starts| && starts[i] < End(starts, |ps|, i) <= |ps|
    && ss[i].parts == Texts(ps[starts[i]..End(starts, |ps|, i)])
    && SpansPieces(ss[i], ps[starts[i]..End(starts, |ps|, i)])
  }

  /** The sections are consecutive stretches of the pieces, all of them. */
  ghost predicate Sectioned(ss: seq<Fields>, starts: seq<nat>, ps: seq<Piece>) {
    && |starts| == |ss| && (ss == [] <==> ps == []) && (ss != [] ==> starts[0] == 0)
    && forall i: nat :: i < |ss| ==> SectionAt(ss, starts, ps, i)
  }

  /** A piece more for the last section. */
  lemma SectionGrows(ss: seq<Fields>, starts: seq<nat>, ps: seq<Piece>, x: Piece)
    requires Sectioned(ss, starts, ps) && ss != []
    ensures Sectioned(Extended(ss, x.0, x.1.pageEnd), starts, ps + [x])
  {
    var r, qs := Extended(ss, x.0, x.1.pageEnd), ps + [x];
    forall i: nat | i < |r| ensures SectionAt(r, starts, qs, i) {
      assert SectionAt(ss, starts, ps, i);
      if i + 1 < |r| {
        LaterSection(starts, |ss|, i);
        assert SectionAt(ss, starts, ps, i + 1);
        assert qs[starts[i]..starts[i + 1]] == ps[starts[i]..starts[i + 1]];
      } else {
        assert qs[starts[i]..|qs|] == ps[starts[i]..|ps|] + [x];
      }
    }
  }

  lemma LaterSection(starts: seq<nat>, n: nat, i: nat)
    requires i + 1 < n == |starts|
    ensures forall k :: End(starts, k, i) == starts[i + 1]
  {
  }

  /** A section more, with one piece. */
  lemma SectionOpens(ss: seq<Fields>, starts: seq<nat>, ps: seq<Piece>, f: Fields, x: Piece)
    requires Sectioned(ss, starts, ps) && f.parts == [] && f.pageStart == x.1.pageStart
    ensures Sectioned(Extended(ss + [f], x.0, x.1.pageEnd), starts + [|ps|], ps + [x])
  {
    var r, next, qs := Extended(ss + [f], x.0, x.1.pageEnd), starts + [|ps|], ps + [x];
    assert f.parts + [x.0] == [x.0];
    assert r == ss + [f.(parts := [x.0], pageEnd := x.1.pageEnd)];
    forall i: nat | i < |r| ensures SectionAt(r, next, qs, i) {
      if i < |ss| {
        assert SectionAt(ss, starts, ps, i);
        assert End(next, |qs|, i) == End(starts, |ps|, i);
        assert qs[starts[i]..End(next, |qs|, i)] == ps[starts[i]..End(starts, |ps|, i)];
      } else {
        assert qs[|ps|..|qs|] == [x];
      }
    }
  }

  function BlockKey(key: GroupKey, d: Block): Option<string> {
    match key case ByHeading => d.heading case ByAnchor => d.anchor
  }

  /** A section starts exactly at the first block and wherever the heading, or the anchor, changes. */
  ghost predicate StartsAtChanges(key: GroupKey, starts: seq<nat>, docs: seq<Block>) {
    forall k: nat :: k in starts <==> ChangesAt(key, docs, k)
  }

  predicate ChangesAt(key: GroupKey, docs: seq<Block>, k: nat) {
    k < |docs| && (k == 0 || BlockKey(key, docs[k - 1]) != BlockKey(key, docs[k]))
  }

  /** It is named after the block it starts at. */
  ghost predicate NamedAfterBlocks(key: GroupKey, ss: seq<Fields>, starts: seq<nat>, docs: seq<Block>) {
    && |starts| == |ss|
    && forall i :: 0 <= i < |ss| ==>
         && starts[i] < |docs| && ss[i].anchor == docs[starts[i]].anchor
         && ss[i].heading == if key.ByHeading? then docs[starts[i]].heading else None
  }

  lemma ChangesNext(key: GroupKey, starts: seq<nat>, docs: seq<Block>, d: Block)
    requires StartsAtChanges(key, starts, docs)
    ensures var changes := docs == [] || BlockKey(key, LastOf(docs)) != BlockKey(key, d);
            StartsAtChanges(key, if changes then starts + [|docs|] else starts, docs + [d])
  {
    hide BlockKey;
    var changes := docs == [] || BlockKey(key, LastOf(docs)) != BlockKey(key, d);
    var longer := if changes then starts + [|docs|] else starts;
    forall k: nat ensures k in longer <==> ChangesAt(key, docs + [d], k) {
      assert k in starts <==> ChangesAt(key, docs, k);
      assert k in longer <==> k in starts || (changes && k == |docs|);
    }
  }

  lemma NamedLonger(key: GroupKey, ss: seq<Fields>, starts: seq<nat>, docs: seq<Block>, d: Block)
    requires NamedAfterBlocks(key, ss, starts, docs)
    ensures NamedAfterBlocks(key, ss, starts, docs + [d])
    ensures ss != [] ==> NamedAfterBlocks(key, Extended(ss, d.text, d.pageEnd), starts, docs + [d])
  {
  }

  lemma NamedOpens(key: GroupKey, ss: seq<Fields>, starts: seq<nat>, docs: seq<Block>, k: nat, f: Fields)
    requires NamedAfterBlocks(key, ss, starts, docs) && k < |docs|
    requires f.anchor == docs[k].anchor && f.heading == if key.ByHeading? then docs[k].heading else None
    ensures NamedAfterBlocks(key, ss + [f], starts + [k], docs)
  {
  }

  /** One block more. */
  lemma GroupStep(key: GroupKey, ss: seq<Fields>, before: seq<nat>, front: seq<Block>, d: Block)
    returns (starts: seq<nat>)
    requires Sectioned(ss, before, Whole(front)) && |Whole(front)| == |front|
    requires StartsAtChanges(key, before, front) && NamedAfterBlocks(key, ss, before, front)
    requires ss != [] <==> front != []
    requires front != [] ==> KeyOf(key, LastOf(ss)) == BlockKey(key, LastOf(front))
    ensures var next := Extended(Opened(key, ss, d), d.text, d.pageEnd);
            && Sectioned(next, starts, Whole(front) + [(d.text, d)])
            && StartsAtChanges(key, starts, front + [d]) && NamedAfterBlocks(key, next, starts, front + [d])
            && KeyOf(key, LastOf(next)) == BlockKey(key, d)
  {
    var f := Fields(if key.ByHeading? then d.heading else None, d.anchor, d.pageStart, d.pageEnd, []);
    var changes := front == [] || BlockKey(key, LastOf(front)) != BlockKey(key, d);
    var next := Opened(key, ss, d);
    assert next == if changes then ss + [f] else ss;
    assert KeyOf(key, LastOf(next)) == BlockKey(key, d);
    LastExtended(next, d.text, d.pageEnd);
    assert KeyOf(key, LastOf(Extended(next, d.text, d.pageEnd))) == BlockKey(key, d);
    hide *;
    ChangesNext(key, before, front, d);
    if changes {
      starts := before + [|front|];
      SectionOpens(ss, before, Whole(front), f, (d.text, d));
      NamedLonger(key, ss, before, front, d);
      NamedOpens(key, ss, before, front + [d], |front|, f);
      NamedExtends(key, ss + [f], starts, front + [d], d.text, d.pageEnd);
    } else {
      starts := before;
      SectionGrows(ss, before, Whole(front), (d.text, d));
      NamedLonger(key, ss, before, front, d);
    }
  }

  lemma NamedExtends(key: GroupKey, ss: seq<Fields>, starts: seq<nat>, docs: seq<Block>, text: string,
                     pageEnd: Option<int>)
    requires NamedAfterBlocks(key, ss, starts, docs) && ss != []
    ensures NamedAfterBlocks(key, Extended(ss, text, pageEnd), starts, docs)
  {
  }

  /** Each section of a grouping starts on the first page of its first block and ends on the last page of
      its last block; and it starts where the key changes. */
  lemma {:induction false} GroupedPages(key: GroupKey, docs: seq<Block>) returns (starts: seq<nat>)
    ensures Sectioned(Grouped(key, docs), starts, Whole(docs)) && StartsAtChanges(key, starts, docs)
    ensures NamedAfterBlocks(key, Grouped(key, docs), starts, docs)
    ensures docs != [] ==> KeyOf(key, LastOf(Grouped(key, docs))) == BlockKey(key, LastOf(docs))
  {
    if docs == [] {
      starts := [];
    } else {
      var front, d := Front(docs), LastOf(docs);
      var before := GroupedPages(key, front);
      assert docs == front + [d];
      WholeSize(front);
      hide Sectioned, StartsAtChanges, NamedAfterBlocks, Opened, Extended, KeyOf, BlockKey;
      starts := GroupStep(key, Grouped(key, front), before, front, d);
    }
  }

  lemma {:induction false} WholeSize(docs: seq<Block>)
    ensures |Whole(docs)| == |docs|
  {
    if docs != [] { WholeSize(Front(docs)); }
  }

  lemma LastExtended(ss: seq<Fields>, text: string, pageEnd: Option<int>)
    requires ss != []
    ensures Extended(ss, text, pageEnd) != []
    ensures LastOf(Extended(ss, text, pageEnd)).heading == LastOf(ss).heading
    ensures LastOf(Extended(ss, text, pageEnd)).anchor == LastOf(ss).anchor
  {
  }

  /** A section starts exactly at the first line and at every line that opens a clause. */
  ghost predicate StartsAtClauses(cfg: Config, starts: seq<nat>, lines: seq<Piece>) {
    forall k: nat :: k in starts <==> k < |lines| && (k == 0 || cfg.opens(lines[k].0))
  }

  /** It is named after the line it starts at, stripped, if that opens a clause. */
  ghost predicate NamedAfterLines(cfg: Config, ss: seq<Fields>, starts: seq<nat>, lines: seq<Piece>) {
    && |starts| == |ss|
    && forall i :: 0 <= i < |ss| ==>
         && starts[i] < |lines| && ss[i].anchor == lines[starts[i]].1.anchor
         && ss[i].heading == if cfg.opens(lines[starts[i]].0)
                             then Some(CacheKeys.Strip(cfg.space, lines[starts[i]].0)) else None
  }

  lemma ClausesNext(cfg: Config, starts: seq<nat>, lines: seq<Piece>, x: Piece)
    requires StartsAtClauses(cfg, starts, lines)
    ensures StartsAtClauses(cfg, if lines == [] || cfg.opens(x.0) then starts + [|lines|] else starts, lines + [x])
  {
    assert forall k: nat :: k in starts + [|lines|] <==> k in starts || k == |lines|;
  }

  lemma NamedMoreLines(cfg: Config, ss: seq<Fields>, starts: seq<nat>, lines: seq<Piece>, x: Piece)
    requires NamedAfterLines(cfg, ss, starts, lines)
    ensures NamedAfterLines(cfg, ss, starts, lines + [x])
    ensures ss != [] ==> NamedAfterLines(cfg, Extended(ss, x.0, x.1.pageEnd), starts, lines + [x])
  {
    hide CacheKeys.Strip;
  }

  lemma NamedNewLine(cfg: Config, ss: seq<Fields>, starts: seq<nat>, lines: seq<Piece>, x: Piece, f: Fields)
    requires NamedAfterLines(cfg, ss, starts, lines) && f.anchor == x.1.anchor
    requires f.heading == if cfg.opens(x.0) then Some(CacheKeys.Strip(cfg.space, x.0)) else None
    ensures NamedAfterLines(cfg, Extended(ss + [f], x.0, x.1.pageEnd), starts + [|lines|], lines + [x])
  {
    hide CacheKeys.Strip;
    var r := Extended(ss + [f], x.0, x.1.pageEnd);
    assert forall i :: 0 <= i < |ss| ==> r[i] == ss[i];
  }

  /** One line more. */
  lemma ClauseStep(cfg: Config, ss: seq<Fields>, before: seq<nat>, front: seq<Piece>, x: Piece)
    returns (starts: seq<nat>)
    requires Sectioned(ss, before, front) && StartsAtClauses(cfg, before, front)
    requires NamedAfterLines(cfg, ss, before, front) && (ss != [] <==> front != [])
    ensures var next := Extended(OpenedAt(cfg, ss, x.0, x.1), x.0, x.1.pageEnd);
            && Sectioned(next, starts, front + [x]) && StartsAtClauses(cfg, starts, front + [x])
            && NamedAfterLines(cfg, next, starts, front + [x])
  {
    hide CacheKeys.Strip;
    var heading := if cfg.opens(x.0) then Some(CacheKeys.Strip(cfg.space, x.0)) else None;
    var f := Fields(heading, x.1.anchor, x.1.pageStart, x.1.pageEnd, []);
    assert [] + [f] == [f];
    assert OpenedAt(cfg, ss, x.0, x.1) == if front == [] || cfg.opens(x.0) then ss + [f] else ss;
    hide *;
    ClausesNext(cfg, before, front, x);
    if front == [] || cfg.opens(x.0) {
      starts := before + [|front|];
      SectionOpens(ss, before, front, f, x);
      NamedNewLine(cfg, ss, before, front, x, f);
    } else {
      starts := before;
      SectionGrows(ss, before, front, x);
      NamedMoreLines(cfg, ss, before, front, x);
    }
  }

  /** Splitting at clauses, each section does so with the blocks of its first and its last line; and
      it starts at a line that opens a clause. */
  lemma {:induction false} ClausePages(cfg: Config, lines: seq<Piece>) returns (starts: seq<nat>)
    ensures Sectioned(Clauses(cfg, lines), starts, lines)
    ensures StartsAtClauses(cfg, starts, lines) && NamedAfterLines(cfg, Clauses(cfg, lines), starts, lines)
  {
    if lines == [] {
      starts := [];
    } else {
      var front, x := Front(lines), LastOf(lines);
      var before := ClausePages(cfg, front);
      assert lines == front + [x];
      hide Sectioned, StartsAtClauses, NamedAfterLines, OpenedAt, Extended;
      starts := ClauseStep(cfg, Clauses(cfg, front), before, front, x);
    }
  }

  /** Where the sections of a document start and what they are called: at its headings if a block has
      one, else at its anchors, else at its clauses. */
  ghost predicate StartsOfSections(cfg: Config, docs: seq<Block>, starts: seq<nat>) {
    var ss := SectionsOf(cfg, docs);
    if exists i :: 0 <= i < |docs| && docs[i].heading.Some? && docs[i].heading.value != "" then
      StartsAtChanges(ByHeading, starts, docs) && NamedAfterBlocks(ByHeading, ss, starts, docs)
    else if exists i :: 0 <= i < |docs| && docs[i].anchor.Some? && docs[i].anchor.value != "" then
      StartsAtChanges(ByAnchor, starts, docs) && NamedAfterBlocks(ByAnchor, ss, starts, docs)
    else
      var lines := AllLines(cfg, docs);
      StartsAtClauses(cfg, starts, lines) && NamedAfterLines(cfg, ss, starts, lines)
  }

  lemma SectionPages(cfg: Config, docs: seq<Block>) returns (starts: seq<nat>)
    ensures Sectioned(SectionsOf(cfg, docs), starts, Pieces(cfg, docs)) && StartsOfSections(cfg, docs, starts)
  {
    hide Sectioned, StartsAtChanges, NamedAfterBlocks, StartsAtClauses, NamedAfterLines;
    if AnyHeading(docs) {
      starts := GroupedPages(ByHeading, docs);
    } else if AnyAnchor(docs) {
      starts := GroupedPages(ByAnchor, docs);
    } else {
      starts := ClausePages(cfg, AllLines(cfg, docs));
    }
  }

  // ------------------------------------------------------------------ the text of consecutive sections

  /** The pieces of sections `a` up to `b`. */
  function PiecesOf(starts: seq<nat>, ps: seq<Piece>, a: nat, b: nat): seq<Piece> {
    if a < b <= |starts| then Slice(ps, starts[a], End(starts, |ps|, b - 1)) else []
  }

  lemma {:induction false} InkOfTexts(cfg: Config, ps: seq<Piece>)
    ensures InkOfLines(cfg, ps) == Ink(cfg, Flatten(Texts(ps)))
    decreases |ps|
  {
    if ps == [] {
      assert Texts(ps) == [];
    } else {
      var front, x := ps[..|ps| - 1], ps[|ps| - 1];
      assert ps == front + [x] && Texts(ps) == Texts(front) + [x.0];
      hide *;
      InkOfTexts(cfg, front);
      InkOfLinesSnoc(cfg, front, x);
      FlattenSnoc(Texts(front), x.0);
      InkConcat(cfg, Flatten(Texts(front)), x.0);
    }
  }

  lemma {:induction false} InkOfLinesConcat(cfg: Config, a: seq<Piece>, b: seq<Piece>)
    ensures InkOfLines(cfg, a + b) == InkOfLines(cfg, a) + InkOfLines(cfg, b)
    decreases |b|
  {
    if b == [] {
      assert a + b == a;
    } else {
      var front, x := b[..|b| - 1], b[|b| - 1];
      assert b == front + [x];
      hide *;
      InkOfLinesConcat(cfg, a, front);
      Associative(a, front, [x]);
      InkOfLinesSnoc(cfg, a + front, x);
      InkOfLinesSnoc(cfg, front, x);
      Associative(InkOfLines(cfg, a), InkOfLines(cfg, front), Ink(cfg, x.0));
    }
  }

  lemma SectionFacts(cfg: Config, ss: seq<Fields>, starts: seq<nat>, ps: seq<Piece>, i: nat)
    requires Sectioned(ss, starts, ps) && i < |ss|
    ensures |starts| == |ss| && starts[i] < End(starts, |ps|, i) <= |ps|
    ensures Ink(cfg, Flatten(ss[i].parts)) == InkOfLines(cfg, ps[starts[i]..End(starts, |ps|, i)])
    ensures ss[i].pageStart == ps[starts[i]].1.pageStart && ss[i].pageEnd == ps[End(starts, |ps|, i) - 1].1.pageEnd
  {
    assert SectionAt(ss, starts, ps, i);
    InkOfTexts(cfg, ps[starts[i]..End(starts, |ps|, i)]);
    hide Ink, Flatten, InkOfLines;
  }

  /** Consecutive sections have the ink of their pieces. */
  lemma {:induction false} SectionsInk(cfg: Config, ss: seq<Fields>, starts: seq<nat>, ps: seq<Piece>, a: nat, b: nat)
    requires Sectioned(ss, starts, ps) && a < b <= |ss|
    ensures |starts| == |ss| && starts[a] < End(starts, |ps|, b - 1) <= |ps|
    ensures InkOf(cfg, ss[a..b]) == InkOfLines(cfg, ps[starts[a]..End(starts, |ps|, b - 1)])
    decreases b
  {
    hide Sectioned, Ink, InkOf, InkOfLines;
    SectionFacts(cfg, ss, starts, ps, b - 1);
    if a + 1 == b {
      assert ss[a..b] == [ss[a]];
      InkOfOne(cfg, ss[a]);
    } else {
      SectionsInk(cfg, ss, starts, ps, a, b - 1);
      assert ss[a..b] == ss[a..b - 1] + [ss[b - 1]];
      InkOfSnoc(cfg, ss[a..b - 1], ss[b - 1]);
      SlicesMeet(ps, starts[a], starts[b - 1], End(starts, |ps|, b - 1));
      InkOfLinesConcat(cfg, ps[starts[a]..starts[b - 1]], ps[starts[b - 1]..End(starts, |ps|, b - 1)]);
    }
  }

  lemma SlicesMeet<T>(s: seq<T>, i: nat, j: nat, k: nat)
    requires i <= j <= k <= |s|
    ensures s[i..k] == s[i..j] + s[j..k]
  {
  }

  /** Consecutive sections carry their pieces, and span the pages of these. */
  lemma SectionsPieces(cfg: Config, ss: seq<Fields>, starts: seq<nat>, ps: seq<Piece>, a: nat, b: nat, f: Fields)
    requires Sectioned(ss, starts, ps) && a < b <= |ss|
    ensures InkOf(cfg, ss[a..b]) == InkOfLines(cfg, PiecesOf(starts, ps, a, b))
    ensures Spans(f, ss[a..b]) <==> SpansPieces(f, PiecesOf(starts, ps, a, b))
  {
    hide Sectioned, Ink, InkOf, InkOfLines, Flatten;
    SectionsInk(cfg, ss, starts, ps, a, b);
    SectionFacts(cfg, ss, starts, ps, a);
    SectionFacts(cfg, ss, starts, ps, b - 1);
  }

  // ------------------------------------------------------------------ the passages of a document

  /** The pieces that merged sections `c` up to `e` carry. */
  function Carried(at: seq<nat>, n: nat, starts: seq<nat>, ps: seq<Piece>, c: nat, e: nat): seq<Piece> {
    if e == 0 then [] else PiecesOf(starts, ps, From(at, c), To(at, n, e - 1))
  }

  /** Passage `i` is a packed group, carries exactly the text of these pieces, and has their pages exactly
      when its first merged section keeps its start and its last one keeps its end. */
  ghost predicate PassageCarries(cfg: Config, ss: seq<Fields>, starts: seq<nat>, ps: seq<Piece>, packed: seq<Fields>,
                                 c: nat, e: nat, i: nat)
    requires i < |packed| && c < e
  {
    var at := LargeAt(cfg, ss);
    && Ink(cfg, Flatten(packed[i].parts)) == InkOfLines(cfg, Carried(at, |ss|, starts, ps, c, e))
    && (SpansPieces(packed[i], Carried(at, |ss|, starts, ps, c, e)) <==> StartKept(ss, at, c) && EndKept(ss, at, e - 1))
  }

  lemma PassageOfPieces(cfg: Config, ss: seq<Fields>, starts: seq<nat>, ps: seq<Piece>, packed: seq<Fields>,
                        c: nat, e: nat, i: nat)
    requires Sectioned(ss, starts, ps) && i < |packed| && c < e
    requires PassageStands(cfg, ss, LargeAt(cfg, ss), packed, c, e, i)
    requires From(LargeAt(cfg, ss), c) < To(LargeAt(cfg, ss), |ss|, e - 1) <= |ss|
    ensures PassageCarries(cfg, ss, starts, ps, packed, c, e, i)
    ensures SpansPieces(packed[i], Carried(LargeAt(cfg, ss), |ss|, starts, ps, c, e)) <==>
            Spans(packed[i], SourcesOf(LargeAt(cfg, ss), ss, c, e))
  {
    hide Sectioned, Ink, InkOf, InkOfLines, Flatten, LargeAt, From, To, StartKept, EndKept, Spans, SpansPieces,
        PiecesOf;
    var at := LargeAt(cfg, ss);
    SectionsPieces(cfg, ss, starts, ps, From(at, c), To(at, |ss|, e - 1), packed[i]);
  }

  /** All passages span the pages of the blocks whose text they carry. */
  ghost predicate AllSpanPieces(at: seq<nat>, n: nat, starts: seq<nat>, ps: seq<Piece>, packed: seq<Fields>,
                                cuts: seq<nat>, m: nat)
    requires |cuts| == |packed|
  {
    forall i :: 0 <= i < |packed| ==> SpansPieces(packed[i], Carried(at, n, starts, ps, cuts[i], End(cuts, m, i)))
  }

  /** Every passage is a group of merged sections and carries what its group calls for. */
  ghost predicate PassagesCarry(cfg: Config, ss: seq<Fields>, starts: seq<nat>, ps: seq<Piece>, packed: seq<Fields>,
                                cuts: seq<nat>, m: nat)
    requires |cuts| == |packed|
  {
    forall i :: 0 <= i < |packed| ==>
      && cuts[i] < End(cuts, m, i) <= m
      && PassageCarries(cfg, ss, starts, ps, packed, cuts[i], End(cuts, m, i), i)
  }

  lemma PassagesOfPieces(cfg: Config, ss: seq<Fields>, starts: seq<nat>, ps: seq<Piece>, packed: seq<Fields>,
                         cuts: seq<nat>, m: nat)
    requires cfg.space('\n') && Sectioned(ss, starts, ps) && |cuts| == |packed|
    requires m == |Merged(cfg, ss)| == MergedCount(LargeAt(cfg, ss), |ss|)
    requires forall i :: 0 <= i < |packed| ==>
               cuts[i] < End(cuts, m, i) <= m
               && PassageStands(cfg, ss, LargeAt(cfg, ss), packed, cuts[i], End(cuts, m, i), i)
    ensures PassagesCarry(cfg, ss, starts, ps, packed, cuts, m)
    ensures AllSpanPieces(LargeAt(cfg, ss), |ss|, starts, ps, packed, cuts, m) <==>
            AllPassagesSpan(cfg, ss, LargeAt(cfg, ss), packed, cuts, m)
  {
    var at := LargeAt(cfg, ss);
    hide LargeAt, Merged, MergedCount, Sectioned, PassageStands, PassageCarries, SpansPieces, Spans, Carried, SourcesOf;
    hide From, To, End;
    forall i | 0 <= i < |packed|
      ensures PassageCarries(cfg, ss, starts, ps, packed, cuts[i], End(cuts, m, i), i)
      ensures SpansPieces(packed[i], Carried(at, |ss|, starts, ps, cuts[i], End(cuts, m, i))) <==>
              Spans(packed[i], SourcesOf(at, ss, cuts[i], End(cuts, m, i)))
    {
      PassagePlaced(cfg, ss, cuts[i], End(cuts, m, i));
      PassageOfPieces(cfg, ss, starts, ps, packed, cuts[i], End(cuts, m, i), i);
    }
  }

  /** From the blocks of a document to its passages: the sections are consecutive stretches of the text that
      start where a heading, an anchor or a clause does and are named after it,
          each on the pages of its first and last block; the passages are consecutive groups of merged sections;
      which stretch of the text each passage carries, and when its pages are those of the first and the
      last block of that stretch; and all of them are exactly when the runs in front of the sections that
      head a passage, and the trailing run, keep their pages. */
  lemma DocumentPagesExactly(cfg: Config, docs: seq<Block>) returns (cuts: seq<nat>, starts: seq<nat>)
    requires cfg.space('\n')
    ensures var ss, ps, packed := SectionsOf(cfg, docs), Pieces(cfg, docs), Passages(cfg, docs);
            var at, merged := LargeAt(cfg, ss), Merged(cfg, ss);
            && Sectioned(ss, starts, ps) && StartsOfSections(cfg, docs, starts)
            && IsPacking(cfg, merged, packed, cuts)
            && PassagesCarry(cfg, ss, starts, ps, packed, cuts, |merged|)
            && (AllSpanPieces(at, |ss|, starts, ps, packed, cuts, |merged|) <==> PassagePagesKept(cfg, ss, at, cuts))
            && (PagesKept(cfg, ss) ==> PassagePagesKept(cfg, ss, at, cuts))
  {
    hide SectionsOf, Pieces, LargeAt, Merged, Packed, Sectioned, PassageStands, PassagesCarry, IsGroup, AllSpanPieces;
    hide AllPassagesSpan, PassagePagesKept, PagesKept, MergedCount, StartsOfSections;
    var ss := SectionsOf(cfg, docs);
    starts := SectionPages(cfg, docs);
    cuts := PassagesSpanExactly(cfg, ss);
    PassagesOfPieces(cfg, ss, starts, Pieces(cfg, docs), Packed(cfg, Merged(cfg, ss)), cuts, |Merged(cfg, ss)|);
  }

  /** Merged sections carry stretches of sections that follow each other. */
  lemma PassagePlaced(cfg: Config, ss: seq<Fields>, c: nat, e: nat)
    requires cfg.space('\n') && c < e <= |Merged(cfg, ss)|
    ensures From(LargeAt(cfg, ss), c) < To(LargeAt(cfg, ss), |ss|, e - 1) <= |ss|
  {
    MergedStands(cfg, ss);
    hide LargeAt, Merged, Stands, From, To, Placed;
    AllPlaced(cfg, ss, LargeAt(cfg, ss), Merged(cfg, ss));
    PlacesRise(LargeAt(cfg, ss), |ss|, c, e - 1);
  }
}
