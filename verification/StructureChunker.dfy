/** Splitting a document at its headings, anchors or clauses, and packing the sections into
    passages: section objects that later passes extend in place. */
module StructureChunker {
  import opened Prelude
  import CacheKeys

  /** One extracted block of a document. */
  datatype Block = Block(text: string, heading: Option<string>, anchor: Option<string>, pageStart: Option<int>,
                         pageEnd: Option<int>)

  datatype Config = Config(
    minChars: nat, budget: nat, count: string -> nat,
    space: char -> bool, lines: string -> seq<string>, opens: string -> bool)

  /** The fields of a section object at one moment. */
  datatype Fields = Fields(heading: Option<string>, anchor: Option<string>, pageStart: Option<int>,
                           pageEnd: Option<int>, parts: seq<string>)

  class Section {
    var heading: Option<string>
    var anchor: Option<string>
    var pageStart: Option<int>
    var pageEnd: Option<int>
    var parts: seq<string>

    ghost function View(): Fields reads this { Fields(heading, anchor, pageStart, pageEnd, parts) }

    constructor (heading: Option<string>, anchor: Option<string>, pageStart: Option<int>, pageEnd: Option<int>)
      ensures View() == Fields(heading, anchor, pageStart, pageEnd, [])
    {
      this.heading, this.anchor, this.pageStart, this.pageEnd, this.parts := heading, anchor, pageStart, pageEnd, [];
    }
  }

  ghost function Views(ss: seq<Section>): (r: seq<Fields>)
    reads set s | s in ss
    ensures |r| == |ss| && forall i :: 0 <= i < |ss| ==> r[i] == ss[i].View()
  {
    seq(|ss|, i requires 0 <= i < |ss| reads (set s | s in ss) => ss[i].View())
  }

  // ------------------------------------------------------------------ text

  predicate NonEmpty(s: string) { s != "" }

  function JoinLines(parts: seq<string>): string {
    if parts == [] then "" else if |parts| == 1 then parts[0] else parts[0] + "\n" + JoinLines(parts[1..])
  }

  /** Between any two lists of lines stands a line break. */
  lemma {:induction false} JoinLinesConcat(a: seq<string>, b: seq<string>)
    requires a != [] && b != []
    ensures JoinLines(a + b) == JoinLines(a) + "\n" + JoinLines(b) && (|a| == 1 ==> JoinLines(a) == a[0])
  {
    assert (a + b)[1..] == a[1..] + b;
    if |a| > 1 {
      JoinLinesConcat(a[1..], b);
    }
  }

  function Text(cfg: Config, parts: seq<string>): string {
    CacheKeys.Strip(cfg.space, JoinLines(Filter(NonEmpty, parts)))
  }

  /** The characters that are not white space, in order. */
  function Ink(cfg: Config, s: string): string { Filter((c: char) => !cfg.space(c), s) }

  /** Line breaks are white space, and splitting into lines drops nothing else. */
  ghost predicate LinesKeepInk(cfg: Config) {
    cfg.space('\n') && forall s :: Ink(cfg, Flatten(cfg.lines(s))) == Ink(cfg, s)
  }

  lemma InkConcat(cfg: Config, a: string, b: string)
    ensures Ink(cfg, a + b) == Ink(cfg, a) + Ink(cfg, b)
  {
    FilterConcat((c: char) => !cfg.space(c), a, b);
  }

  lemma SpaceHasNoInk(cfg: Config, c: char)
    requires cfg.space(c)
    ensures Ink(cfg, [c]) == ""
  {
    assert [c][1..] == "";
  }

  lemma {:induction false} StripKeepsInk(cfg: Config, s: string)
    ensures Ink(cfg, CacheKeys.Strip(cfg.space, s)) == Ink(cfg, s)
    decreases |s|
  {
    if s != [] {
      var n := |s|;
      if cfg.space(s[0]) {
        assert s == [s[0]] + s[1..];
        InkConcat(cfg, [s[0]], s[1..]);
        SpaceHasNoInk(cfg, s[0]);
        StripKeepsInk(cfg, s[1..]);
      } else if cfg.space(s[n - 1]) {
        assert s == s[..n - 1] + [s[n - 1]];
        InkConcat(cfg, s[..n - 1], [s[n - 1]]);
        SpaceHasNoInk(cfg, s[n - 1]);
        StripKeepsInk(cfg, s[..n - 1]);
      }
    }
  }

  lemma {:induction false} JoinKeepsInk(cfg: Config, parts: seq<string>)
    requires cfg.space('\n')
    ensures Ink(cfg, JoinLines(Filter(NonEmpty, parts))) == Ink(cfg, Flatten(parts))
  {
    if parts != [] {
      JoinKeepsInk(cfg, parts[1..]);
      var p, rest := parts[0], Filter(NonEmpty, parts[1..]);
      InkConcat(cfg, p, Flatten(parts[1..]));
      assert Filter(NonEmpty, parts) == if p != "" then [p] + rest else [] + rest;
      assert [] + rest == rest;
      if p != "" { JoinFirst(cfg, p, rest); }
    }
  }

  lemma JoinFirst(cfg: Config, p: string, rest: seq<string>)
    requires cfg.space('\n')
    ensures Ink(cfg, JoinLines([p] + rest)) == Ink(cfg, p) + Ink(cfg, JoinLines(rest))
  {
    var all := [p] + rest;
    assert all[1..] == rest;
    if rest == [] {
      assert Ink(cfg, JoinLines(rest)) == "";
    } else {
      assert JoinLines(all) == (p + "\n") + JoinLines(rest);
      hide Ink, JoinLines;
      SpaceHasNoInk(cfg, '\n');
      InkConcat(cfg, p + "\n", JoinLines(rest));
      InkConcat(cfg, p, "\n");
      assert Ink(cfg, p) + "" == Ink(cfg, p);
    }
  }

  /** A section's text has exactly the ink of its parts. */
  lemma TextKeepsInk(cfg: Config, parts: seq<string>)
    requires cfg.space('\n')
    ensures Ink(cfg, Text(cfg, parts)) == Ink(cfg, Flatten(parts))
  {
    StripKeepsInk(cfg, JoinLines(Filter(NonEmpty, parts)));
    JoinKeepsInk(cfg, parts);
  }

  function InkOf(cfg: Config, ss: seq<Fields>): string {
    if ss == [] then "" else InkOf(cfg, ss[..|ss| - 1]) + Ink(cfg, Flatten(ss[|ss| - 1].parts))
  }

  function InkOfBlocks(cfg: Config, docs: seq<Block>): string {
    if docs == [] then "" else InkOfBlocks(cfg, docs[..|docs| - 1]) + Ink(cfg, docs[|docs| - 1].text)
  }

  lemma InkOfSnoc(cfg: Config, ss: seq<Fields>, f: Fields)
    ensures InkOf(cfg, ss + [f]) == InkOf(cfg, ss) + Ink(cfg, Flatten(f.parts))
  {
    assert (ss + [f])[..|ss|] == ss;
  }

  // ------------------------------------------------------------------ sectioning

  function LastOf<T>(s: seq<T>): T requires s != [] { s[|s| - 1] }

  function Front<T>(s: seq<T>): seq<T> requires s != [] { s[..|s| - 1] }

  /** Add a line or block to the last section. */
  function Extended(ss: seq<Fields>, text: string, pageEnd: Option<int>): seq<Fields>
    requires ss != []
  {
    Front(ss) + [LastOf(ss).(parts := LastOf(ss).parts + [text], pageEnd := pageEnd)]
  }

  datatype GroupKey = ByHeading | ByAnchor

  function Opened(key: GroupKey, ss: seq<Fields>, d: Block): seq<Fields> {
    match key
    case ByHeading =>
      if ss == [] || LastOf(ss).heading != d.heading
      then ss + [Fields(d.heading, d.anchor, d.pageStart, d.pageEnd, [])] else ss
    case ByAnchor =>
      if ss == [] || LastOf(ss).anchor != d.anchor
      then ss + [Fields(None, d.anchor, d.pageStart, d.pageEnd, [])] else ss
  }

  /** Runs of blocks under one heading, or one anchor. */
  function Grouped(key: GroupKey, docs: seq<Block>): (r: seq<Fields>)
    ensures docs != [] ==> r != []
  {
    if docs == [] then []
    else Extended(Opened(key, Grouped(key, Front(docs)), LastOf(docs)), LastOf(docs).text, LastOf(docs).pageEnd)
  }

  function KeyOf(key: GroupKey, f: Fields): Option<string> {
    match key case ByHeading => f.heading case ByAnchor => f.anchor
  }

  ghost predicate Apart(key: GroupKey, ss: seq<Fields>) {
    forall i, j :: 0 <= i < j < |ss| && j == i + 1 ==> KeyOf(key, ss[i]) != KeyOf(key, ss[j])
  }

  /** Neighbouring sections differ in their heading, or their anchor: no run of blocks is split. */
  lemma {:induction false} GroupedApart(key: GroupKey, docs: seq<Block>)
    ensures Apart(key, Grouped(key, docs))
  {
    if docs != [] {
      var before, d := Grouped(key, Front(docs)), LastOf(docs);
      var ss := Opened(key, before, d);
      GroupedApart(key, Front(docs));
      assert Apart(key, ss);
      var r := Extended(ss, d.text, d.pageEnd);
      assert forall i :: 0 <= i < |r| ==> KeyOf(key, r[i]) == KeyOf(key, ss[i]);
    }
  }

  /** The lines of all blocks, each with the block it came from. */
  function AllLines(cfg: Config, docs: seq<Block>): seq<(string, Block)> {
    if docs == [] then [] else AllLines(cfg, Front(docs)) + Tagged(cfg.lines(LastOf(docs).text), LastOf(docs))
  }

  function Tagged(lines: seq<string>, d: Block): (r: seq<(string, Block)>)
    ensures |r| == |lines| && forall i :: 0 <= i < |r| ==> r[i] == (lines[i], d)
  {
    seq(|lines|, i requires 0 <= i < |lines| => (lines[i], d))
  }

  function OpenedAt(cfg: Config, ss: seq<Fields>, line: string, d: Block): seq<Fields> {
    if cfg.opens(line) then ss + [Fields(Some(CacheKeys.Strip(cfg.space, line)), d.anchor, d.pageStart, d.pageEnd, [])]
    else if ss == [] then [Fields(None, d.anchor, d.pageStart, d.pageEnd, [])]
    else ss
  }

  /** A section starts at every line that opens a clause. */
  function Clauses(cfg: Config, lines: seq<(string, Block)>): (r: seq<Fields>)
    ensures lines != [] ==> r != []
  {
    if lines == [] then []
    else Extended(OpenedAt(cfg, Clauses(cfg, Front(lines)), LastOf(lines).0, LastOf(lines).1), LastOf(lines).0,
                  LastOf(lines).1.pageEnd)
  }

  lemma ExtendedInk(cfg: Config, ss: seq<Fields>, text: string, pageEnd: Option<int>)
    requires ss != []
    ensures InkOf(cfg, Extended(ss, text, pageEnd)) == InkOf(cfg, ss) + Ink(cfg, text)
  {
    var l := LastOf(ss);
    FlattenSnoc(l.parts, text);
    InkConcat(cfg, Flatten(l.parts), text);
    InkOfSnoc(cfg, Front(ss), l.(parts := l.parts + [text], pageEnd := pageEnd));
  }

  lemma {:induction false} GroupedInk(cfg: Config, key: GroupKey, docs: seq<Block>)
    ensures InkOf(cfg, Grouped(key, docs)) == InkOfBlocks(cfg, docs)
  {
    if docs != [] {
      var ss, d := Grouped(key, Front(docs)), LastOf(docs);
      GroupedInk(cfg, key, Front(docs));
      InkOfSnoc(cfg, ss, Fields(if key.ByHeading? then d.heading else None, d.anchor, d.pageStart, d.pageEnd, []));
      ExtendedInk(cfg, Opened(key, ss, d), d.text, d.pageEnd);
    }
  }

  function InkOfLines(cfg: Config, lines: seq<(string, Block)>): string {
    if lines == [] then "" else InkOfLines(cfg, Front(lines)) + Ink(cfg, LastOf(lines).0)
  }

  lemma {:induction false} ClausesInk(cfg: Config, lines: seq<(string, Block)>)
    ensures InkOf(cfg, Clauses(cfg, lines)) == InkOfLines(cfg, lines)
  {
    if lines != [] {
      var ss, line, d := Clauses(cfg, Front(lines)), LastOf(lines).0, LastOf(lines).1;
      ClausesInk(cfg, Front(lines));
      InkOfSnoc(cfg, ss, Fields(Some(CacheKeys.Strip(cfg.space, line)), d.anchor, d.pageStart, d.pageEnd, []));
      InkOfSnoc(cfg, [], Fields(None, d.anchor, d.pageStart, d.pageEnd, []));
      assert [] + [Fields(None, d.anchor, d.pageStart, d.pageEnd, [])] ==
             [Fields(None, d.anchor, d.pageStart, d.pageEnd, [])];
      ExtendedInk(cfg, OpenedAt(cfg, ss, line, d), line, d.pageEnd);
    }
  }

  lemma InkOfLinesSnoc(cfg: Config, lines: seq<(string, Block)>, l: (string, Block))
    ensures InkOfLines(cfg, lines + [l]) == InkOfLines(cfg, lines) + Ink(cfg, l.0)
  {
    assert Front(lines + [l]) == lines;
  }

  lemma TaggedSnoc(lines: seq<string>, n: nat, d: Block)
    requires n + 1 == |lines|
    ensures lines == lines[..n] + [lines[n]] && Tagged(lines, d) == Tagged(lines[..n], d) + [(lines[n], d)]
  {
  }

  lemma {:induction false} TaggedInk(cfg: Config, before: seq<(string, Block)>, lines: seq<string>, d: Block)
    ensures InkOfLines(cfg, before + Tagged(lines, d)) == InkOfLines(cfg, before) + Ink(cfg, Flatten(lines))
  {
    if lines == [] {
      assert before + Tagged(lines, d) == before;
    } else {
      hide *;
      var n := |lines| - 1;
      TaggedInk(cfg, before, lines[..n], d);
      TaggedSnoc(lines, n, d);
      Associative(before, Tagged(lines[..n], d), [(lines[n], d)]);
      InkOfLinesSnoc(cfg, before + Tagged(lines[..n], d), (lines[n], d));
      FlattenSnoc(lines[..n], lines[n]);
      InkConcat(cfg, Flatten(lines[..n]), lines[n]);
      Associative(InkOfLines(cfg, before), Ink(cfg, Flatten(lines[..n])), Ink(cfg, lines[n]));
    }
  }

  lemma {:induction false} AllLinesInk(cfg: Config, docs: seq<Block>)
    requires LinesKeepInk(cfg)
    ensures InkOfLines(cfg, AllLines(cfg, docs)) == InkOfBlocks(cfg, docs)
  {
    if docs != [] {
      AllLinesInk(cfg, Front(docs));
      TaggedInk(cfg, AllLines(cfg, Front(docs)), cfg.lines(LastOf(docs).text), LastOf(docs));
    }
  }

  // ------------------------------------------------------------------ merging small sections forward

  datatype Merging = Merging(merged: seq<Fields>, carry: seq<string>)

  predicate Small(cfg: Config, f: Fields) { |Text(cfg, f.parts)| < cfg.minChars }

  /** Small sections wait and are put in front of the next large one. */
  function MergeUpTo(cfg: Config, ss: seq<Fields>): Merging {
    if ss == [] then Merging([], [])
    else
      var m, f := MergeUpTo(cfg, Front(ss)), LastOf(ss);
      if Small(cfg, f) then m.(carry := m.carry + [Text(cfg, f.parts)])
      else Merging(m.merged + [f.(parts := m.carry + f.parts)], [])
  }

  /** What still waits at the end goes behind the last large one, or becomes a section itself. */
  function Merged(cfg: Config, ss: seq<Fields>): seq<Fields> {
    var m := MergeUpTo(cfg, ss);
    if m.carry == [] then m.merged
    else if m.merged != [] then Front(m.merged) + [LastOf(m.merged).(parts := LastOf(m.merged).parts + m.carry)]
    else if ss != [] then [LastOf(ss).(parts := m.carry)]
    else []
  }

  lemma {:induction false} MergeUpToInk(cfg: Config, ss: seq<Fields>)
    requires cfg.space('\n')
    ensures var m := MergeUpTo(cfg, ss);
            InkOf(cfg, m.merged) + Ink(cfg, Flatten(m.carry)) == InkOf(cfg, ss)
    ensures ss == [] ==> MergeUpTo(cfg, ss).carry == []
  {
    if ss != [] {
      var m, f := MergeUpTo(cfg, Front(ss)), LastOf(ss);
      MergeUpToInk(cfg, Front(ss));
      TextKeepsInk(cfg, f.parts);
      FlattenSnoc(m.carry, Text(cfg, f.parts));
      InkConcat(cfg, Flatten(m.carry), Text(cfg, f.parts));
      FlattenConcat(m.carry, f.parts);
      InkConcat(cfg, Flatten(m.carry), Flatten(f.parts));
      InkOfSnoc(cfg, m.merged, f.(parts := m.carry + f.parts));
      hide Ink, Text, Flatten;
    }
  }

  predicate IsLarge(cfg: Config, f: Fields) { !Small(cfg, f) }

  function Large(cfg: Config, ss: seq<Fields>): seq<Fields> { Filter((f: Fields) => IsLarge(cfg, f), ss) }

  /** The same section with texts put in front of its own. */
  predicate Fronted(f: Fields, own: Fields) {
    && f.(parts := own.parts) == own
    && |own.parts| <= |f.parts| && f.parts[|f.parts| - |own.parts|..] == own.parts
  }

  /** Merging forward keeps exactly the large sections, in order, each with its own heading, anchor,
      pages and parts behind whatever was carried to it. */
  lemma MergeKeepsLarge(cfg: Config, ss: seq<Fields>)
    ensures var m, large := MergeUpTo(cfg, ss).merged, Large(cfg, ss);
            |m| == |large| && forall i :: 0 <= i < |m| ==> Fronted(m[i], large[i])
    ensures forall f :: f in Large(cfg, ss) <==> f in ss && |Text(cfg, f.parts)| >= cfg.minChars
  {
    MergeFronts(cfg, ss);
    hide MergeUpTo, Text;
  }

  lemma {:induction false} MergeFronts(cfg: Config, ss: seq<Fields>)
    ensures var m, large := MergeUpTo(cfg, ss).merged, Large(cfg, ss);
            |m| == |large| && forall i :: 0 <= i < |m| ==> Fronted(m[i], large[i])
  {
    if ss != [] {
      hide Large, Small, Text, Filter, Fronted;
      var m, f := MergeUpTo(cfg, Front(ss)), LastOf(ss);
      MergeFronts(cfg, Front(ss));
      LargeNext(cfg, ss);
      CarriedFronts(f, m.carry);
      assert MergeUpTo(cfg, ss).merged
          == if Small(cfg, f) then m.merged else m.merged + [f.(parts := m.carry + f.parts)];
      hide MergeUpTo;
    }
  }

  lemma CarriedFronts(f: Fields, carry: seq<string>)
    ensures Fronted(f.(parts := carry + f.parts), f)
  {
  }

  lemma LargeNext(cfg: Config, ss: seq<Fields>)
    requires ss != []
    ensures Large(cfg, ss) == if Small(cfg, LastOf(ss)) then Large(cfg, Front(ss))
            else Large(cfg, Front(ss)) + [LastOf(ss)]
  {
    var f := LastOf(ss);
    assert ss == Front(ss) + [f];
    FilterConcat((g: Fields) => IsLarge(cfg, g), Front(ss), [f]);
    hide Small;
    assert [f][1..] == [];
  }

  /** Merging loses and reorders nothing. */
  lemma MergedInk(cfg: Config, ss: seq<Fields>)
    requires cfg.space('\n')
    ensures InkOf(cfg, Merged(cfg, ss)) == InkOf(cfg, ss)
  {
    var m := MergeUpTo(cfg, ss);
    MergeUpToInk(cfg, ss);
    if m.carry == [] {
      assert Flatten(m.carry) == "" && Ink(cfg, "") == "";
    } else if m.merged != [] {
      LeftoverInk(cfg, m.merged, m.carry);
    } else {
      InkOfSnoc(cfg, [], LastOf(ss).(parts := m.carry));
      assert [] + [LastOf(ss).(parts := m.carry)] == [LastOf(ss).(parts := m.carry)];
    }
  }

  lemma LeftoverInk(cfg: Config, merged: seq<Fields>, carry: seq<string>)
    requires merged != []
    ensures var l := LastOf(merged);
            InkOf(cfg, Front(merged) + [l.(parts := l.parts + carry)]) == InkOf(cfg, merged) + Ink(cfg, Flatten(carry))
  {
    var l := LastOf(merged);
    FlattenConcat(l.parts, carry);
    InkConcat(cfg, Flatten(l.parts), Flatten(carry));
    InkOfSnoc(cfg, Front(merged), l.(parts := l.parts + carry));
    hide Ink, Flatten;
  }

  // ------------------------------------------------------------------ packing

  function Or(a: Option<string>, b: Option<string>): Option<string> {
    if a.Some? && a.value != "" then a else b
  }

  function Join(a: Fields, b: Fields): Fields {
    Fields(Or(a.heading, b.heading), Or(a.anchor, b.anchor), a.pageStart, b.pageEnd, a.parts + b.parts)
  }

  predicate Fits(cfg: Config, a: Fields, b: Fields) {
    cfg.count(Text(cfg, a.parts)) + cfg.count(Text(cfg, b.parts)) <= cfg.budget
  }

  function Packed(cfg: Config, ss: seq<Fields>): (r: seq<Fields>)
    ensures ss != [] ==> r != []
  {
    if ss == [] then []
    else
      var p, f := Packed(cfg, Front(ss)), LastOf(ss);
      if p != [] && Fits(cfg, LastOf(p), f) then Front(p) + [Join(LastOf(p), f)] else p + [f]
  }

  lemma {:induction false} PackedInk(cfg: Config, ss: seq<Fields>)
    ensures InkOf(cfg, Packed(cfg, ss)) == InkOf(cfg, ss)
  {
    if ss != [] {
      var p, f := Packed(cfg, Front(ss)), LastOf(ss);
      PackedInk(cfg, Front(ss));
      InkOfSnoc(cfg, p, f);
      if p != [] {
        var l := LastOf(p);
        FlattenConcat(l.parts, f.parts);
        InkConcat(cfg, Flatten(l.parts), Flatten(f.parts));
        InkOfSnoc(cfg, Front(p), Join(l, f));
      }
      hide Ink, Flatten, Fits;
    }
  }

  /** Consecutive sections joined from the left. */
  function JoinAll(ss: seq<Fields>): Fields
    requires ss != []
  {
    if |ss| == 1 then ss[0] else Join(JoinAll(Front(ss)), LastOf(ss))
  }

  /** Where group `i` ends. */
  function End(cuts: seq<nat>, n: nat, i: nat): nat
    requires i < |cuts|
  {
    if i + 1 < |cuts| then cuts[i + 1] else n
  }

  /** Packed section `i` is its group joined; within it every section fitted what was joined before
      it, and its first section did not fit the packed section before. */
  ghost predicate IsGroup(cfg: Config, ss: seq<Fields>, packed: seq<Fields>, cuts: seq<nat>, i: nat)
    requires i < |cuts| == |packed|
  {
    && cuts[i] < End(cuts, |ss|, i) <= |ss|
    && packed[i] == JoinAll(ss[cuts[i]..End(cuts, |ss|, i)])
    && (forall j :: cuts[i] < j < End(cuts, |ss|, i) ==>
          Tokens(cfg, JoinAll(ss[cuts[i]..j])) + Tokens(cfg, ss[j]) <= cfg.budget)
    && (i > 0 ==> Tokens(cfg, packed[i - 1]) + Tokens(cfg, ss[cuts[i]]) > cfg.budget)
  }

  function Tokens(cfg: Config, f: Fields): nat { cfg.count(Text(cfg, f.parts)) }

  /** The groups cover all sections in order. */
  ghost predicate IsPacking(cfg: Config, ss: seq<Fields>, packed: seq<Fields>, cuts: seq<nat>) {
    && |cuts| == |packed| && (ss == [] ==> cuts == []) && (ss != [] ==> cuts != [] && cuts[0] == 0)
    && forall i :: 0 <= i < |cuts| ==> IsGroup(cfg, ss, packed, cuts, i)
  }

  lemma {:induction false} PackedIsPacking(cfg: Config, ss: seq<Fields>) returns (cuts: seq<nat>)
    ensures IsPacking(cfg, ss, Packed(cfg, ss), cuts)
  {
    if ss == [] {
      cuts := [];
    } else {
      var before := PackedIsPacking(cfg, Front(ss));
      var p, f := Packed(cfg, Front(ss)), LastOf(ss);
      if p != [] && Fits(cfg, LastOf(p), f) {
        cuts := before;
        PackingExtends(cfg, ss, p, cuts);
      } else {
        cuts := before + [|ss| - 1];
        PackingCuts(cfg, ss, p, before);
      }
    }
  }

  /** Appending a section leaves every group but possibly the last as it was. */
  lemma GroupStays(cfg: Config, ss: seq<Fields>, p: seq<Fields>, cuts: seq<nat>, p': seq<Fields>, cuts': seq<nat>,
                   i: nat)
    requires ss != [] && i < |cuts| == |p| && IsGroup(cfg, Front(ss), p, cuts, i)
    requires i < |cuts'| == |p'| && cuts'[i] == cuts[i] && End(cuts', |ss|, i) == End(cuts, |ss| - 1, i)
    requires p'[i] == p[i] && (i > 0 ==> p'[i - 1] == p[i - 1])
    ensures IsGroup(cfg, ss, p', cuts', i)
  {
    hide Tokens, JoinAll;
    var e := End(cuts, |ss| - 1, i);
    assert Front(ss)[cuts[i]..e] == ss[cuts[i]..e];
    assert Front(ss)[cuts[i]] == ss[cuts[i]];
    forall j | cuts[i] < j < e ensures Tokens(cfg, JoinAll(ss[cuts[i]..j])) + Tokens(cfg, ss[j]) <= cfg.budget {
      assert Front(ss)[cuts[i]..j] == ss[cuts[i]..j] && Front(ss)[j] == ss[j];
    }
  }

  lemma LastGroupGrows(cfg: Config, ss: seq<Fields>, p: seq<Fields>, cuts: seq<nat>)
    requires ss != [] && p != [] && |cuts| == |p| && IsGroup(cfg, Front(ss), p, cuts, |p| - 1)
    requires Fits(cfg, LastOf(p), LastOf(ss))
    ensures IsGroup(cfg, ss, Front(p) + [Join(LastOf(p), LastOf(ss))], cuts, |p| - 1)
  {
    hide Text, JoinAll, Join;
    var n, i, c := |ss| - 1, |p| - 1, cuts[|p| - 1];
    GroupSlice(cfg, Front(ss), p, cuts, i);
    assert Front(ss)[c..n] == ss[c..n] && Front(ss)[c] == ss[c];
    LastJoins(ss, c);
    LastFits(cfg, ss, c, LastOf(p));
  }

  lemma GroupSlice(cfg: Config, ss: seq<Fields>, p: seq<Fields>, cuts: seq<nat>, i: nat)
    requires i + 1 == |cuts| == |p| && IsGroup(cfg, ss, p, cuts, i)
    ensures cuts[i] < |ss| && p[i] == JoinAll(ss[cuts[i]..|ss|]) && (i > 0 ==> !Fits(cfg, p[i - 1], ss[cuts[i]]))
    ensures forall j :: cuts[i] < j < |ss| ==> Fits(cfg, JoinAll(ss[cuts[i]..j]), ss[j])
  {
  }

  lemma LastFits(cfg: Config, ss: seq<Fields>, c: nat, last: Fields)
    requires c < |ss| - 1 && last == JoinAll(ss[c..|ss| - 1]) && Fits(cfg, last, LastOf(ss))
    requires forall j :: c < j < |ss| - 1 ==> Fits(cfg, JoinAll(Front(ss)[c..j]), Front(ss)[j])
    ensures forall j :: c < j < |ss| ==> Fits(cfg, JoinAll(ss[c..j]), ss[j])
  {
    hide Fits, JoinAll;
    forall j | c < j < |ss| ensures Fits(cfg, JoinAll(ss[c..j]), ss[j]) {
      if j < |ss| - 1 { assert Front(ss)[c..j] == ss[c..j] && Front(ss)[j] == ss[j]; }
    }
  }

  lemma LastJoins(ss: seq<Fields>, c: nat)
    requires c < |ss| - 1
    ensures JoinAll(ss[c..|ss|]) == Join(JoinAll(ss[c..|ss| - 1]), LastOf(ss))
  {
    assert Front(ss[c..|ss|]) == ss[c..|ss| - 1] && LastOf(ss[c..|ss|]) == LastOf(ss);
  }

  lemma PackingExtends(cfg: Config, ss: seq<Fields>, p: seq<Fields>, cuts: seq<nat>)
    requires ss != [] && IsPacking(cfg, Front(ss), p, cuts) && p != [] && Fits(cfg, LastOf(p), LastOf(ss))
    ensures IsPacking(cfg, ss, Front(p) + [Join(LastOf(p), LastOf(ss))], cuts)
  {
    var packed := Front(p) + [Join(LastOf(p), LastOf(ss))];
    hide IsGroup, Fits, Join;
    forall i | 0 <= i < |cuts| ensures IsGroup(cfg, ss, packed, cuts, i) {
      if i < |cuts| - 1 {
        GroupStays(cfg, ss, p, cuts, packed, cuts, i);
      } else {
        LastGroupGrows(cfg, ss, p, cuts);
      }
    }
  }

  lemma LastGroupStarts(cfg: Config, ss: seq<Fields>, p: seq<Fields>, before: seq<nat>)
    requires ss != [] && |before| == |p| && (p != [] ==> !Fits(cfg, LastOf(p), LastOf(ss)))
    ensures IsGroup(cfg, ss, p + [LastOf(ss)], before + [|ss| - 1], |p|)
  {
    assert ss[|ss| - 1..|ss|] == [LastOf(ss)];
  }

  lemma PackingCuts(cfg: Config, ss: seq<Fields>, p: seq<Fields>, before: seq<nat>)
    requires ss != [] && IsPacking(cfg, Front(ss), p, before) && (p != [] ==> !Fits(cfg, LastOf(p), LastOf(ss)))
    ensures IsPacking(cfg, ss, p + [LastOf(ss)], before + [|ss| - 1])
  {
    var cuts, packed := before + [|ss| - 1], p + [LastOf(ss)];
    LastGroupStarts(cfg, ss, p, before);
    hide IsGroup, Fits;
    forall i | 0 <= i < |cuts| ensures IsGroup(cfg, ss, packed, cuts, i) {
      if i < |before| {
        GroupStays(cfg, ss, p, before, packed, cuts, i);
      }
    }
  }

  /** A packed section spans from its first section's first page to its last section's last page. */
  lemma {:induction false} JoinAllPages(ss: seq<Fields>)
    requires ss != []
    ensures JoinAll(ss).pageStart == ss[0].pageStart && JoinAll(ss).pageEnd == LastOf(ss).pageEnd
  {
    if |ss| > 1 { JoinAllPages(Front(ss)); }
  }

  /** A packed section has the parts of all its sections, in order. */
  lemma {:induction false} JoinAllParts(ss: seq<Fields>)
    requires ss != []
    ensures JoinAll(ss).parts == Flatten(seq(|ss|, i requires 0 <= i < |ss| => ss[i].parts))
  {
    var parts := seq(|ss|, i requires 0 <= i < |ss| => ss[i].parts);
    if |ss| == 1 {
      assert parts == [] + [ss[0].parts];
      FlattenSnoc([], ss[0].parts);
    } else {
      var front := seq(|ss| - 1, i requires 0 <= i < |ss| - 1 => Front(ss)[i].parts);
      assert parts == front + [LastOf(ss).parts];
      JoinAllParts(Front(ss));
      FlattenSnoc(front, LastOf(ss).parts);
    }
  }

  ghost predicate Names(name: Option<string>) { name.Some? && name.value != "" }

  /** It is named after the first of them that has a name, and likewise anchored. */
  lemma {:induction false} JoinAllNames(ss: seq<Fields>, i: nat)
    requires i < |ss|
    ensures Names(ss[i].heading) && (forall j :: 0 <= j < i ==> !Names(ss[j].heading)) ==>
              JoinAll(ss).heading == ss[i].heading
    ensures Names(ss[i].anchor) && (forall j :: 0 <= j < i ==> !Names(ss[j].anchor)) ==>
              JoinAll(ss).anchor == ss[i].anchor
    ensures (forall j :: 0 <= j < |ss| ==> !Names(ss[j].heading)) ==> !Names(JoinAll(ss).heading)
    ensures (forall j :: 0 <= j < |ss| ==> !Names(ss[j].anchor)) ==> !Names(JoinAll(ss).anchor)
  {
    if |ss| > 1 {
      var front := Front(ss);
      assert forall j :: 0 <= j < |front| ==> front[j] == ss[j];
      JoinAllNames(front, if i < |front| then i else 0);
    }
  }

  // ------------------------------------------------------------------ the passes over objects

  ghost predicate Separate(ss: seq<Section>) {
    forall i, j :: 0 <= i < j < |ss| ==> ss[i] != ss[j]
  }

  method Start(ss: seq<Section>, heading: Option<string>, anchor: Option<string>, pageStart: Option<int>,
               pageEnd: Option<int>)
    returns (r: seq<Section>)
    requires Separate(ss)
    ensures Separate(r) && |r| == |ss| + 1 && r[..|ss|] == ss && fresh(r[|ss|])
    ensures Views(r) == Views(ss) + [Fields(heading, anchor, pageStart, pageEnd, [])]
  {
    hide Views;
    var s := new Section(heading, anchor, pageStart, pageEnd);
    r := ss + [s];
  }

  method Extend(ss: seq<Section>, text: string, pageEnd: Option<int>)
    requires Separate(ss) && ss != []
    modifies ss[|ss| - 1]
    ensures Views(ss) == Extended(old(Views(ss)), text, pageEnd)
  {
    hide Views;
    var last := ss[|ss| - 1];
    last.parts, last.pageEnd := last.parts + [text], pageEnd;
  }

  /** Add a block to the last section, or to a new one when its heading or anchor differs. */
  method AddBlock(key: GroupKey, ss: seq<Section>, d: Block) returns (r: seq<Section>)
    requires Separate(ss)
    modifies set s | s in ss
    ensures Separate(r) && (forall s :: s in r ==> s in ss || fresh(s))
    ensures Opened(key, old(Views(ss)), d) != []
    ensures Views(r) == Extended(Opened(key, old(Views(ss)), d), d.text, d.pageEnd)
  {
    hide Views, Extended;
    r := ss;
    if key.ByHeading? {
      if ss == [] || ss[|ss| - 1].heading != d.heading {
        r := Start(ss, d.heading, d.anchor, d.pageStart, d.pageEnd);
      }
    } else if ss == [] || ss[|ss| - 1].anchor != d.anchor {
      r := Start(ss, None, d.anchor, d.pageStart, d.pageEnd);
    }
    assert forall s :: s in r ==> s in ss || s == r[|r| - 1];
    assert r[|r| - 1] in r;
    Extend(r, d.text, d.pageEnd);
  }

  method GroupBy(key: GroupKey, docs: seq<Block>) returns (sections: seq<Section>)
    ensures Separate(sections) && fresh(set s | s in sections)
    ensures Views(sections) == Grouped(key, docs)
  {
    hide Views, Extended, Opened;
    sections := [];
    assert docs[..0] == [];
    for n := 0 to |docs|
      invariant Separate(sections) && fresh(set s | s in sections)
      invariant Views(sections) == Grouped(key, docs[..n])
    {
      GroupedNext(key, docs, n);
      sections := AddBlock(key, sections, docs[n]);
    }
    assert docs[..|docs|] == docs;
  }

  lemma GroupedNext(key: GroupKey, docs: seq<Block>, n: nat)
    requires n < |docs|
    ensures Opened(key, Grouped(key, docs[..n]), docs[n]) != []
    ensures Grouped(key, docs[..n + 1]) ==
            Extended(Opened(key, Grouped(key, docs[..n]), docs[n]), docs[n].text, docs[n].pageEnd)
  {
    assert Front(docs[..n + 1]) == docs[..n];
  }

  method GroupByClause(cfg: Config, docs: seq<Block>) returns (sections: seq<Section>)
    ensures Separate(sections) && fresh(set s | s in sections)
    ensures Views(sections) == Clauses(cfg, AllLines(cfg, docs))
  {
    hide Views;
    sections := [];
    assert docs[..0] == [];
    for n := 0 to |docs|
      invariant Separate(sections) && fresh(set s | s in sections)
      invariant Views(sections) == Clauses(cfg, AllLines(cfg, docs[..n]))
    {
      assert Front(docs[..n + 1]) == docs[..n];
      assert AllLines(cfg, docs[..n + 1]) == AllLines(cfg, docs[..n]) + Tagged(cfg.lines(docs[n].text), docs[n]);
      hide Clauses, AllLines, Tagged, Front;
      sections := ScanBlock(cfg, sections, AllLines(cfg, docs[..n]), docs[n]);
    }
    assert docs[..|docs|] == docs;
  }

  /** The lines of one block. */
  method ScanBlock(cfg: Config, sections: seq<Section>, ghost before: seq<(string, Block)>, d: Block)
    returns (r: seq<Section>)
    requires Separate(sections) && Views(sections) == Clauses(cfg, before)
    modifies set s | s in sections
    ensures Separate(r) && (forall s :: s in r ==> s in sections || fresh(s))
    ensures Views(r) == Clauses(cfg, before + Tagged(cfg.lines(d.text), d))
  {
    hide Views;
    var lines := cfg.lines(d.text);
    r := sections;
    assert before + Tagged(lines[..0], d) == before;
    hide Clauses, Extended, OpenedAt, CacheKeys.Strip;
    for i := 0 to |lines|
      invariant Separate(r) && (forall s :: s in r ==> s in sections || fresh(s))
      invariant Views(r) == Clauses(cfg, before + Tagged(lines[..i], d))
    {
      ClausesNext(cfg, before, lines, i, d);
      r := OpenAt(cfg, r, lines[i], d);
      assert r[|r| - 1] in r;
      Extend(r, lines[i], d.pageEnd);
    }
    assert lines[..|lines|] == lines;
  }

  method OpenAt(cfg: Config, ss: seq<Section>, line: string, d: Block) returns (r: seq<Section>)
    requires Separate(ss)
    ensures Separate(r) && r != [] && (forall s :: s in r ==> s in ss || fresh(s))
    ensures Views(r) == OpenedAt(cfg, Views(ss), line, d)
  {
    hide Views;
    r := ss;
    if cfg.opens(line) {
      r := Start(ss, Some(CacheKeys.Strip(cfg.space, line)), d.anchor, d.pageStart, d.pageEnd);
    } else if ss == [] {
      r := Start(ss, None, d.anchor, d.pageStart, d.pageEnd);
    }
    assert forall s :: s in r ==> s in ss || s == r[|r| - 1];
  }

  lemma ClausesNext(cfg: Config, before: seq<(string, Block)>, lines: seq<string>, i: nat, d: Block)
    requires i < |lines|
    ensures var ss := Clauses(cfg, before + Tagged(lines[..i], d));
            && OpenedAt(cfg, ss, lines[i], d) != []
            && Clauses(cfg, before + Tagged(lines[..i + 1], d)) ==
                Extended(OpenedAt(cfg, ss, lines[i], d), lines[i], d.pageEnd)
  {
    var all := before + Tagged(lines[..i + 1], d);
    assert Front(all) == before + Tagged(lines[..i], d) && LastOf(all) == (lines[i], d);
  }

  /** The sections from `n` on still look as they did. */
  ghost predicate Untouched(ss: seq<Section>, views: seq<Fields>, n: nat)
    reads set s | s in ss
  {
    |views| == |ss| && forall i :: n <= i < |ss| ==> ss[i].View() == views[i]
  }

  /** `part` lists objects among the first `n` of `ss`, each once. */
  ghost predicate Among(part: seq<Section>, ss: seq<Section>, n: nat) {
    Separate(part) && n <= |ss| && forall s :: s in part ==> exists i :: 0 <= i < n && ss[i] == s
  }

  lemma AmongNext(part: seq<Section>, ss: seq<Section>, n: nat)
    requires Separate(ss) && Among(part, ss, n) && n < |ss|
    ensures Separate(part) && Among(part, ss, n + 1) && Among(part + [ss[n]], ss, n + 1)
    ensures ss[n] !in part && (part != [] ==> part[|part| - 1] in part && part[|part| - 1] in ss)
    ensures forall s, i :: s in part && n <= i < |ss| ==> ss[i] != s
    ensures forall i :: 0 <= i < |ss| && i != n ==> ss[i] != ss[n]
  {
    assert ss[n] !in part;
    forall s | s in part + [ss[n]] ensures exists i :: 0 <= i < n + 1 && ss[i] == s {
      if s in part {
        var i :| 0 <= i < n && ss[i] == s;
      }
    }
  }

  lemma AmongAll(part: seq<Section>, ss: seq<Section>, n: nat)
    requires Among(part, ss, n)
    ensures Separate(part) && forall s :: s in part ==> s in ss
  {
  }

  /** Put the waiting texts in front of a section's own. */
  method PutInFront(carry: seq<string>, sec: Section)
    modifies sec`parts
    ensures sec.View() == old(sec.View()).(parts := carry + old(sec.parts))
  {
    hide Views;
    if carry != [] {
      sec.parts := carry + sec.parts;
    } else {
      assert carry + sec.parts == sec.parts;
    }
  }

  lemma MergeNext(cfg: Config, views: seq<Fields>, n: nat)
    requires n < |views|
    ensures var m, f := MergeUpTo(cfg, views[..n]), views[n];
            MergeUpTo(cfg, views[..n + 1]) ==
            if Small(cfg, f) then m.(carry := m.carry + [Text(cfg, f.parts)])
            else Merging(m.merged + [f.(parts := m.carry + f.parts)], [])
  {
    assert Front(views[..n + 1]) == views[..n] && LastOf(views[..n + 1]) == views[n];
  }

  /** One pass over the sections; small ones leave their text waiting. */
  method MergeLarge(cfg: Config, sections: seq<Section>) returns (merged: seq<Section>, carry: seq<string>)
    requires Separate(sections)
    modifies set s | s in sections
    ensures Among(merged, sections, |sections|) && (merged == [] ==> Views(sections) == old(Views(sections)))
    ensures Merging(Views(merged), carry) == MergeUpTo(cfg, old(Views(sections)))
  {
    hide Views;
    hide MergeUpTo, Text, Small, Among, Separate;
    merged, carry := [], [];
    ghost var views := Views(sections);
    assert views[..0] == [];
    NothingMerged(cfg, sections);
    for n := 0 to |sections|
      invariant Among(merged, sections, n) && Untouched(sections, views, if merged == [] then 0 else n)
      invariant Merging(Views(merged), carry) == MergeUpTo(cfg, views[..n])
    {
      MergeNext(cfg, views, n);
      AmongNext(merged, sections, n);
      merged, carry := MergeOne(cfg, merged, carry, sections[n]);
    }
    assert views[..|sections|] == views;
  }

  lemma NothingMerged(cfg: Config, sections: seq<Section>)
    ensures Among([], sections, 0) && MergeUpTo(cfg, []) == Merging([], [])
  {
  }

  /** Let a small section's text wait, or give a large section the texts that wait. */
  method MergeOne(cfg: Config, merged: seq<Section>, carry: seq<string>, sec: Section)
    returns (merged': seq<Section>, carry': seq<string>)
    requires Separate(merged) && sec !in merged
    modifies sec`parts
    ensures var f := old(sec.View());
            if Small(cfg, f) then merged' == merged && carry' == carry + [Text(cfg, f.parts)] && sec.View() == f
            else merged' == merged + [sec] && carry' == [] && sec.View() == f.(parts := carry + f.parts)
    ensures Views(merged) == old(Views(merged))
    ensures var f := old(sec.View());
            Views(merged') == if Small(cfg, f) then old(Views(merged))
                else old(Views(merged)) + [f.(parts := carry + f.parts)]
  {
    hide Views;
    merged', carry' := merged, carry;
    if |Text(cfg, sec.parts)| < cfg.minChars {
      carry' := carry + [Text(cfg, sec.parts)];
    } else {
      PutInFront(carry, sec);
      merged', carry' := merged + [sec], [];
    }
  }

  method MergeForward(cfg: Config, sections: seq<Section>) returns (merged: seq<Section>)
    requires Separate(sections)
    modifies set s | s in sections
    ensures Separate(merged) && (forall s :: s in merged ==> s in sections || fresh(s))
    ensures Views(merged) == Merged(cfg, old(Views(sections)))
  {
    hide Views;
    var carry;
    merged, carry := MergeLarge(cfg, sections);
    AmongAll(merged, sections, |sections|);
    hide MergeUpTo, Among, Separate;
    assert merged != [] ==> merged[|merged| - 1] in merged;
    merged := PutBehind(sections, merged, carry);
  }

  /** What still waits goes behind the last merged section, or becomes one. */
  method PutBehind(sections: seq<Section>, merged: seq<Section>, carry: seq<string>) returns (r: seq<Section>)
    requires Separate(sections) && Among(merged, sections, |sections|)
    modifies if carry != [] && merged != [] then {merged[|merged| - 1]} else {}
    ensures Separate(r) && (forall s :: s in r ==> s in sections || fresh(s))
    ensures Views(r) ==
            if carry == [] then old(Views(merged))
            else if merged != [] then
              Front(old(Views(merged)))
              + [LastOf(old(Views(merged))).(parts := LastOf(old(Views(merged))).parts + carry)]
            else if sections != [] then [LastOf(old(Views(sections))).(parts := carry)]
            else []
  {
    hide Views;
    r := merged;
    if carry != [] {
      if merged != [] {
        var last := merged[|merged| - 1];
        last.parts := last.parts + carry;
      } else if sections != [] {
        var last := sections[|sections| - 1];
        var fallback := new Section(last.heading, last.anchor, last.pageStart, last.pageEnd);
        fallback.parts := carry;
        r := [fallback];
      }
    }
  }

  /** Join a section onto the last packed one. */
  method JoinInto(packed: seq<Section>, sec: Section)
    requires packed != [] && Separate(packed) && sec !in packed
    modifies packed[|packed| - 1]
    ensures Views(packed) == Front(old(Views(packed))) + [Join(LastOf(old(Views(packed))), sec.View())]
  {
    hide Views;
    var prev := packed[|packed| - 1];
    assert prev in packed;
    prev.parts := prev.parts + sec.parts;
    prev.pageEnd := sec.pageEnd;
    prev.heading := Or(prev.heading, sec.heading);
    prev.anchor := Or(prev.anchor, sec.anchor);
  }

  lemma PackedNext(cfg: Config, views: seq<Fields>, n: nat)
    requires n < |views|
    ensures var p := Packed(cfg, views[..n]);
            Packed(cfg, views[..n + 1]) ==
            if p != [] && Fits(cfg, LastOf(p), views[n]) then Front(p) + [Join(LastOf(p), views[n])] else p + [views[n]]
  {
    assert Front(views[..n + 1]) == views[..n] && LastOf(views[..n + 1]) == views[n];
  }

  /** Join the next section onto the last packed one if both fit the budget, else start a new one. */
  method PackOne(cfg: Config, packed: seq<Section>, sec: Section) returns (r: seq<Section>)
    requires Separate(packed) && sec !in packed
    modifies if packed != [] then {packed[|packed| - 1]} else {}
    ensures r == packed || r == packed + [sec]
    ensures var p, f := old(Views(packed)), old(sec.View());
            Views(r) == if p != [] && Fits(cfg, LastOf(p), f) then Front(p) + [Join(LastOf(p), f)] else p + [f]
  {
    hide Views;
    r := packed;
    ghost var p, f := Views(packed), sec.View();
    var fits := packed != []
                && cfg.count(Text(cfg, packed[|packed| - 1].parts)) + cfg.count(Text(cfg, sec.parts)) <= cfg.budget;
    assert fits <==> p != [] && Fits(cfg, LastOf(p), f);
    hide Text, Fits, Join;
    if fits {
      JoinInto(packed, sec);
    } else {
      r := packed + [sec];
      assert Views(r) == p + [f];
    }
  }

  method Pack(cfg: Config, sections: seq<Section>) returns (packed: seq<Section>)
    requires Separate(sections)
    modifies set s | s in sections
    ensures Separate(packed) && (forall s :: s in packed ==> s in sections)
    ensures Views(packed) == Packed(cfg, old(Views(sections)))
  {
    hide Views;
    hide Packed, Text, Fits, Join, Among, Separate, Front, LastOf;
    packed := [];
    ghost var views := Views(sections);
    assert views[..0] == [];
    NothingPacked(cfg, sections);
    for n := 0 to |sections|
      invariant Among(packed, sections, n) && Untouched(sections, views, n)
      invariant Views(packed) == Packed(cfg, views[..n])
    {
      PackedNext(cfg, views, n);
      AmongNext(packed, sections, n);
      packed := PackOne(cfg, packed, sections[n]);
    }
    AmongAll(packed, sections, |sections|);
    assert views[..|sections|] == views;
  }

  lemma NothingPacked(cfg: Config, sections: seq<Section>)
    ensures Among([], sections, 0) && Packed(cfg, []) == []
  {
  }

  predicate AnyHeading(docs: seq<Block>) { exists i :: 0 <= i < |docs| && Or(docs[i].heading, None).Some? }

  predicate AnyAnchor(docs: seq<Block>) { exists i :: 0 <= i < |docs| && Or(docs[i].anchor, None).Some? }

  /** The sections of a document, by heading, by anchor, or by clause. */
  function SectionsOf(cfg: Config, docs: seq<Block>): seq<Fields> {
    if AnyHeading(docs) then Grouped(ByHeading, docs)
    else if AnyAnchor(docs) then Grouped(ByAnchor, docs)
    else Clauses(cfg, AllLines(cfg, docs))
  }

  /** The value of all passes. */
  function Passages(cfg: Config, docs: seq<Block>): seq<Fields> { Packed(cfg, Merged(cfg, SectionsOf(cfg, docs))) }

  method Split(cfg: Config, docs: seq<Block>) returns (packed: seq<Section>)
    ensures Views(packed) == Passages(cfg, docs)
  {
    var sections;
    if AnyHeading(docs) {
      sections := GroupBy(ByHeading, docs);
    } else if AnyAnchor(docs) {
      sections := GroupBy(ByAnchor, docs);
    } else {
      sections := GroupByClause(cfg, docs);
    }
    var merged := MergeForward(cfg, sections);
    packed := Pack(cfg, merged);
  }

  /** No text is lost, invented or reordered on the way from the blocks to the passages. */
  lemma PassagesKeepInk(cfg: Config, docs: seq<Block>)
    requires LinesKeepInk(cfg)
    ensures InkOf(cfg, Passages(cfg, docs)) == InkOfBlocks(cfg, docs)
  {
    hide Ink, InkOf, InkOfBlocks, Grouped, Clauses, AllLines, Merged, Packed, AnyHeading, AnyAnchor, LinesKeepInk;
    assert cfg.space('\n') by { LineBreakIsSpace(cfg); }
    var sections := SectionsOf(cfg, docs);
    GroupedInk(cfg, ByHeading, docs);
    GroupedInk(cfg, ByAnchor, docs);
    ClausesInk(cfg, AllLines(cfg, docs));
    AllLinesInk(cfg, docs);
    MergedInk(cfg, sections);
    PackedInk(cfg, Merged(cfg, sections));
  }

  lemma LineBreakIsSpace(cfg: Config)
    requires LinesKeepInk(cfg)
    ensures cfg.space('\n')
  {
  }
}
