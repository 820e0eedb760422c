/** The page range of a passage against the pages of the sections whose text it carries. */
module ChunkPages {
  import opened Prelude
  import opened StructureChunker

  // ------------------------------------------------------------------ which sections a merged one carries

  /** The positions of the large sections. */
  function LargeAt(cfg: Config, ss: seq<Fields>): seq<nat> {
    if ss == [] then [] else LargeAt(cfg, Front(ss)) + if Small(cfg, LastOf(ss)) then [] else [|ss| - 1]
  }

  /** Where the sections carried by merged section `i` begin: after the large one before, or at 0. */
  function From(at: seq<nat>, i: nat): nat { if 0 < i <= |at| then at[i - 1] + 1 else 0 }

  function After(at: seq<nat>): nat { From(at, |at|) }

  /** Its own section is a large one, or the last section when there is no large one. */
  function OwnAt(at: seq<nat>, n: nat, i: nat): int { if i < |at| then at[i] else n - 1 }

  /** The last merged section carries everything to the end. */
  function To(at: seq<nat>, n: nat, i: nat): nat { if i + 1 < |at| then at[i] + 1 else n }

  function Slice<T>(s: seq<T>, c: nat, e: nat): seq<T> { if c <= e <= |s| then s[c..e] else [] }

  /** Every position listed is a large section, in order, and none is missing. */
  ghost predicate Located(cfg: Config, ss: seq<Fields>, at: seq<nat>) {
    && (forall i, j :: 0 <= i < j < |at| ==> at[i] < at[j])
    && (forall i :: 0 <= i < |at| ==> LargeHere(cfg, ss, at[i]))
    && (forall k: nat :: LargeHere(cfg, ss, k) ==> k in at)
  }

  predicate LargeHere(cfg: Config, ss: seq<Fields>, k: nat) { k < |ss| && !Small(cfg, ss[k]) }

  lemma LocatedNext(cfg: Config, ss: seq<Fields>, at: seq<nat>, f: Fields)
    requires Located(cfg, ss, at)
    ensures Located(cfg, ss + [f], if Small(cfg, f) then at else at + [|ss|])
  {
    var next, n := ss + [f], |ss|;
    forall k: nat ensures LargeHere(cfg, next, k) <==> LargeHere(cfg, ss, k) || (k == n && !Small(cfg, f)) {
    }
    assert forall i :: 0 <= i < |at| ==> LargeHere(cfg, ss, at[i]) && at[i] < n;
    hide LargeHere, Small;
    if Small(cfg, f) {
      assert Located(cfg, next, at);
    } else {
      LocatedTakes(cfg, ss, next, at);
    }
  }

  lemma LocatedTakes(cfg: Config, ss: seq<Fields>, next: seq<Fields>, at: seq<nat>)
    requires Located(cfg, ss, at) && (forall i :: 0 <= i < |at| ==> at[i] < |ss|)
    requires forall k: nat :: LargeHere(cfg, next, k) <==> LargeHere(cfg, ss, k) || k == |ss|
    ensures Located(cfg, next, at + [|ss|])
  {
    hide LargeHere;
    var at' := at + [|ss|];
    assert forall k :: k in at' <==> k in at || k == |ss|;
  }

  lemma NothingLocated(cfg: Config)
    ensures Located(cfg, [], [])
  {
  }

  lemma LargeAtNext(cfg: Config, ss: seq<Fields>, f: Fields)
    ensures LargeAt(cfg, ss + [f]) == if Small(cfg, f) then LargeAt(cfg, ss) else LargeAt(cfg, ss) + [|ss|]
  {
    assert Front(ss + [f]) == ss && LastOf(ss + [f]) == f;
  }

  lemma {:induction false} LargeAtLocates(cfg: Config, ss: seq<Fields>)
    ensures Located(cfg, ss, LargeAt(cfg, ss))
  {
    if ss == [] {
      NothingLocated(cfg);
    } else {
      hide Located, Small, LargeAt;
      assert ss == Front(ss) + [LastOf(ss)];
      LargeAtLocates(cfg, Front(ss));
      LocatedNext(cfg, Front(ss), LargeAt(cfg, Front(ss)), LastOf(ss));
      LargeAtNext(cfg, Front(ss), LastOf(ss));
    }
  }

  lemma {:induction false} InkOfConcat(cfg: Config, a: seq<Fields>, b: seq<Fields>)
    ensures InkOf(cfg, a + b) == InkOf(cfg, a) + InkOf(cfg, b)
  {
    if b == [] {
      assert a + b == a;
    } else {
      assert a + b == (a + Front(b)) + [LastOf(b)];
      InkOfConcat(cfg, a, Front(b));
      InkOfSnoc(cfg, a + Front(b), LastOf(b));
      assert b == Front(b) + [LastOf(b)];
      InkOfSnoc(cfg, Front(b), LastOf(b));
    }
  }

  /** Pages, heading and anchor of one section, text of others. */
  ghost predicate Carries(cfg: Config, f: Fields, own: Fields, sources: seq<Fields>) {
    f.(parts := own.parts) == own && Ink(cfg, Flatten(f.parts)) == InkOf(cfg, sources)
  }

  ghost predicate CarriedAt(cfg: Config, ss: seq<Fields>, at: seq<nat>, m: Merging, i: nat)
    requires i < |at| == |m.merged|
  {
    && From(at, i) <= at[i] < |ss|
    && Carries(cfg, m.merged[i], ss[at[i]], ss[From(at, i)..at[i] + 1])
  }

  /** What the merging pass has done after `ss`. */
  ghost predicate Carried(cfg: Config, ss: seq<Fields>, at: seq<nat>, m: Merging) {
    && |m.merged| == |at|
    && (forall i :: 0 <= i < |at| ==> CarriedAt(cfg, ss, at, m, i))
    && After(at) <= |ss|
    && (m.carry == [] <==> After(at) == |ss|)
    && Ink(cfg, Flatten(m.carry)) == InkOf(cfg, ss[After(at)..])
  }

  /** Sections already merged do not change. */
  lemma CarriedStays(cfg: Config, ss: seq<Fields>, next: seq<Fields>, at: seq<nat>, at': seq<nat>, m: Merging,
                     m': Merging, i: nat)
    requires i < |at| == |m.merged| && i < |at'| == |m'.merged| && CarriedAt(cfg, ss, at, m, i)
    requires ss <= next && at <= at' && m.merged <= m'.merged
    ensures CarriedAt(cfg, next, at', m', i)
  {
    hide Carries;
    assert at'[i] == at[i] && (i > 0 ==> at'[i - 1] == at[i - 1]) && m'.merged[i] == m.merged[i];
    assert next[at[i]] == ss[at[i]];
    SliceOfPrefix(ss, next, From(at, i), at[i] + 1);
  }

  lemma SmallWaits(cfg: Config, ss: seq<Fields>, at: seq<nat>, m: Merging, f: Fields)
    requires cfg.space('\n') && Carried(cfg, ss, at, m)
    ensures Carried(cfg, ss + [f], at, m.(carry := m.carry + [Text(cfg, f.parts)]))
  {
    var next, c, m' := ss + [f], After(at), m.(carry := m.carry + [Text(cfg, f.parts)]);
    hide CarriedAt, Text, Ink, Flatten, InkOf;
    WaitingInk(cfg, m.carry, ss[c..], f);
    assert next[c..] == ss[c..] + [f];
    forall i | 0 <= i < |at| ensures CarriedAt(cfg, next, at, m', i) {
      CarriedStays(cfg, ss, next, at, at, m, m', i);
    }
  }

  lemma WaitingInk(cfg: Config, carry: seq<string>, waiting: seq<Fields>, f: Fields)
    requires cfg.space('\n') && Ink(cfg, Flatten(carry)) == InkOf(cfg, waiting)
    ensures Ink(cfg, Flatten(carry + [Text(cfg, f.parts)])) == InkOf(cfg, waiting + [f])
  {
    TextKeepsInk(cfg, f.parts);
    FlattenSnoc(carry, Text(cfg, f.parts));
    InkConcat(cfg, Flatten(carry), Text(cfg, f.parts));
    InkOfSnoc(cfg, waiting, f);
  }

  lemma TakenInk(cfg: Config, carry: seq<string>, waiting: seq<Fields>, f: Fields)
    requires Ink(cfg, Flatten(carry)) == InkOf(cfg, waiting)
    ensures Ink(cfg, Flatten(carry + f.parts)) == InkOf(cfg, waiting + [f])
  {
    FlattenConcat(carry, f.parts);
    InkConcat(cfg, Flatten(carry), Flatten(f.parts));
    InkOfSnoc(cfg, waiting, f);
  }

  lemma LargeTakes(cfg: Config, ss: seq<Fields>, at: seq<nat>, m: Merging, f: Fields)
    requires Carried(cfg, ss, at, m)
    ensures Carried(cfg, ss + [f], at + [|ss|], Merging(m.merged + [f.(parts := m.carry + f.parts)], []))
  {
    var next, at', m' := ss + [f], at + [|ss|], Merging(m.merged + [f.(parts := m.carry + f.parts)], []);
    NewlyCarried(cfg, ss, at, m, f);
    NothingWaits(cfg, next);
    hide CarriedAt, Ink, Flatten, InkOf;
    forall i | 0 <= i < |at'| ensures CarriedAt(cfg, next, at', m', i) {
      if i < |at| { CarriedStays(cfg, ss, next, at, at', m, m', i); }
    }
  }

  lemma NothingWaits(cfg: Config, ss: seq<Fields>)
    ensures Ink(cfg, Flatten([])) == InkOf(cfg, ss[|ss|..])
  {
    assert ss[|ss|..] == [];
  }

  lemma NewlyCarried(cfg: Config, ss: seq<Fields>, at: seq<nat>, m: Merging, f: Fields)
    requires Carried(cfg, ss, at, m)
    ensures CarriedAt(cfg, ss + [f], at + [|ss|], Merging(m.merged + [f.(parts := m.carry + f.parts)], []), |at|)
  {
    hide CarriedAt, Ink, Flatten, InkOf;
    TakenInk(cfg, m.carry, ss[After(at)..], f);
    var next, at' := ss + [f], at + [|ss|];
    assert at'[|at|] == |ss| && From(at', |at|) == From(at, |at|);
    assert next[After(at)..|ss| + 1] == ss[After(at)..] + [f];
    TakenHere(cfg, next, at', Merging(m.merged + [f.(parts := m.carry + f.parts)], []), |at|);
  }

  lemma TakenHere(cfg: Config, ss: seq<Fields>, at: seq<nat>, m: Merging, i: nat)
    requires i < |at| == |m.merged| && From(at, i) <= at[i] < |ss|
    requires Carries(cfg, m.merged[i], ss[at[i]], ss[From(at, i)..at[i] + 1])
    ensures CarriedAt(cfg, ss, at, m, i)
  {
  }

  lemma {:induction false} MergeUpToCarries(cfg: Config, ss: seq<Fields>)
    requires cfg.space('\n')
    ensures Carried(cfg, ss, LargeAt(cfg, ss), MergeUpTo(cfg, ss))
  {
    if ss == [] {
      NothingWaits(cfg, ss);
    } else {
      var init, f := Front(ss), LastOf(ss);
      assert ss == init + [f];
      MergeUpToCarries(cfg, init);
      LargeAtNext(cfg, init, f);
      hide LargeAt, Carried, Small, Text;
      if Small(cfg, f) {
        SmallWaits(cfg, init, LargeAt(cfg, init), MergeUpTo(cfg, init), f);
      } else {
        LargeTakes(cfg, init, LargeAt(cfg, init), MergeUpTo(cfg, init), f);
      }
    }
  }

  // ------------------------------------------------------------------ the page range of a merged section

  /** The sections merged section `i` carries. */
  function Sources(at: seq<nat>, ss: seq<Fields>, i: nat): seq<Fields>
  {
    Slice(ss, From(at, i), To(at, |ss|, i))
  }

  /** The places of the merged sections: each carries a stretch with its own section in it, and the
      stretches follow each other. */
  ghost predicate Placed(at: seq<nat>, n: nat, i: nat)
  {
    From(at, i) <= OwnAt(at, n, i) < To(at, n, i) <= n
  }

  /** Merged section `i` has exactly the text of its sources, which follow each other, and the
      heading, anchor and pages of its own section, which is one of them. */
  ghost predicate Stands(cfg: Config, ss: seq<Fields>, at: seq<nat>, merged: seq<Fields>, i: nat)
    requires i < |merged|
  {
    && Placed(at, |ss|, i)
    && Carries(cfg, merged[i], ss[OwnAt(at, |ss|, i)], Sources(at, ss, i))
  }

  /** There is one merged section per large one, or one in all. */
  function MergedCount(at: seq<nat>, n: nat): nat { if n == 0 then 0 else if at == [] then 1 else |at| }

  lemma MergedStands(cfg: Config, ss: seq<Fields>)
    requires cfg.space('\n')
    ensures var at, merged := LargeAt(cfg, ss), Merged(cfg, ss);
            && |merged| == MergedCount(at, |ss|)
            && forall i :: 0 <= i < |merged| ==> Stands(cfg, ss, at, merged, i)
  {
    MergedShape(cfg, ss);
    MergeUpToCarries(cfg, ss);
    hide *;
    forall i | 0 <= i < |Merged(cfg, ss)| ensures Stands(cfg, ss, LargeAt(cfg, ss), Merged(cfg, ss), i) {
      StandsFrom(cfg, ss, LargeAt(cfg, ss), MergeUpTo(cfg, ss), Merged(cfg, ss), i);
    }
  }

  /** How the merged sections follow from the pass: only the last takes what waits at the end. */
  ghost predicate Finishes(ss: seq<Fields>, at: seq<nat>, m: Merging, merged: seq<Fields>) {
    && |merged| == MergedCount(at, |ss|)
    && (ss != [] && at == [] ==> merged == [LastOf(ss).(parts := m.carry)])
    && (at != [] ==> LastTakes(m, merged))
  }

  lemma StandsFrom(cfg: Config, ss: seq<Fields>, at: seq<nat>, m: Merging, merged: seq<Fields>, i: nat)
    requires Carried(cfg, ss, at, m) && Finishes(ss, at, m, merged) && i < |merged|
    ensures Stands(cfg, ss, at, merged, i)
  {
    hide Carried, Stands, LastTakes;
    if at == [] {
      AllWaited(cfg, ss, m);
    } else {
      assert ss != [] by { SomethingLarge(cfg, ss, at, m); }
      if i + 1 < |at| {
        EarlierStands(cfg, ss, at, m, merged, i);
      } else {
        LastStands(cfg, ss, at, m, merged);
      }
    }
  }

  lemma SomethingLarge(cfg: Config, ss: seq<Fields>, at: seq<nat>, m: Merging)
    requires Carried(cfg, ss, at, m) && at != []
    ensures ss != []
  {
    assert CarriedAt(cfg, ss, at, m, 0);
  }

  lemma MergedShape(cfg: Config, ss: seq<Fields>)
    requires cfg.space('\n')
    ensures Finishes(ss, LargeAt(cfg, ss), MergeUpTo(cfg, ss), Merged(cfg, ss))
    ensures |Merged(cfg, ss)| == MergedCount(LargeAt(cfg, ss), |ss|)
  {
    hide MergeUpTo, LargeAt, CarriedAt, Ink, Flatten, InkOf;
    MergeUpToCarries(cfg, ss);
    NoSections(cfg);
    var m := MergeUpTo(cfg, ss);
    hide Located, InkOf;
    if m.merged != [] && m.carry == [] {
      assert LastOf(m.merged).parts + [] == LastOf(m.merged).parts;
    }
  }

  ghost predicate LastTakes(m: Merging, merged: seq<Fields>) {
    && |merged| == |m.merged| && merged != []
    && (forall i :: 0 <= i < |merged| - 1 ==> merged[i] == m.merged[i])
    && LastOf(merged) == LastOf(m.merged).(parts := LastOf(m.merged).parts + m.carry)
  }

  lemma NoSections(cfg: Config)
    ensures MergeUpTo(cfg, []) == Merging([], []) && LargeAt(cfg, []) == []
  {
  }

  lemma AllWaited(cfg: Config, ss: seq<Fields>, m: Merging)
    requires ss != [] && Carried(cfg, ss, [], m)
    ensures Stands(cfg, ss, [], [LastOf(ss).(parts := m.carry)], 0)
  {
    assert ss[0..] == ss && ss[0..|ss|] == ss;
    hide Ink, Flatten, InkOf;
  }

  lemma EarlierStands(cfg: Config, ss: seq<Fields>, at: seq<nat>, m: Merging, merged: seq<Fields>, i: nat)
    requires Carried(cfg, ss, at, m) && i + 1 < |at| == |merged| && LastTakes(m, merged)
    ensures Stands(cfg, ss, at, merged, i)
  {
    assert CarriedAt(cfg, ss, at, m, i);
    hide Carries;
  }

  lemma LastStands(cfg: Config, ss: seq<Fields>, at: seq<nat>, m: Merging, merged: seq<Fields>)
    requires Carried(cfg, ss, at, m) && at != [] && |merged| == |at| && LastTakes(m, merged)
    ensures Stands(cfg, ss, at, merged, |at| - 1)
  {
    hide Ink, Flatten, InkOf, Carries, Slice, Stands, Carried, CarriedAt;
    var i, l, own := |at| - 1, LastOf(m.merged), LastOf(at);
    var c := From(at, i);
    LastCarried(cfg, ss, at, m);
    SliceSplits(ss, c, own + 1);
    TrailCarries(cfg, l, ss[own], ss[c..own + 1], ss[own + 1..], m.carry);
    StandsHere(cfg, ss, at, merged, i);
  }

  lemma LastCarried(cfg: Config, ss: seq<Fields>, at: seq<nat>, m: Merging)
    requires Carried(cfg, ss, at, m) && at != []
    ensures |m.merged| == |at| && From(at, |at| - 1) <= LastOf(at) < |ss|
    ensures Carries(cfg, LastOf(m.merged), ss[LastOf(at)], ss[From(at, |at| - 1)..LastOf(at) + 1])
    ensures Ink(cfg, Flatten(m.carry)) == InkOf(cfg, ss[LastOf(at) + 1..])
  {
    hide CarriedAt, Carries, Ink, Flatten, InkOf;
    assert CarriedAt(cfg, ss, at, m, |at| - 1);
    CarriedThere(cfg, ss, at, m, |at| - 1);
  }

  lemma CarriedThere(cfg: Config, ss: seq<Fields>, at: seq<nat>, m: Merging, i: nat)
    requires i < |at| == |m.merged| && CarriedAt(cfg, ss, at, m, i)
    ensures From(at, i) <= at[i] < |ss|
    ensures Carries(cfg, m.merged[i], ss[at[i]], ss[From(at, i)..at[i] + 1])
  {
    hide Carries;
  }

  lemma StandsHere(cfg: Config, ss: seq<Fields>, at: seq<nat>, merged: seq<Fields>, i: nat)
    requires i < |merged| && From(at, i) <= OwnAt(at, |ss|, i) < To(at, |ss|, i) <= |ss|
    requires Carries(cfg, merged[i], ss[OwnAt(at, |ss|, i)], Slice(ss, From(at, i), To(at, |ss|, i)))
    ensures Stands(cfg, ss, at, merged, i)
  {
    hide Carries;
  }

  lemma SliceSplits(ss: seq<Fields>, c: nat, o: nat)
    requires c <= o <= |ss|
    ensures Slice(ss, c, |ss|) == ss[c..o] + ss[o..]
  {
  }

  lemma TrailCarries(cfg: Config, f: Fields, own: Fields, head: seq<Fields>, tail: seq<Fields>, carry: seq<string>)
    requires Carries(cfg, f, own, head) && Ink(cfg, Flatten(carry)) == InkOf(cfg, tail)
    ensures Carries(cfg, f.(parts := f.parts + carry), own, head + tail)
  {
    InkOfConcat(cfg, head, tail);
    FlattenConcat(f.parts, carry);
    InkConcat(cfg, Flatten(f.parts), Flatten(carry));
    hide Ink, Flatten, InkOf;
  }

  /** A section's pages are those of the first and the last of the sections whose text it carries. */
  predicate Spans(f: Fields, sources: seq<Fields>) {
    sources != [] && f.pageStart == sources[0].pageStart && f.pageEnd == LastOf(sources).pageEnd
  }

  /** A maximal run of small sections, from `i`, right before the large one at `j`. */
  ghost predicate RunBefore(cfg: Config, ss: seq<Fields>, i: nat, j: nat) {
    && i < j < |ss| && LargeHere(cfg, ss, j)
    && (i == 0 || LargeHere(cfg, ss, i - 1))
    && forall k: nat :: i <= k < j ==> !LargeHere(cfg, ss, k)
  }

  /** The last large section, with small ones behind it. */
  ghost predicate TrailBehind(cfg: Config, ss: seq<Fields>, j: nat) {
    && j + 1 < |ss| && LargeHere(cfg, ss, j)
    && forall k: nat :: j < k < |ss| ==> !LargeHere(cfg, ss, k)
  }

  ghost predicate AllSmall(cfg: Config, ss: seq<Fields>) { forall k: nat :: !LargeHere(cfg, ss, k) }

  ghost predicate RunsStartOnPage(cfg: Config, ss: seq<Fields>) {
    forall i: nat, j: nat :: RunBefore(cfg, ss, i, j) ==> ss[i].pageStart == ss[j].pageStart
  }

  ghost predicate TrailEndsOnPage(cfg: Config, ss: seq<Fields>) {
    forall j: nat :: TrailBehind(cfg, ss, j) ==> LastOf(ss).pageEnd == ss[j].pageEnd
  }

  /** Every run before a large section starts on its page, a trailing run ends on the last large
      section's last page, and when nothing is large the first section starts on the last one's page. */
  ghost predicate PagesKept(cfg: Config, ss: seq<Fields>) {
    && RunsStartOnPage(cfg, ss) && TrailEndsOnPage(cfg, ss)
    && (AllSmall(cfg, ss) && ss != [] ==> ss[0].pageStart == LastOf(ss).pageStart)
  }

  /** A run before a large section is what that section carries in front of its own text. */
  lemma RunsAreCarried(cfg: Config, ss: seq<Fields>, at: seq<nat>, i: nat, j: nat)
    requires Located(cfg, ss, at)
    ensures RunBefore(cfg, ss, i, j) <==> exists m: nat :: m < |at| && at[m] == j && From(at, m) == i && i < j
  {
    hide LargeHere;
    if RunBefore(cfg, ss, i, j) {
      var m :| 0 <= m < |at| && at[m] == j;
      RunStart(cfg, ss, at, m, i);
    }
    if m: nat :| m < |at| && at[m] == j && From(at, m) == i && i < j {
      GapIsSmall(cfg, ss, at, m);
    }
  }

  lemma GapIsSmall(cfg: Config, ss: seq<Fields>, at: seq<nat>, m: nat)
    requires Located(cfg, ss, at) && m < |at|
    ensures From(at, m) <= at[m] < |ss| && LargeHere(cfg, ss, at[m])
    ensures From(at, m) == 0 || LargeHere(cfg, ss, From(at, m) - 1)
    ensures forall k: nat :: From(at, m) <= k < at[m] ==> !LargeHere(cfg, ss, k)
  {
    assert LargeHere(cfg, ss, at[m]);
    hide LargeHere;
    forall x | 0 <= x < |at| ensures at[x] < From(at, m) || at[m] <= at[x] {
    }
    forall k: nat | From(at, m) <= k < at[m] ensures !LargeHere(cfg, ss, k) {
      assert k !in at;
    }
  }

  lemma RunStart(cfg: Config, ss: seq<Fields>, at: seq<nat>, m: nat, i: nat)
    requires Located(cfg, ss, at) && m < |at| && RunBefore(cfg, ss, i, at[m])
    ensures From(at, m) == i
  {
    GapIsSmall(cfg, ss, at, m);
    hide Small, LargeHere;
    var c := From(at, m);
    assert c > 0 ==> LargeHere(cfg, ss, c - 1);
    assert i > 0 ==> LargeHere(cfg, ss, i - 1);
  }

  lemma TrailIsLast(cfg: Config, ss: seq<Fields>, at: seq<nat>, j: nat)
    requires Located(cfg, ss, at)
    ensures TrailBehind(cfg, ss, j) <==> at != [] && j == LastOf(at) && j + 1 < |ss|
    ensures AllSmall(cfg, ss) <==> at == []
  {
    if at != [] {
      var l := LastOf(at);
      GapIsSmall(cfg, ss, at, |at| - 1);
      hide Small, LargeHere;
      forall k: nat | l < k ensures !LargeHere(cfg, ss, k) {
        assert k !in at;
      }
      if TrailBehind(cfg, ss, j) {
        assert j in at;
      }
    } else {
      hide Small;
      assert LargeHere(cfg, ss, j) ==> j in at;
    }
  }

  /** Where a merged section's range can be wrong: at its start by what it carries in front, at its
      end by what it carries behind. */
  lemma SpansExactly(cfg: Config, ss: seq<Fields>, at: seq<nat>, merged: seq<Fields>, i: nat)
    requires i < |merged| && Stands(cfg, ss, at, merged, i)
    ensures var own := OwnAt(at, |ss|, i);
            && Sources(at, ss, i) != []
            && merged[i].pageStart == ss[own].pageStart && merged[i].pageEnd == ss[own].pageEnd
            && Sources(at, ss, i)[0] == ss[From(at, i)] && LastOf(Sources(at, ss, i)) == ss[To(at, |ss|, i) - 1]
  {
    hide Ink, Flatten, InkOf;
  }

  lemma SpansIffKept(cfg: Config, ss: seq<Fields>, at: seq<nat>, merged: seq<Fields>, i: nat)
    requires i < |merged| && Stands(cfg, ss, at, merged, i)
    ensures Spans(merged[i], Sources(at, ss, i)) <==> StartKept(ss, at, i) && EndKept(ss, at, i)
  {
    SpansExactly(cfg, ss, at, merged, i);
    hide Carries, Sources;
  }

  lemma StartsKept(cfg: Config, ss: seq<Fields>, at: seq<nat>)
    requires Located(cfg, ss, at)
    ensures RunsStartOnPage(cfg, ss) <==> forall m :: 0 <= m < |at| ==> StartKept(ss, at, m)
  {
    hide Located;
    if RunsStartOnPage(cfg, ss) {
      forall m | 0 <= m < |at| ensures StartKept(ss, at, m) {
        GapIsSmall(cfg, ss, at, m);
        RunsAreCarried(cfg, ss, at, From(at, m), at[m]);
      }
    }
    if forall m :: 0 <= m < |at| ==> StartKept(ss, at, m) {
      forall i: nat, j: nat | RunBefore(cfg, ss, i, j) ensures ss[i].pageStart == ss[j].pageStart {
        RunsAreCarried(cfg, ss, at, i, j);
        var m: nat :| m < |at| && at[m] == j && From(at, m) == i;
        assert StartKept(ss, at, m);
      }
    }
  }

  lemma EndsKept(cfg: Config, ss: seq<Fields>, at: seq<nat>)
    requires Located(cfg, ss, at) && at != []
    ensures TrailEndsOnPage(cfg, ss) <==> forall m :: 0 <= m < |at| ==> EndKept(ss, at, m)
  {
    hide Located;
    var l := LastOf(at);
    forall m | 0 <= m < |at| ensures at[m] < |ss| { GapIsSmall(cfg, ss, at, m); }
    forall j: nat ensures TrailBehind(cfg, ss, j) <==> j == l && j + 1 < |ss| { TrailIsLast(cfg, ss, at, j); }
    hide TrailBehind;
    forall m | 0 <= m < |at| - 1 ensures EndKept(ss, at, m) { assert To(at, |ss|, m) == at[m] + 1; }
    assert EndKept(ss, at, |at| - 1) <==> LastOf(ss).pageEnd == ss[l].pageEnd;
    if l + 1 < |ss| { assert TrailBehind(cfg, ss, l); }
  }

  lemma KeptIsKept(cfg: Config, ss: seq<Fields>, at: seq<nat>)
    requires Located(cfg, ss, at)
    ensures PagesKept(cfg, ss) <==>
            forall i :: 0 <= i < MergedCount(at, |ss|) ==> StartKept(ss, at, i) && EndKept(ss, at, i)
  {
    StartsKept(cfg, ss, at);
    TrailIsLast(cfg, ss, at, 0);
    if at == [] {
      forall j: nat ensures !TrailBehind(cfg, ss, j) { TrailIsLast(cfg, ss, at, j); }
      hide TrailBehind, Located, AllSmall, RunsStartOnPage;
      if ss != [] {
        assert StartKept(ss, at, 0) <==> ss[0].pageStart == LastOf(ss).pageStart;
        assert EndKept(ss, at, 0);
      }
    } else {
      EndsKept(cfg, ss, at);
      GapIsSmall(cfg, ss, at, 0);
      hide Located, AllSmall, StartKept, EndKept, RunsStartOnPage, TrailEndsOnPage;
    }
  }

  /** Each merged section spans the pages of the sections whose text it carries, for every section
      list, exactly when the pages are kept. */
  lemma MergedSpansExactly(cfg: Config, ss: seq<Fields>)
    requires cfg.space('\n')
    ensures var at, merged := LargeAt(cfg, ss), Merged(cfg, ss);
            && |merged| == MergedCount(at, |ss|)
            && ((forall i :: 0 <= i < |merged| ==> Spans(merged[i], Sources(at, ss, i))) <==> PagesKept(cfg, ss))
  {
    var at, merged := LargeAt(cfg, ss), Merged(cfg, ss);
    MergedStands(cfg, ss);
    LargeAtLocates(cfg, ss);
    hide LargeAt, Merged, Stands, Located, Sources, PagesKept, StartKept, EndKept, Spans, From, To, OwnAt;
    forall i | 0 <= i < |merged|
      ensures Spans(merged[i], Sources(at, ss, i)) <==> StartKept(ss, at, i) && EndKept(ss, at, i)
    {
      SpansIffKept(cfg, ss, at, merged, i);
    }
    KeptIsKept(cfg, ss, at);
  }

  /** Merged section `i` starts on its first source's page, and ends on its last source's. */
  predicate StartKept(ss: seq<Fields>, at: seq<nat>, i: nat)
  {
    From(at, i) < |ss| && 0 <= OwnAt(at, |ss|, i) < |ss|
    && ss[From(at, i)].pageStart == ss[OwnAt(at, |ss|, i)].pageStart
  }

  predicate EndKept(ss: seq<Fields>, at: seq<nat>, i: nat)
  {
    && 0 < To(at, |ss|, i) <= |ss| && 0 <= OwnAt(at, |ss|, i) < |ss|
    && ss[To(at, |ss|, i) - 1].pageEnd == ss[OwnAt(at, |ss|, i)].pageEnd
  }

  // ------------------------------------------------------------------ the page range of a passage

  lemma {:induction false} JoinAllInk(cfg: Config, ss: seq<Fields>)
    requires ss != []
    ensures Ink(cfg, Flatten(JoinAll(ss).parts)) == InkOf(cfg, ss)
  {
    assert ss == Front(ss) + [LastOf(ss)];
    InkOfSnoc(cfg, Front(ss), LastOf(ss));
    if |ss| == 1 {
      assert InkOf(cfg, []) == "";
      assert "" + Ink(cfg, Flatten(ss[0].parts)) == Ink(cfg, Flatten(ss[0].parts));
    } else {
      JoinAllInk(cfg, Front(ss));
      FlattenConcat(JoinAll(Front(ss)).parts, LastOf(ss).parts);
      InkConcat(cfg, Flatten(JoinAll(Front(ss)).parts), Flatten(LastOf(ss).parts));
      hide Ink, Flatten, InkOf;
    }
  }

  /** The sections that merged sections `c` to `e` carry, which follow each other. */
  function SourcesOf(at: seq<nat>, ss: seq<Fields>, c: nat, e: nat): seq<Fields> {
    if e == 0 then [] else Slice(ss, From(at, c), To(at, |ss|, e - 1))
  }

  ghost predicate AllStand(cfg: Config, ss: seq<Fields>, at: seq<nat>, merged: seq<Fields>) {
    |merged| == MergedCount(at, |ss|) && forall i :: 0 <= i < |merged| ==> Stands(cfg, ss, at, merged, i)
  }

  lemma AllPlaced(cfg: Config, ss: seq<Fields>, at: seq<nat>, merged: seq<Fields>)
    requires AllStand(cfg, ss, at, merged)
    ensures forall i: nat :: i < |merged| ==> Placed(at, |ss|, i)
  {
    hide Carries, Sources;
    forall i: nat | i < |merged| ensures Placed(at, |ss|, i) {
      assert Stands(cfg, ss, at, merged, i);
    }
  }

  lemma {:induction false} PlacesRise(at: seq<nat>, n: nat, c: nat, e: nat)
    requires c <= e && (c == e || e < |at|) && forall i: nat :: c <= i <= e ==> Placed(at, n, i)
    ensures From(at, c) <= From(at, e) < To(at, n, e) <= n
  {
    assert Placed(at, n, e);
    if c < e {
      assert Placed(at, n, e - 1);
      PlacesRise(at, n, c, e - 1);
    }
  }

  /** Neighbouring merged sections carry neighbouring stretches. */
  lemma SourcesMeet(at: seq<nat>, ss: seq<Fields>, c: nat, e: nat)
    requires c < e && (forall i: nat :: c <= i <= e ==> Placed(at, |ss|, i)) && e < |at|
    ensures SourcesOf(at, ss, c, e + 1) == SourcesOf(at, ss, c, e) + Sources(at, ss, e)
  {
    PlacesRise(at, |ss|, c, e - 1);
    PlacesRise(at, |ss|, c, e);
    assert From(at, e) == To(at, |ss|, e - 1);
  }

  lemma {:induction false} JoinedSources(cfg: Config, ss: seq<Fields>, at: seq<nat>, merged: seq<Fields>, c: nat,
                                         e: nat)
    requires AllStand(cfg, ss, at, merged) && c < e <= |merged|
    ensures InkOf(cfg, merged[c..e]) == InkOf(cfg, SourcesOf(at, ss, c, e))
    decreases e
  {
    hide Ink, Flatten, InkOf, Stands;
    if c + 1 < e {
      JoinedSources(cfg, ss, at, merged, c, e - 1);
      JoinedNext(cfg, ss, at, merged, c, e - 1);
    } else {
      StandsInk(cfg, ss, at, merged, c);
      InkOfOne(cfg, merged[c]);
      assert merged[c..e] == [merged[c]];
    }
  }

  lemma InkOfOne(cfg: Config, f: Fields)
    ensures InkOf(cfg, [f]) == Ink(cfg, Flatten(f.parts))
  {
    assert [f][..0] == [];
    assert InkOf(cfg, []) == "";
  }

  lemma JoinedNext(cfg: Config, ss: seq<Fields>, at: seq<nat>, merged: seq<Fields>, c: nat, e: nat)
    requires AllStand(cfg, ss, at, merged) && c < e < |merged|
    requires InkOf(cfg, merged[c..e]) == InkOf(cfg, SourcesOf(at, ss, c, e))
    ensures InkOf(cfg, merged[c..e + 1]) == InkOf(cfg, SourcesOf(at, ss, c, e + 1))
  {
    hide *;
    StandsInk(cfg, ss, at, merged, e);
    MeetsHere(cfg, ss, at, merged, c, e);
    SliceSnoc(merged, c, e);
    InkOfSnoc(cfg, merged[c..e], merged[e]);
    InkOfConcat(cfg, SourcesOf(at, ss, c, e), Sources(at, ss, e));
  }

  lemma MeetsHere(cfg: Config, ss: seq<Fields>, at: seq<nat>, merged: seq<Fields>, c: nat, e: nat)
    requires AllStand(cfg, ss, at, merged) && c < e < |merged|
    ensures SourcesOf(at, ss, c, e + 1) == SourcesOf(at, ss, c, e) + Sources(at, ss, e)
  {
    AllPlaced(cfg, ss, at, merged);
    assert e < |at|;
    hide AllStand, SourcesOf, Sources, Placed;
    SourcesMeet(at, ss, c, e);
  }

  lemma StandsInk(cfg: Config, ss: seq<Fields>, at: seq<nat>, merged: seq<Fields>, i: nat)
    requires AllStand(cfg, ss, at, merged) && i < |merged|
    ensures Ink(cfg, Flatten(merged[i].parts)) == InkOf(cfg, Sources(at, ss, i))
  {
    assert Stands(cfg, ss, at, merged, i);
  }

  /** Passage `i` carries exactly the text of its sources, and its pages are theirs exactly when its
      first merged section keeps its start and its last one keeps its end. */
  ghost predicate PassageStands(cfg: Config, ss: seq<Fields>, at: seq<nat>, packed: seq<Fields>, c: nat, e: nat, i: nat)
    requires i < |packed| && c < e
  {
    && Ink(cfg, Flatten(packed[i].parts)) == InkOf(cfg, SourcesOf(at, ss, c, e))
    && (Spans(packed[i], SourcesOf(at, ss, c, e)) <==> StartKept(ss, at, c) && EndKept(ss, at, e - 1))
  }

  lemma PassageAt(cfg: Config, ss: seq<Fields>, at: seq<nat>, merged: seq<Fields>, packed: seq<Fields>, c: nat, e: nat,
                  i: nat)
    requires AllStand(cfg, ss, at, merged) && c < e <= |merged| && i < |packed| && packed[i] == JoinAll(merged[c..e])
    ensures PassageStands(cfg, ss, at, packed, c, e, i)
  {
    hide Ink, Flatten, InkOf, JoinAll, Sources, SourcesOf, Stands, Spans, StartKept, EndKept, Placed, OwnAt;
    JoinAllInk(cfg, merged[c..e]);
    JoinedSources(cfg, ss, at, merged, c, e);
    PassageSpans(cfg, ss, at, merged, packed[i], c, e);
  }

  lemma PassageSpans(cfg: Config, ss: seq<Fields>, at: seq<nat>, merged: seq<Fields>, f: Fields, c: nat, e: nat)
    requires AllStand(cfg, ss, at, merged) && c < e <= |merged| && f == JoinAll(merged[c..e])
    ensures Spans(f, SourcesOf(at, ss, c, e)) <==> StartKept(ss, at, c) && EndKept(ss, at, e - 1)
  {
    hide JoinAll, Sources, SourcesOf, Stands, Spans, StartKept, EndKept, Placed;
    JoinAllPages(merged[c..e]);
    OwnPages(cfg, ss, at, merged, c);
    OwnPages(cfg, ss, at, merged, e - 1);
    AllPlaced(cfg, ss, at, merged);
    SpansEnds(ss, at, f, c, e);
  }

  lemma OwnPages(cfg: Config, ss: seq<Fields>, at: seq<nat>, merged: seq<Fields>, i: nat)
    requires AllStand(cfg, ss, at, merged) && i < |merged|
    ensures 0 <= OwnAt(at, |ss|, i) < |ss|
    ensures merged[i].pageStart == ss[OwnAt(at, |ss|, i)].pageStart
    ensures merged[i].pageEnd == ss[OwnAt(at, |ss|, i)].pageEnd
  {
    assert Stands(cfg, ss, at, merged, i);
    hide Sources, Ink, InkOf;
  }

  lemma SpansEnds(ss: seq<Fields>, at: seq<nat>, f: Fields, c: nat, e: nat)
    requires c < e && (c + 1 == e || e <= |at|) && forall i: nat :: c <= i < e ==> Placed(at, |ss|, i)
    requires Placed(at, |ss|, c) && Placed(at, |ss|, e - 1)
    requires f.pageStart == ss[OwnAt(at, |ss|, c)].pageStart && f.pageEnd == ss[OwnAt(at, |ss|, e - 1)].pageEnd
    ensures Spans(f, SourcesOf(at, ss, c, e)) <==> StartKept(ss, at, c) && EndKept(ss, at, e - 1)
  {
    PlacesRise(at, |ss|, c, e - 1);
  }

  /** Each passage of every section list, and when all of them have their pages right: exactly when
      the runs before sections that head a passage start on their page, a trailing run ends on the
      last large section's last page, and, when nothing is large, the first section starts on the
      last one's page. Keeping the pages of every run is enough. */
  lemma PassagesSpanExactly(cfg: Config, ss: seq<Fields>) returns (cuts: seq<nat>)
    requires cfg.space('\n')
    ensures var at, merged := LargeAt(cfg, ss), Merged(cfg, ss);
            var packed := Packed(cfg, merged);
            && IsPacking(cfg, merged, packed, cuts) && |merged| == MergedCount(at, |ss|)
            && (forall i :: 0 <= i < |packed| ==>
                  cuts[i] < End(cuts, |merged|, i) <= |merged|
                  && PassageStands(cfg, ss, at, packed, cuts[i], End(cuts, |merged|, i), i))
            && (AllPassagesSpan(cfg, ss, at, packed, cuts, |merged|) <==> PassagePagesKept(cfg, ss, at, cuts))
            && (PagesKept(cfg, ss) ==> PassagePagesKept(cfg, ss, at, cuts))
  {
    var at, merged := LargeAt(cfg, ss), Merged(cfg, ss);
    var packed := Packed(cfg, merged);
    MergedStands(cfg, ss);
    cuts := PackedIsPacking(cfg, merged);
    LargeAtLocates(cfg, ss);
    hide LargeAt, Merged, Packed, Stands;
    forall i | 0 <= i < |packed|
      ensures cuts[i] < End(cuts, |merged|, i) <= |merged|
      ensures PassageStands(cfg, ss, at, packed, cuts[i], End(cuts, |merged|, i), i)
    {
      assert IsGroup(cfg, merged, packed, cuts, i);
      PassageAt(cfg, ss, at, merged, packed, cuts[i], End(cuts, |merged|, i), i);
    }
    PassagesKeptIffSpan(cfg, ss, at, packed, cuts, |merged|);
  }

  ghost predicate AllPassagesSpan(cfg: Config, ss: seq<Fields>, at: seq<nat>, packed: seq<Fields>, cuts: seq<nat>,
                                  n: nat)
    requires n == MergedCount(at, |ss|) && |cuts| == |packed|
    requires forall i :: 0 <= i < |cuts| ==> cuts[i] < End(cuts, n, i) <= n
  {
    forall i :: 0 <= i < |packed| ==> Spans(packed[i], SourcesOf(at, ss, cuts[i], End(cuts, n, i)))
  }

  /** The large section at `j` is the first of some passage. */
  predicate HeadsPassage(at: seq<nat>, cuts: seq<nat>, j: nat) {
    exists i :: 0 <= i < |cuts| && cuts[i] < |at| && at[cuts[i]] == j
  }

  ghost predicate HeadRunsStartOnPage(cfg: Config, ss: seq<Fields>, at: seq<nat>, cuts: seq<nat>) {
    forall i: nat, j: nat :: RunBefore(cfg, ss, i, j) && HeadsPassage(at, cuts, j) ==>
      ss[i].pageStart == ss[j].pageStart
  }

  ghost predicate PassagePagesKept(cfg: Config, ss: seq<Fields>, at: seq<nat>, cuts: seq<nat>) {
    && HeadRunsStartOnPage(cfg, ss, at, cuts) && TrailEndsOnPage(cfg, ss)
    && (AllSmall(cfg, ss) && ss != [] ==> ss[0].pageStart == LastOf(ss).pageStart)
  }

  lemma RunInside(cfg: Config, ss: seq<Fields>, i: nat, j: nat)
    requires RunBefore(cfg, ss, i, j)
    ensures i < j < |ss|
  {
  }

  ghost predicate StartsAllKept(ss: seq<Fields>, at: seq<nat>, cuts: seq<nat>) {
    forall i :: 0 <= i < |cuts| ==> StartKept(ss, at, cuts[i])
  }

  ghost predicate EndsAllKept(ss: seq<Fields>, at: seq<nat>, cuts: seq<nat>, n: nat)
    requires forall i :: 0 <= i < |cuts| ==> cuts[i] < End(cuts, n, i) <= n
  {
    forall i :: 0 <= i < |cuts| ==> EndKept(ss, at, End(cuts, n, i) - 1)
  }

  ghost predicate AllKept(ss: seq<Fields>, at: seq<nat>, cuts: seq<nat>, n: nat)
    requires forall i :: 0 <= i < |cuts| ==> cuts[i] < End(cuts, n, i) <= n
  {
    StartsAllKept(ss, at, cuts) && EndsAllKept(ss, at, cuts, n)
  }

  lemma HeadStartsKept(cfg: Config, ss: seq<Fields>, at: seq<nat>, cuts: seq<nat>)
    requires Located(cfg, ss, at) && forall i :: 0 <= i < |cuts| ==> cuts[i] < |at|
    ensures StartsAllKept(ss, at, cuts) <==> HeadRunsStartOnPage(cfg, ss, at, cuts)
  {
    hide Located, RunBefore;
    if HeadRunsStartOnPage(cfg, ss, at, cuts) {
      forall i | 0 <= i < |cuts| ensures StartKept(ss, at, cuts[i]) {
        var m := cuts[i];
        GapIsSmall(cfg, ss, at, m);
        RunsAreCarried(cfg, ss, at, From(at, m), at[m]);
        assert HeadsPassage(at, cuts, at[m]);
      }
    }
    if StartsAllKept(ss, at, cuts) {
      forall i: nat, j: nat | RunBefore(cfg, ss, i, j) && HeadsPassage(at, cuts, j)
        ensures i < j < |ss| && ss[i].pageStart == ss[j].pageStart
      {
        RunInside(cfg, ss, i, j);
        var k :| 0 <= k < |cuts| && cuts[k] < |at| && at[cuts[k]] == j;
        GapIsSmall(cfg, ss, at, cuts[k]);
        RunStart(cfg, ss, at, cuts[k], i);
        assert StartKept(ss, at, cuts[k]);
      }
    }
  }

  /** Only the last passage can lose its end. */
  lemma PassageEndsKept(cfg: Config, ss: seq<Fields>, at: seq<nat>, cuts: seq<nat>)
    requires Located(cfg, ss, at) && at != [] && cuts != []
    requires forall i :: 0 <= i < |cuts| ==> cuts[i] < End(cuts, |at|, i) <= |at|
    ensures EndsAllKept(ss, at, cuts, |at|) <==> TrailEndsOnPage(cfg, ss)
  {
    EndsKept(cfg, ss, at);
    hide Located, TrailEndsOnPage, EndKept;
    forall m | 0 <= m < |at| - 1 ensures EndKept(ss, at, m) {
      EndKeptBefore(cfg, ss, at, m);
    }
    assert End(cuts, |at|, |cuts| - 1) - 1 == |at| - 1;
    if EndsAllKept(ss, at, cuts, |at|) {
      assert EndKept(ss, at, End(cuts, |at|, |cuts| - 1) - 1);
    }
  }

  lemma EndKeptBefore(cfg: Config, ss: seq<Fields>, at: seq<nat>, m: nat)
    requires Located(cfg, ss, at) && m + 1 < |at|
    ensures EndKept(ss, at, m)
  {
    GapIsSmallHere(cfg, ss, at, m);
    assert To(at, |ss|, m) == at[m] + 1;
  }

  lemma GapIsSmallHere(cfg: Config, ss: seq<Fields>, at: seq<nat>, m: nat)
    requires Located(cfg, ss, at) && m < |at|
    ensures at[m] < |ss|
  {
    assert LargeHere(cfg, ss, at[m]);
  }

  lemma PassagesKeptIffSpan(cfg: Config, ss: seq<Fields>, at: seq<nat>, packed: seq<Fields>, cuts: seq<nat>, n: nat)
    requires Located(cfg, ss, at) && n == MergedCount(at, |ss|) && |cuts| == |packed|
    requires (n == 0 ==> cuts == []) && (n > 0 ==> cuts != [] && cuts[0] == 0)
    requires forall i :: 0 <= i < |cuts| ==> cuts[i] < End(cuts, n, i) <= n
    requires forall i :: 0 <= i < |packed| ==> PassageStands(cfg, ss, at, packed, cuts[i], End(cuts, n, i), i)
    ensures AllPassagesSpan(cfg, ss, at, packed, cuts, n) <==> PassagePagesKept(cfg, ss, at, cuts)
    ensures PagesKept(cfg, ss) ==> PassagePagesKept(cfg, ss, at, cuts)
  {
    SpanIffAllKept(cfg, ss, at, packed, cuts, n);
    KeptIsEnough(cfg, ss, at, cuts);
    hide Located, PassageStands, AllPassagesSpan, AllKept, PagesKept, PassagePagesKept;
    if at == [] {
      FallbackKeptIff(cfg, ss, cuts);
    } else {
      LargeKeptIff(cfg, ss, at, cuts, n);
    }
  }

  lemma KeptIsEnough(cfg: Config, ss: seq<Fields>, at: seq<nat>, cuts: seq<nat>)
    ensures PagesKept(cfg, ss) ==> PassagePagesKept(cfg, ss, at, cuts)
  {
    hide RunBefore, TrailEndsOnPage, HeadsPassage, AllSmall;
    if PagesKept(cfg, ss) {
      forall i: nat, j: nat | RunBefore(cfg, ss, i, j) && HeadsPassage(at, cuts, j)
        ensures i < j < |ss| && ss[i].pageStart == ss[j].pageStart
      {
        RunInside(cfg, ss, i, j);
      }
    }
  }

  lemma LargeKeptIff(cfg: Config, ss: seq<Fields>, at: seq<nat>, cuts: seq<nat>, n: nat)
    requires Located(cfg, ss, at) && at != [] && n == MergedCount(at, |ss|) && (n > 0 ==> cuts != [])
    requires forall i :: 0 <= i < |cuts| ==> cuts[i] < End(cuts, n, i) <= n
    ensures AllKept(ss, at, cuts, n) <==> PassagePagesKept(cfg, ss, at, cuts)
  {
    GapIsSmallHere(cfg, ss, at, 0);
    TrailIsLast(cfg, ss, at, 0);
    hide Located, TrailEndsOnPage, AllSmall, StartKept, EndKept, HeadRunsStartOnPage, StartsAllKept, EndsAllKept;
    assert n == |at| && forall i :: 0 <= i < |cuts| ==> cuts[i] < |at|;
    HeadStartsKept(cfg, ss, at, cuts);
    PassageEndsKept(cfg, ss, at, cuts);
  }

  lemma SpanIffAllKept(cfg: Config, ss: seq<Fields>, at: seq<nat>, packed: seq<Fields>, cuts: seq<nat>, n: nat)
    requires n == MergedCount(at, |ss|) && |cuts| == |packed|
    requires forall i :: 0 <= i < |cuts| ==> cuts[i] < End(cuts, n, i) <= n
    requires forall i :: 0 <= i < |packed| ==> PassageStands(cfg, ss, at, packed, cuts[i], End(cuts, n, i), i)
    ensures AllPassagesSpan(cfg, ss, at, packed, cuts, n) <==> AllKept(ss, at, cuts, n)
  {
    hide StartKept, EndKept, Spans, SourcesOf, Ink, InkOf, Flatten, End, MergedCount;
    forall i | 0 <= i < |packed|
      ensures Spans(packed[i], SourcesOf(at, ss, cuts[i], End(cuts, n, i))) <==>
              StartKept(ss, at, cuts[i]) && EndKept(ss, at, End(cuts, n, i) - 1)
    {
      assert PassageStands(cfg, ss, at, packed, cuts[i], End(cuts, n, i), i);
    }
  }

  lemma FallbackKeptIff(cfg: Config, ss: seq<Fields>, cuts: seq<nat>)
    requires Located(cfg, ss, [])
    requires (ss == [] ==> cuts == []) && (ss != [] ==> cuts != [] && cuts[0] == 0)
    requires forall i :: 0 <= i < |cuts| ==> cuts[i] < End(cuts, MergedCount([], |ss|), i) <= MergedCount([], |ss|)
    ensures AllKept(ss, [], cuts, MergedCount([], |ss|)) <==> PassagePagesKept(cfg, ss, [], cuts)
  {
    forall j: nat ensures !TrailBehind(cfg, ss, j) && AllSmall(cfg, ss) { TrailIsLast(cfg, ss, [], j); }
    hide Located, TrailBehind, AllSmall, RunBefore, StartKept, EndKept;
    if ss != [] {
      OneCut(cuts);
      FallbackKept(ss);
    }
  }

  lemma OneCut(cuts: seq<nat>)
    requires cuts != [] && cuts[0] == 0 && forall i :: 0 <= i < |cuts| ==> cuts[i] < End(cuts, 1, i) <= 1
    ensures |cuts| == 1
  {
    var k := if |cuts| > 1 then 1 else 0;
    assert cuts[k] < End(cuts, 1, k) <= 1 && cuts[0] < End(cuts, 1, 0);
  }

  lemma FallbackKept(ss: seq<Fields>)
    requires ss != []
    ensures StartKept(ss, [], 0) <==> ss[0].pageStart == LastOf(ss).pageStart
    ensures EndKept(ss, [], 0)
  {
  }

  // ------------------------------------------------------------------ a document that loses pages

  const TINY := Config(2, 0, (s: string) => |s|, (c: char) => c == ' ' || c == '\n',
                       (s: string) => [s], (s: string) => false)

  const PAGES: seq<Block> := [
    Block("x", Some("A"), None, Some(1), Some(1)),
    Block("yy", Some("B"), None, Some(2), Some(2)),
    Block("z", Some("C"), None, Some(3), Some(3))]

  function SectionFor(b: Block): Fields { Fields(b.heading, b.anchor, b.pageStart, b.pageEnd, [b.text]) }

  lemma NewGroup(docs: seq<Block>, d: Block)
    requires var ss := Grouped(ByHeading, docs); ss == [] || LastOf(ss).heading != d.heading
    ensures Grouped(ByHeading, docs + [d]) == Grouped(ByHeading, docs) + [SectionFor(d)]
  {
    assert Front(docs + [d]) == docs && LastOf(docs + [d]) == d;
    var ss, f := Grouped(ByHeading, docs), Fields(d.heading, d.anchor, d.pageStart, d.pageEnd, []);
    assert Opened(ByHeading, ss, d) == ss + [f];
    assert Grouped(ByHeading, docs + [d]) == Extended(ss + [f], d.text, d.pageEnd);
    hide Grouped, Opened;
    ExtendNew(ss, f, d.text, d.pageEnd);
    assert [] + [d.text] == [d.text];
  }

  lemma ExtendNew(ss: seq<Fields>, f: Fields, text: string, pageEnd: Option<int>)
    ensures Extended(ss + [f], text, pageEnd) == ss + [f.(parts := f.parts + [text], pageEnd := pageEnd)]
  {
    assert Front(ss + [f]) == ss && LastOf(ss + [f]) == f;
  }

  lemma TinyGroups()
    ensures Grouped(ByHeading, PAGES) == [SectionFor(PAGES[0]), SectionFor(PAGES[1]), SectionFor(PAGES[2])]
  {
    var a, b, c := PAGES[0], PAGES[1], PAGES[2];
    assert "A"[0] != "B"[0] && "B"[0] != "C"[0];
    assert Grouped(ByHeading, []) == [];
    assert [] + [a] == [a] && [a] + [b] == [a, b] && [a, b] + [c] == PAGES;
    hide Grouped;
    NewGroup([], a);
    NewGroup([a], b);
    NewGroup([a, b], c);
  }

  lemma TinyTexts()
    ensures Text(TINY, ["x"]) == "x" && Text(TINY, ["yy"]) == "yy" && Text(TINY, ["z"]) == "z"
  {
    assert ["x"][1..] == [] && ["yy"][1..] == [] && ["z"][1..] == [];
    assert Filter(NonEmpty, ["x"]) == ["x"] && Filter(NonEmpty, ["yy"]) == ["yy"] && Filter(NonEmpty, ["z"]) == ["z"];
  }

  lemma MergeSnoc(cfg: Config, ss: seq<Fields>, f: Fields)
    ensures MergeUpTo(cfg, ss + [f]) ==
            if Small(cfg, f) then MergeUpTo(cfg, ss).(carry := MergeUpTo(cfg, ss).carry + [Text(cfg, f.parts)])
            else Merging(MergeUpTo(cfg, ss).merged + [f.(parts := MergeUpTo(cfg, ss).carry + f.parts)], [])
  {
    assert Front(ss + [f]) == ss && LastOf(ss + [f]) == f;
  }

  lemma TinyMerges(a: Fields, b: Fields, c: Fields)
    requires a.parts == ["x"] && b.parts == ["yy"] && c.parts == ["z"]
    ensures Merged(TINY, [a, b, c]) == [b.(parts := ["x", "yy", "z"])]
  {
    TinyTexts();
    assert Small(TINY, a) && !Small(TINY, b) && Small(TINY, c);
    NoSections(TINY);
    assert [] + [a] == [a] && [a] + [b] == [a, b] && [a, b] + [c] == [a, b, c];
    hide MergeUpTo, Text, Small;
    MergeSnoc(TINY, [], a);
    MergeSnoc(TINY, [a], b);
    MergeSnoc(TINY, [a, b], c);
    var m := b.(parts := ["x"] + ["yy"]);
    assert [] + ["x"] == ["x"] && [] + ["z"] == ["z"] && [] + [m] == [m] && m.parts + ["z"] == ["x", "yy", "z"];
    assert MergeUpTo(TINY, [a]) == Merging([], ["x"]);
    assert MergeUpTo(TINY, [a, b]) == Merging([m], []);
    assert MergeUpTo(TINY, [a, b, c]) == Merging([m], ["z"]);
    assert Front([m]) == [] && LastOf([m]) == m;
  }

  /** Text of pages 1 to 3 in a passage said to be on page 2: the small section in front loses its
      first page, the one behind its last. */
  lemma CarriedPageLost()
    ensures Passages(TINY, PAGES) == [Fields(Some("B"), None, Some(2), Some(2), ["x", "yy", "z"])]
    ensures PAGES[0].pageStart == Some(1) && PAGES[2].pageEnd == Some(3)
  {
    var a, b, c := SectionFor(PAGES[0]), SectionFor(PAGES[1]), SectionFor(PAGES[2]);
    TinyGroups();
    assert AnyHeading(PAGES) by { assert Or(PAGES[0].heading, None).Some?; }
    hide Grouped, Merged;
    TinyMerges(a, b, c);
    var m := b.(parts := ["x", "yy", "z"]);
    assert Front([m]) == [] && Packed(TINY, [m]) == [m];
  }
}
