/** The one normalisation both cache tiers key on. */
module CacheKeys {

  import opened Prelude

  /** Character classes and lower-casing as the platform's string library supplies them.
      `lowered` holds of the characters that lower-casing can produce. */
  datatype Casing = Casing(
    space: char -> bool,
    lowered: char -> bool,
    lower: string -> string)

  /** Lower-casing yields lowered characters and leaves a string of them alone; a space is
      white space and is already lowered. */
  ghost predicate Lawful(c: Casing) {
    && c.space(' ') && c.lowered(' ')
    && (forall s: string :: AllLowered(c, c.lower(s)))
    && (forall s: string :: AllLowered(c, s) ==> c.lower(s) == s)
  }

  ghost predicate AllLowered(c: Casing, s: string) {
    forall ch :: ch in s ==> c.lowered(ch)
  }

  const TRIMMED: string := " ?!.,;:"

  predicate Trimmed(ch: char) { ch in TRIMMED }

  /** Remove leading and trailing characters of a class. */
  function Strip(p: char -> bool, s: string): (r: string)
    ensures forall ch :: ch in r ==> ch in s
    ensures r != [] ==> !p(r[0]) && !p(r[|r| - 1])
    ensures s != [] && !p(s[0]) && !p(s[|s| - 1]) ==> r == s
    ensures NoRuns(s) ==> NoRuns(r)
    decreases |s|
  {
    if s == [] then []
    else if p(s[0]) then Strip(p, s[1..])
    else if p(s[|s| - 1]) then Strip(p, s[..|s| - 1])
    else s
  }

  /** No two neighbouring spaces. */
  predicate NoRuns(s: string) {
    forall i :: 0 <= i < |s| - 1 ==> !(s[i] == ' ' && s[i + 1] == ' ')
  }

  /** The only white space is single spaces. */
  ghost predicate Collapsed(c: Casing, s: string) {
    && NoRuns(s)
    && forall ch :: ch in s && c.space(ch) ==> ch == ' '
  }

  /** Every maximal run of white space becomes one space. */
  function Collapse(c: Casing, s: string): (r: string)
    ensures s == [] ==> r == []
    ensures s != [] ==> r != [] && r[0] == if c.space(s[0]) then ' ' else s[0]
  {
    if s == [] then []
    else if !c.space(s[0]) then [s[0]] + Collapse(c, s[1..])
    else if |s| > 1 && c.space(s[1]) then Collapse(c, s[1..])
    else [' '] + Collapse(c, s[1..])
  }

  lemma {:induction false} CollapseCollapses(c: Casing, s: string)
    requires c.space(' ')
    ensures Collapsed(c, Collapse(c, s))
    ensures c.lowered(' ') && AllLowered(c, s) ==> AllLowered(c, Collapse(c, s))
  {
    if s != [] {
      CollapseCollapses(c, s[1..]);
    }
  }

  lemma {:induction false} CollapseFixes(c: Casing, s: string)
    requires Collapsed(c, s)
    ensures Collapse(c, s) == s
  {
    if s != [] {
      assert Collapsed(c, s[1..]) by {
        assert forall i :: 0 <= i < |s[1..]| ==> s[1..][i] == s[i + 1];
      }
      CollapseFixes(c, s[1..]);
    }
  }

  function Normalize(c: Casing, query: string): string {
    Strip(Trimmed, Collapse(c, c.lower(Strip(c.space, query))))
  }

  predicate All(p: char -> bool, s: string) { forall i :: 0 <= i < |s| ==> p(s[i]) }

  /** `core` is what stands between `i` and `j`, and everything around it is of the class. */
  ghost predicate Between(p: char -> bool, core: string, s: string, i: nat, j: nat) {
    i <= j <= |s| && core == s[i..j] && All(p, s[..i]) && All(p, s[j..])
  }

  /** `core` is `s` with characters of the class taken from its two ends, and as many as there are. */
  ghost predicate Trims(p: char -> bool, core: string, s: string) {
    && (core != [] ==> !p(core[0]) && !p(core[|core| - 1]))
    && exists i, j :: Between(p, core, s, i, j)
  }

  /** Stripping takes characters of the class from the ends and nothing else. */
  lemma {:induction false} StripTrims(p: char -> bool, s: string) returns (i: nat, j: nat)
    ensures Trims(p, Strip(p, s), s) && Between(p, Strip(p, s), s, i, j)
    decreases |s|
  {
    i, j := 0, |s|;
    if s != [] && p(s[0]) {
      i, j := StripTrims(p, s[1..]);
      BetweenAfter(p, Strip(p, s), s, i, j);
      i, j := i + 1, j + 1;
    } else if s != [] && p(s[|s| - 1]) {
      i, j := StripTrims(p, s[..|s| - 1]);
      BetweenBefore(p, Strip(p, s), s, i, j);
    }
    assert Between(p, Strip(p, s), s, i, j);
  }

  lemma BetweenAfter(p: char -> bool, core: string, s: string, i: nat, j: nat)
    requires s != [] && p(s[0]) && Between(p, core, s[1..], i, j)
    ensures Between(p, core, s, i + 1, j + 1)
  {
    assert s[..i + 1] == [s[0]] + s[1..][..i];
    assert s[i + 1..j + 1] == s[1..][i..j] && s[j + 1..] == s[1..][j..];
  }

  lemma BetweenBefore(p: char -> bool, core: string, s: string, i: nat, j: nat)
    requires s != [] && p(s[|s| - 1]) && Between(p, core, s[..|s| - 1], i, j)
    ensures Between(p, core, s, i, j)
  {
    var t := s[..|s| - 1];
    assert s[..i] == t[..i] && s[i..j] == t[i..j];
    assert s[j..] == t[j..] + [s[|s| - 1]];
  }

  /** There is only one way to trim. */
  lemma {:induction false} StripOf(p: char -> bool, core: string, s: string, i: nat, j: nat)
    requires Between(p, core, s, i, j)
    requires core != [] ==> !p(core[0]) && !p(core[|core| - 1])
    ensures Strip(p, s) == core
    decreases |s|
  {
    if i > 0 {
      assert s[0] == s[..i][0];
      assert s[1..][..i - 1] == s[..i][1..];
      assert s[1..][i - 1..j - 1] == s[i..j] && s[1..][j - 1..] == s[j..];
      StripOf(p, core, s[1..], i - 1, j - 1);
    } else if j < |s| {
      var t := s[..|s| - 1];
      assert s[|s| - 1] == s[j..][|s| - 1 - j];
      if core == [] {
        assert j == 0 && s[j..] == s;
        StripOf(p, core, s[1..], 0, 0);
      } else {
        assert s[0] == core[0];
        assert t[..i] == s[..i] && t[i..j] == s[i..j] && t[j..] == s[j..][..|s| - 1 - j];
        StripOf(p, core, t, i, j);
      }
    } else {
      assert core == s;
    }
  }

  lemma TrimIsUnique(p: char -> bool, core: string, s: string)
    ensures Trims(p, core, s) <==> core == Strip(p, s)
  {
    var _, _ := StripTrims(p, s);
    if Trims(p, core, s) {
      var i, j :| Between(p, core, s, i, j);
      StripOf(p, core, s, i, j);
    }
  }

  predicate IsWord(c: Casing, w: string) { w != [] && All(ch => !c.space(ch), w) }

  /** The words of a text: its maximal runs without white space. */
  function Words(c: Casing, s: string): (r: seq<string>)
    ensures forall w :: w in r ==> IsWord(c, w)
    ensures s != [] && !c.space(s[0]) ==> r != []
  {
    if s == [] then []
    else if c.space(s[0]) then Words(c, s[1..])
    else if |s| > 1 && !c.space(s[1]) then
      var rest := Words(c, s[1..]);
      assert rest[0] in rest;
      [[s[0]] + rest[0]] + rest[1..]
    else [[s[0]]] + Words(c, s[1..])
  }

  /** White space before a word is skipped, and the word runs up to the next white space. */
  lemma {:induction false} FirstWord(c: Casing, gap: string, word: string, rest: string)
    requires All(c.space, gap)
    requires All(ch => !c.space(ch), word)
    requires rest != [] ==> c.space(rest[0])
    ensures Words(c, gap + word + rest) == if word == [] then Words(c, rest) else [word] + Words(c, rest)
    decreases |gap| + |word|
  {
    var s := gap + word + rest;
    if gap != [] {
      assert s[1..] == gap[1..] + word + rest;
      FirstWord(c, gap[1..], word, rest);
    } else if |word| > 1 {
      assert s[1..] == [] + word[1..] + rest;
      assert s[1] == word[1];
      FirstWord(c, [], word[1..], rest);
      assert word == [word[0]] + word[1..];
    } else if |word| == 1 {
      assert s[1..] == rest;
      assert word == [word[0]];
    } else {
      assert s == rest;
    }
  }

  lemma {:induction false} BlankHasNoWords(c: Casing, gap: string)
    requires All(c.space, gap)
    ensures Words(c, gap) == []
  {
    if gap != [] {
      BlankHasNoWords(c, gap[1..]);
    }
  }

  /** The words with one space between each two. */
  function Spaced(words: seq<string>): string {
    if words == [] then ""
    else if |words| == 1 then words[0]
    else words[0] + " " + Spaced(words[1..])
  }

  /** The blank, if any, before the first word and after the last. */
  function Lead(c: Casing, s: string): string { if s != [] && c.space(s[0]) then " " else "" }

  function Trail(c: Casing, s: string): string {
    if Words(c, s) != [] && c.space(s[|s| - 1]) then " " else ""
  }

  /** Collapsing keeps every word, in order, one space apart, and a single space at an end that was
      blank. */
  lemma {:induction false} CollapseSpells(c: Casing, s: string)
    ensures Collapse(c, s) == Lead(c, s) + Spaced(Words(c, s)) + Trail(c, s)
  {
    if s == [] {
      return;
    }
    CollapseSpells(c, s[1..]);
    var t := s[1..];
    var ws := Words(c, t);
    if |s| == 1 {
      assert t == [];
    } else {
      assert t[|t| - 1] == s[|s| - 1];
      if !c.space(s[0]) {
        if !c.space(s[1]) {
          SpacedLonger(s[0], ws);
        } else if ws == [] {
          LastIsBlank(c, t);
          assert Words(c, s) == [[s[0]]];
        } else {
          assert Words(c, s)[1..] == ws;
        }
      }
    }
  }

  lemma SpacedLonger(ch: char, ws: seq<string>)
    requires ws != []
    ensures Spaced([[ch] + ws[0]] + ws[1..]) == [ch] + Spaced(ws)
  {
    var longer := [[ch] + ws[0]] + ws[1..];
    assert longer[1..] == ws[1..];
  }

  lemma {:induction false} LastIsBlank(c: Casing, s: string)
    requires s != [] && Words(c, s) == []
    ensures c.space(s[|s| - 1])
  {
    if |s| > 1 {
      assert c.space(s[0]);
      LastIsBlank(c, s[1..]);
    }
  }

  /** The words of a spaced list are the list. */
  lemma {:induction false} WordsOfSpaced(c: Casing, words: seq<string>)
    requires c.space(' ')
    requires forall w :: w in words ==> IsWord(c, w)
    ensures Words(c, Spaced(words)) == words
  {
    if |words| == 1 {
      assert IsWord(c, words[0]);
      FirstWord(c, "", words[0], "");
      assert "" + words[0] + "" == words[0];
      assert [words[0]] == words;
    } else if |words| > 1 {
      var tail := Spaced(words[1..]);
      WordsOfSpaced(c, words[1..]);
      assert IsWord(c, words[0]);
      FirstWord(c, "", words[0], " " + tail);
      assert "" + words[0] + (" " + tail) == Spaced(words);
      assert (" " + tail)[1..] == tail;
      assert [words[0]] + words[1..] == words;
    }
  }

  /** The words somebody asked, lower-cased. */
  function Asked(c: Casing, query: string): seq<string> {
    Words(c, c.lower(Strip(c.space, query)))
  }

  /** The key keeps every word of the question: it is the lowered words one space apart, less the
      spaces and the punctuation at the two ends. */
  lemma KeyIsWords(c: Casing, query: string)
    requires c.space(' ')
    ensures Trims(Trimmed, Normalize(c, query), Spaced(Asked(c, query)))
  {
    var low := c.lower(Strip(c.space, query));
    var words := Asked(c, query);
    CollapseSpells(c, low);
    assert Trimmed(' ') by { assert TRIMMED[0] == ' '; }
    StripPadded(Trimmed, Lead(c, low), Spaced(words), Trail(c, low));
    var _, _ := StripTrims(Trimmed, Spaced(words));
  }

  lemma BetweenPadded(p: char -> bool, core: string, lead: string, s: string, trail: string, i: nat, j: nat)
    requires All(p, lead) && All(p, trail) && Between(p, core, s, i, j)
    ensures Between(p, core, lead + s + trail, |lead| + i, |lead| + j)
  {
    hide Strip, All;
    var whole := lead + s + trail;
    assert whole[|lead| + i..|lead| + j] == s[i..j];
    assert whole[..|lead| + i] == lead + s[..i];
    assert whole[|lead| + j..] == s[j..] + trail;
    AllConcat(p, lead, s[..i]);
    AllConcat(p, s[j..], trail);
  }

  lemma AllConcat(p: char -> bool, a: string, b: string)
    requires All(p, a) && All(p, b)
    ensures All(p, a + b)
  {
  }

  /** Characters of the class around a text do not change what stripping leaves. */
  lemma StripPadded(p: char -> bool, lead: string, s: string, trail: string)
    requires All(p, lead) && All(p, trail)
    ensures Strip(p, lead + s + trail) == Strip(p, s)
  {
    hide Strip;
    var i, j := StripTrims(p, s);
    BetweenPadded(p, Strip(p, s), lead, s, trail, i, j);
    StripOf(p, Strip(p, s), lead + s + trail, |lead| + i, |lead| + j);
  }

  /** The same words, once what is trimmed at the two ends is gone. */
  ghost predicate SameWords(u: seq<string>, v: seq<string>) {
    exists core :: Trims(Trimmed, core, Spaced(u)) && Trims(Trimmed, core, Spaced(v))
  }

  /** Two questions share a key exactly when their lowered words agree up to trimmed characters at
      the ends. */
  lemma SameKeyExactly(c: Casing, q1: string, q2: string)
    requires c.space(' ')
    ensures Normalize(c, q1) == Normalize(c, q2)
      <==> SameWords(Asked(c, q1), Asked(c, q2))
  {
    KeyIsWords(c, q1);
    KeyIsWords(c, q2);
    forall core | Trims(Trimmed, core, Spaced(Asked(c, q1)))
                  && Trims(Trimmed, core, Spaced(Asked(c, q2)))
      ensures Normalize(c, q1) == Normalize(c, q2)
    {
      var p := Trimmed;
      TrimIsUnique(p, core, Spaced(Asked(c, q1)));
      TrimIsUnique(p, core, Spaced(Asked(c, q2)));
      TrimIsUnique(p, Normalize(c, q1), Spaced(Asked(c, q1)));
      TrimIsUnique(p, Normalize(c, q2), Spaced(Asked(c, q2)));
    }
  }

  /** Collapsing keeps the words, and so every character that is not white space, in order. */
  lemma CollapseKeepsWords(c: Casing, s: string)
    requires c.space(' ')
    ensures Words(c, Collapse(c, s)) == Words(c, s)
    ensures Filter((ch: char) => !c.space(ch), Collapse(c, s)) == Filter((ch: char) => !c.space(ch), s)
  {
    CollapseSpells(c, s);
    var words := Words(c, s);
    var flat := Collapse(c, s);
    if words == [] {
      BlankHasNoWords(c, flat);
    } else {
      WordsOfSpaced(c, words);
      WordsPadded(c, Lead(c, s), Spaced(words), Trail(c, s));
    }
    WordsAreInk(c, flat);
    WordsAreInk(c, s);
  }

  /** Blank ends add no word. */
  lemma {:induction false} WordsPadded(c: Casing, lead: string, s: string, trail: string)
    requires All(c.space, lead)
    requires All(c.space, trail)
    ensures Words(c, lead + s + trail) == Words(c, s)
    decreases |lead| + |s|
  {
    var whole := lead + s + trail;
    if lead != [] {
      assert whole[1..] == lead[1..] + s + trail;
      WordsPadded(c, lead[1..], s, trail);
    } else if s != [] {
      assert whole[1..] == [] + s[1..] + trail;
      WordsPadded(c, [], s[1..], trail);
      if |s| == 1 && trail != [] {
        assert whole[1] == trail[0];
      }
    } else {
      assert whole == trail;
      BlankHasNoWords(c, trail);
    }
  }

  /** The words are all the characters that are not white space, in order. */
  lemma {:induction false} WordsAreInk(c: Casing, s: string)
    ensures Flatten(Words(c, s)) == Filter((ch: char) => !c.space(ch), s)
  {
    if s != [] {
      WordsAreInk(c, s[1..]);
      var rest := Words(c, s[1..]);
      if !c.space(s[0]) && |s| > 1 && !c.space(s[1]) {
        assert Words(c, s)[1..] == rest[1..];
      } else if !c.space(s[0]) {
        assert Words(c, s)[1..] == rest;
      }
    }
  }

  /** What every normalised question looks like. */
  ghost predicate Canonical(c: Casing, s: string) {
    && Collapsed(c, s)
    && AllLowered(c, s)
    && (s != [] ==> s[0] !in TRIMMED && s[|s| - 1] !in TRIMMED)
  }

  lemma NormalizeIsCanonical(c: Casing, query: string)
    requires Lawful(c)
    ensures Canonical(c, Normalize(c, query))
  {
    var low := c.lower(Strip(c.space, query));
    var flat := Collapse(c, low);
    CollapseCollapses(c, low);
    assert AllLowered(c, flat);
    assert Normalize(c, query) == Strip(Trimmed, flat);
  }

  lemma CanonicalIsFixed(c: Casing, s: string)
    requires Lawful(c) && Canonical(c, s)
    ensures Normalize(c, s) == s
  {
    if s != [] {
      assert ' ' in TRIMMED by { assert TRIMMED[0] == ' '; }
      assert !c.space(s[0]) && !c.space(s[|s| - 1]);
    }
    assert Strip(c.space, s) == s;
    CollapseFixes(c, s);
  }

  /** Normalising twice is normalising once, so a stored question names its own key. */
  lemma NormalizeIdempotent(c: Casing, query: string)
    requires Lawful(c)
    ensures Normalize(c, Normalize(c, query)) == Normalize(c, query)
  {
    NormalizeIsCanonical(c, query);
    CanonicalIsFixed(c, Normalize(c, query));
  }

  /** The normal forms are exactly the strings normalisation leaves alone. */
  lemma FixedIffCanonical(c: Casing, s: string)
    requires Lawful(c)
    ensures Normalize(c, s) == s <==> Canonical(c, s)
  {
    NormalizeIsCanonical(c, s);
    if Canonical(c, s) {
      CanonicalIsFixed(c, s);
    }
  }
}
