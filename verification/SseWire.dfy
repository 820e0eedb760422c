/** The server-sent-events wire: one frame per event on the server, an incremental reader over
    arbitrary chunks on the client. */
module SseWire {
  import opened Prelude

  /** A named event carrying a JSON object. */
  datatype Frame<D> = Frame(event: string, data: D)

  /** JSON as both ends see it: the printer, the parser, and the object `{}`. */
  datatype Codec<!D> = Codec(dumps: D -> string, loads: string -> Option<D>, empty: D)

  /** JavaScript white space and line terminators. */
  predicate IsSpace(c: char) {
    || '\t' <= c <= '\r' || c == ' ' || c == '\U{00A0}' || c == '\U{1680}' || '\U{2000}' <= c <= '\U{200A}'
    || c == '\U{2028}' || c == '\U{2029}' || c == '\U{202F}' || c == '\U{205F}' || c == '\U{3000}' || c == '\U{FEFF}'
  }

  function TrimRight(s: string): (r: string)
    ensures r <= s
    ensures r != [] ==> !IsSpace(r[|r| - 1])
    ensures s != [] && !IsSpace(s[|s| - 1]) ==> r == s
    ensures forall i :: |r| <= i < |s| ==> IsSpace(s[i])
  {
    if s == [] || !IsSpace(s[|s| - 1]) then s else TrimRight(s[..|s| - 1])
  }

  function TrimLeft(s: string): (r: string)
    ensures s != [] && !IsSpace(s[0]) ==> r == s
  {
    if s == [] || !IsSpace(s[0]) then s else TrimLeft(s[1..])
  }

  /** Exactly the leading white space goes. */
  lemma {:induction false} TrimLeftIs(s: string) returns (gap: string)
    ensures s == gap + TrimLeft(s) && (forall c :: c in gap ==> IsSpace(c))
    ensures TrimLeft(s) != [] ==> !IsSpace(TrimLeft(s)[0])
  {
    hide IsSpace;
    gap := [];
    if s != [] && IsSpace(s[0]) {
      var rest := TrimLeftIs(s[1..]);
      gap := [s[0]] + rest;
      assert s == [s[0]] + s[1..];
    }
  }

  function Trim(s: string): string { TrimLeft(TrimRight(s)) }

  /** Neither end is white space. */
  ghost predicate Tight(s: string) {
    s != [] && !IsSpace(s[0]) && !IsSpace(s[|s| - 1])
  }

  ghost predicate OneLine(s: string) { '\n' !in s }

  /** Printing an object gives one line that parses back, starting and ending on its braces, and no
      proper prefix of it is JSON. */
  ghost predicate Faithful<D(!new)>(codec: Codec<D>) {
    forall d: D ::
      var text := codec.dumps(d);
      && OneLine(text) && Tight(text) && codec.loads(text) == Some(d)
      && forall k :: 0 < k < |text| ==> codec.loads(text[..k]) == None
  }

  /** The event names of the contract are single words. */
  ghost predicate Named<D>(f: Frame<D>) {
    f.event != [] && forall c :: c in f.event ==> !IsSpace(c)
  }

  const EVENT: string := "event: "
  const DATA: string := "data: "

  function Body<D>(codec: Codec<D>, f: Frame<D>): string {
    EVENT + f.event + "\n" + DATA + codec.dumps(f.data)
  }

  function Encode<D>(codec: Codec<D>, f: Frame<D>): string {
    Body(codec, f) + "\n\n"
  }

  /** One frame on the wire. */
  lemma WireFormat<D(!new)>(codec: Codec<D>, f: Frame<D>)
    ensures Encode(codec, f) == "event: " + f.event + "\ndata: " + codec.dumps(f.data) + "\n\n"
  {
    var e, d := f.event, codec.dumps(f.data);
    assert "event: " + e + "\n" + "data: " + d == "event: " + e + "\ndata: " + d;
  }

  function EncodeAll<D>(codec: Codec<D>, fs: seq<Frame<D>>): string {
    if fs == [] then "" else Encode(codec, fs[0]) + EncodeAll(codec, fs[1..])
  }

  // ------------------------------------------------------------------ splitting on blank lines

  /** A blank line starts here. */
  predicate BlankAt(s: string, i: nat) {
    i + 1 < |s| && s[i] == '\n' && s[i + 1] == '\n'
  }

  /** The first blank line, or the length when there is none. */
  function FirstBlank(s: string): (i: nat)
    ensures i <= |s|
    ensures i < |s| ==> BlankAt(s, i)
    ensures forall j: nat :: j < i ==> !BlankAt(s, j)
    ensures i == |s| ==> forall j: nat :: !BlankAt(s, j)
  {
    if s == [] then 0
    else if BlankAt(s, 0) then 0
    else
      var k := FirstBlank(s[1..]);
      assert forall j: nat :: j > 0 ==> (BlankAt(s, j) <==> BlankAt(s[1..], j - 1));
      1 + k
  }

  /** Complete frames, and the unfinished remainder. */
  datatype Drained = Drained(frames: seq<string>, rest: string)

  function Drain(s: string): Drained
    decreases |s|
  {
    var i := FirstBlank(s);
    if i == |s| then Drained([], s)
    else
      var more := Drain(s[i + 2..]);
      Drained([s[..i]] + more.frames, more.rest)
  }

  /** The first blank line ends the first frame. */
  lemma DrainAt(s: string, i: nat)
    requires BlankAt(s, i) && forall j: nat :: j < i ==> !BlankAt(s, j)
    ensures Drain(s) == Drained([s[..i]] + Drain(s[i + 2..]).frames, Drain(s[i + 2..]).rest)
  {
    assert FirstBlank(s) == i;
  }

  lemma DrainNone(s: string)
    requires FirstBlank(s) == |s|
    ensures Drain(s) == Drained([], s)
  {
  }

  lemma DrainOne(body: string, rest: string)
    requires forall j: nat :: j < |body| ==> !BlankAt(body + "\n\n" + rest, j)
    ensures Drain(body + "\n\n" + rest) == Drained([body] + Drain(rest).frames, Drain(rest).rest)
  {
    var s := body + "\n\n" + rest;
    assert BlankAt(s, |body|);
    DrainAt(s, |body|);
    assert s[..|body|] == body && s[|body| + 2..] == rest;
  }

  /** Draining what has arrived and later the remainder with the next text is draining all of it. */
  lemma {:induction false} DrainConcat(a: string, b: string)
    ensures Drain(a + b) == Drained(Drain(a).frames + Drain(Drain(a).rest + b).frames, Drain(Drain(a).rest + b).rest)
    decreases |a|
  {
    hide Drain;
    var i := FirstBlank(a);
    if i == |a| {
      DrainNone(a);
    } else {
      forall j: nat | j < i ensures !BlankAt(a + b, j) {
        assert !BlankAt(a, j);
      }
      DrainAt(a, i);
      DrainAt(a + b, i);
      assert (a + b)[..i] == a[..i] && (a + b)[i + 2..] == a[i + 2..] + b;
      DrainConcat(a[i + 2..], b);
    }
  }

  // ------------------------------------------------------------------ parsing a frame

  function Lines(s: string): (r: seq<string>)
    ensures r != []
  {
    if s == [] then [""]
    else
      var more := Lines(s[1..]);
      if s[0] == '\n' then [""] + more else [[s[0]] + more[0]] + more[1..]
  }

  lemma {:induction false} LinesOfOne(s: string)
    requires OneLine(s)
    ensures Lines(s) == [s]
  {
    if s != [] {
      assert OneLine(s[1..]);
      LinesOfOne(s[1..]);
      assert [s[0]] + s[1..] == s;
    }
  }

  lemma {:induction false} LinesOfTwo(a: string, b: string)
    requires OneLine(a) && OneLine(b)
    ensures Lines(a + "\n" + b) == [a, b]
  {
    var s := a + "\n" + b;
    if a == [] {
      assert s[1..] == b;
      LinesOfOne(b);
    } else {
      assert s[1..] == a[1..] + "\n" + b;
      LinesOfTwo(a[1..], b);
      assert [a[0]] + a[1..] == a;
    }
  }

  /** The event name and data text a frame's lines leave behind: the last of each wins. */
  function Fields(lines: seq<string>): (string, string) {
    if lines == [] then ("", "")
    else
      var line, (event, data) := lines[|lines| - 1], Fields(lines[..|lines| - 1]);
      if EVENT <= line then (Trim(line[|EVENT|..]), data)
      else if DATA <= line then (event, line[|DATA|..])
      else (event, data)
  }

  /** A line break ends a line, and the next one starts behind it. */
  lemma {:induction false} FirstLine(a: string, rest: string)
    requires OneLine(a)
    ensures Lines(a + "\n" + rest) == [a] + Lines(rest)
  {
    var s := a + "\n" + rest;
    if a == [] {
      assert s[1..] == rest;
    } else {
      assert s[1..] == a[1..] + "\n" + rest;
      assert OneLine(a[1..]);
      FirstLine(a[1..], rest);
      assert [a[0]] + a[1..] == a;
    }
  }

  /** The line names the event, or else carries the data. */
  predicate NameLine(line: string) { "event: " <= line }

  predicate DataLine(line: string) { "data: " <= line && !NameLine(line) }

  /** Of several names the last counts, and of several data lines the last one. */
  lemma {:induction false} LastLineCounts(lines: seq<string>, k: nat)
    requires k < |lines|
    ensures NameLine(lines[k]) && (forall j :: k < j < |lines| ==> !NameLine(lines[j])) ==>
              Fields(lines).0 == Trim(lines[k][7..])
    ensures DataLine(lines[k]) && (forall j :: k < j < |lines| ==> !DataLine(lines[j])) ==>
              Fields(lines).1 == lines[k][6..]
    ensures (forall j :: 0 <= j < |lines| ==> !NameLine(lines[j])) ==> Fields(lines).0 == ""
    ensures (forall j :: 0 <= j < |lines| ==> !DataLine(lines[j])) ==> Fields(lines).1 == ""
  {
    hide Trim;
    var init := lines[..|lines| - 1];
    assert forall j :: 0 <= j < |init| ==> init[j] == lines[j];
    if init != [] { LastLineCounts(init, if k < |init| then k else 0); }
  }

  /** What a frame text denotes: nothing without a name or with broken JSON. */
  function Meaning<D>(codec: Codec<D>, text: string): Option<Frame<D>> {
    var (event, data) := Fields(Lines(text));
    if event == "" then None
    else if data == "" then Some(Frame(event, codec.empty))
    else
      match codec.loads(data)
      case Some(d) => Some(Frame(event, d))
      case None => None
  }

  method ParseFrame<D>(codec: Codec<D>, text: string) returns (frame: Option<Frame<D>>)
    ensures frame == Meaning(codec, text)
  {
    var event, data := "", "";
    var lines := Lines(text);
    for n := 0 to |lines|
      invariant (event, data) == Fields(lines[..n])
    {
      var line := lines[n];
      assert lines[..n + 1][..n] == lines[..n];
      if EVENT <= line {
        event := Trim(line[|EVENT|..]);
      } else if DATA <= line {
        data := line[|DATA|..];
      }
    }
    assert lines[..|lines|] == lines;
    if event == "" { return None; }
    if data == "" { return Some(Frame(event, codec.empty)); }
    match codec.loads(data) {
      case Some(d) => frame := Some(Frame(event, d));
      case None => frame := None;
    }
  }

  function Meanings<D>(codec: Codec<D>, texts: seq<string>): seq<Frame<D>> {
    if texts == [] then []
    else (match Meaning(codec, texts[0]) case Some(f) => [f] case None => []) + Meanings(codec, texts[1..])
  }

  lemma {:induction false} MeaningsConcat<D>(codec: Codec<D>, a: seq<string>, b: seq<string>)
    ensures Meanings(codec, a + b) == Meanings(codec, a) + Meanings(codec, b)
  {
    if a == [] {
      assert a + b == b;
    } else {
      assert (a + b)[1..] == a[1..] + b;
      MeaningsConcat(codec, a[1..], b);
    }
  }

  /** What a whole body denotes, however it was cut: its complete frames, then its tail. */
  function Reading<D>(codec: Codec<D>, text: string): seq<Frame<D>> {
    Meanings(codec, Drain(text).frames) + Meanings(codec, [Trim(Drain(text).rest)])
  }

  lemma OneMeaning<D>(codec: Codec<D>, text: string)
    ensures Meanings(codec, [text]) == match Meaning(codec, text) case Some(f) => [f] case None => []
  {
    assert Meanings(codec, [text][1..]) == [];
  }

  lemma MeaningsSnoc<D>(codec: Codec<D>, texts: seq<string>, text: string)
    ensures Meanings(codec, texts + [text]) ==
            Meanings(codec, texts) + (match Meaning(codec, text) case Some(f) => [f] case None => [])
  {
    MeaningsConcat(codec, texts, [text]);
    OneMeaning(codec, text);
  }

  /** Parse the frames of one read. */
  method ParseFrames<D>(codec: Codec<D>, texts: seq<string>) returns (frames: seq<Frame<D>>)
    ensures frames == Meanings(codec, texts)
  {
    frames := [];
    assert texts[..0] == [];
    hide Meaning;
    for i := 0 to |texts|
      invariant frames == Meanings(codec, texts[..i])
    {
      assert texts[..i + 1] == texts[..i] + [texts[i]];
      MeaningsSnoc(codec, texts[..i], texts[i]);
      var frame := ParseFrame(codec, texts[i]);
      if frame.Some? { frames := frames + [frame.value]; }
    }
    assert texts[..|texts|] == texts;
  }

  /** The read loop: append a chunk, drain what is complete, keep the rest. */
  method AskStream<D>(codec: Codec<D>, chunks: seq<string>) returns (yielded: seq<Frame<D>>)
    ensures yielded == Reading(codec, Flatten(chunks))
  {
    yielded := [];
    var buffer := "";
    hide Meaning, Meanings, Drain;
    assert chunks[..0] == [];
    assert Drain("") == Drained([], "") && Meanings(codec, []) == [] by {
      NothingDrains(codec);
    }
    for n := 0 to |chunks|
      invariant yielded == Meanings(codec, Drain(Flatten(chunks[..n])).frames)
      invariant buffer == Drain(Flatten(chunks[..n])).rest
    {
      assert chunks[..n + 1] == chunks[..n] + [chunks[n]];
      FlattenSnoc(chunks[..n], chunks[n]);
      DrainConcat(Flatten(chunks[..n]), chunks[n]);
      var drained := Drain(buffer + chunks[n]);
      MeaningsConcat(codec, Drain(Flatten(chunks[..n])).frames, drained.frames);
      buffer := drained.rest;
      var arrived := ParseFrames(codec, drained.frames);
      yielded := yielded + arrived;
    }
    assert chunks[..|chunks|] == chunks;
    var tail := ParseFrames(codec, [Trim(buffer)]);
    yielded := yielded + tail;
  }

  lemma NothingDrains<D>(codec: Codec<D>)
    ensures Drain("") == Drained([], "") && Meanings(codec, []) == []
  {
  }

  // ------------------------------------------------------------------ round trip

  lemma BodyHasNoBlank<D(!new)>(codec: Codec<D>, f: Frame<D>, rest: string)
    requires Faithful(codec) && Named(f)
    ensures forall j: nat :: j < |Body(codec, f)| ==> !BlankAt(Body(codec, f) + "\n\n" + rest, j)
  {
    var json := codec.dumps(f.data);
    assert OneLine(json) && Tight(json);
    var s := Body(codec, f) + "\n\n" + rest;
    var cut := |EVENT| + |f.event|;
    forall j: nat | j < |Body(codec, f)| ensures !BlankAt(s, j) {
      if j < |EVENT| {
        assert s[j] == EVENT[j];
      } else if j < cut {
        assert s[j] == f.event[j - |EVENT|] && f.event[j - |EVENT|] in f.event;
      } else if j == cut {
        assert s[j + 1] == 'd';
      } else if j < cut + 1 + |DATA| {
        assert s[j] == DATA[j - cut - 1];
      } else {
        assert s[j] == json[j - cut - 1 - |DATA|];
      }
    }
  }

  lemma FieldsOfOne(a: string)
    ensures EVENT <= a ==> Fields([a]) == (Trim(a[|EVENT|..]), "")
    ensures !(EVENT <= a) && !(DATA <= a) ==> Fields([a]) == ("", "")
  {
    var lines := [a];
    assert |lines[..0]| == 0;
  }

  lemma FieldsOfTwo(a: string, b: string)
    requires EVENT <= a && !(EVENT <= b)
    ensures Fields([a, b]) == (Trim(a[|EVENT|..]), if DATA <= b then b[|DATA|..] else "")
  {
    FieldsOfOne(a);
    assert [a, b][..1] == [a];
  }

  lemma NotAnEvent(b: string)
    requires DATA <= b
    ensures !(EVENT <= b)
  {
    assert b[0] == DATA[0] && EVENT[0] != DATA[0];
  }

  lemma BodyMeans<D(!new)>(codec: Codec<D>, f: Frame<D>)
    requires Faithful(codec) && Named(f)
    ensures Meaning(codec, Body(codec, f)) == Some(f)
  {
    var a, b := EVENT + f.event, DATA + codec.dumps(f.data);
    assert OneLine(codec.dumps(f.data)) && Tight(codec.dumps(f.data));
    assert codec.loads(codec.dumps(f.data)) == Some(f.data);
    assert Body(codec, f) == a + "\n" + b;
    LinesOfTwo(a, b);
    NotAnEvent(b);
    FieldsOfTwo(a, b);
    assert Trim(f.event) == f.event;
    assert a[|EVENT|..] == f.event && b[|DATA|..] == codec.dumps(f.data);
  }

  lemma DrainEncoded<D(!new)>(codec: Codec<D>, f: Frame<D>, rest: string)
    requires Faithful(codec) && Named(f)
    ensures Drain(Encode(codec, f) + rest) == Drained([Body(codec, f)] + Drain(rest).frames, Drain(rest).rest)
  {
    BodyHasNoBlank(codec, f, rest);
    DrainOne(Body(codec, f), rest);
    assert Encode(codec, f) + rest == Body(codec, f) + "\n\n" + rest;
  }

  lemma ReadingAfter<D(!new)>(codec: Codec<D>, f: Frame<D>, more: string)
    requires Faithful(codec) && Named(f)
    ensures Reading(codec, Encode(codec, f) + more) == [f] + Reading(codec, more)
  {
    hide *;
    DrainEncoded(codec, f, more);
    BodyMeans(codec, f);
    OneMeaning(codec, Body(codec, f));
    MeaningsConcat(codec, [Body(codec, f)], Drain(more).frames);
    ReadingIs(codec, more);
    ReadingIs(codec, Encode(codec, f) + more);
    Associative([f], Meanings(codec, Drain(more).frames), Meanings(codec, [Trim(Drain(more).rest)]));
  }

  lemma ReadingIs<D(!new)>(codec: Codec<D>, text: string)
    ensures Reading(codec, text) == Meanings(codec, Drain(text).frames) + Meanings(codec, [Trim(Drain(text).rest)])
  {
  }

  /** A stream of whole frames followed by anything reads as those frames followed by that. */
  lemma {:induction false} ReadingEncoded<D(!new)>(codec: Codec<D>, fs: seq<Frame<D>>, rest: string)
    requires Faithful(codec) && forall f :: f in fs ==> Named(f)
    ensures Reading(codec, EncodeAll(codec, fs) + rest) == fs + Reading(codec, rest)
  {
    hide Reading, Encode, Faithful, Named;
    if fs == [] {
      assert EncodeAll(codec, fs) + rest == rest;
    } else {
      var more := EncodeAll(codec, fs[1..]) + rest;
      assert EncodeAll(codec, fs) + rest == Encode(codec, fs[0]) + more;
      ReadingEncoded(codec, fs[1..], rest);
      ReadingAfter(codec, fs[0], more);
    }
  }

  lemma NothingReads<D>(codec: Codec<D>)
    ensures Reading(codec, "") == []
  {
    assert Trim("") == "";
    assert OneLine("") && !(EVENT <= "") && !(DATA <= "");
    ShortMeansNothing(codec, "");
    OneMeaning(codec, "");
    NothingDrains(codec);
  }

  /** Every event list comes back exactly, however the network cut it. */
  lemma RoundTrip<D(!new)>(codec: Codec<D>, fs: seq<Frame<D>>, chunks: seq<string>)
    requires Faithful(codec) && (forall f :: f in fs ==> Named(f))
    requires Flatten(chunks) == EncodeAll(codec, fs)
    ensures Reading(codec, Flatten(chunks)) == fs
  {
    ReadingEncoded(codec, fs, "");
    assert EncodeAll(codec, fs) + "" == EncodeAll(codec, fs);
    NothingReads(codec);
  }

  // ------------------------------------------------------------------ a stream that stops anywhere

  /** What the flush of the tail makes of the first `m` characters of a frame. */
  function Stub<D>(f: Frame<D>, m: nat, codec: Codec<D>): seq<Frame<D>> {
    var named := |EVENT| + |f.event|;
    if m <= |EVENT| then []
    else if m <= named then [Frame(f.event[..m - |EVENT|], codec.empty)]
    else if m <= named + 1 + |DATA| then [Frame(f.event, codec.empty)]
    else if m < |Body(codec, f)| then []
    else [f]
  }

  lemma {:induction false} TrimRightAfter(u: string, v: string)
    requires TrimRight(v) != []
    ensures TrimRight(u + v) == u + TrimRight(v)
    decreases |v|
  {
    var s := u + v;
    if IsSpace(v[|v| - 1]) {
      assert s[..|s| - 1] == u + v[..|v| - 1];
      TrimRightAfter(u, v[..|v| - 1]);
    }
  }

  lemma TrimFrom(u: string, v: string)
    requires TrimRight(v) != [] && u != [] && !IsSpace(u[0])
    ensures Trim(u + v) == u + TrimRight(v)
  {
    TrimRightAfter(u, v);
  }

  /** A text on one line too short for a name and no data line. */
  lemma ShortMeansNothing<D>(codec: Codec<D>, x: string)
    requires OneLine(x) && !(EVENT <= x) && !(DATA <= x)
    ensures Meaning(codec, x) == None
  {
    LinesOfOne(x);
    FieldsOfOne(x);
  }

  lemma NameAlone<D>(codec: Codec<D>, name: string)
    requires name != [] && forall c :: c in name ==> !IsSpace(c)
    ensures Trim(EVENT + name) == EVENT + name
    ensures Meaning(codec, EVENT + name) == Some(Frame(name, codec.empty))
  {
    var x := EVENT + name;
    assert TrimRight(name) == name;
    TrimFrom(EVENT, name);
    LinesOfOne(x);
    FieldsOfOne(x);
    assert x[|EVENT|..] == name && Trim(name) == name;
  }

  lemma NameThenNoData<D>(codec: Codec<D>, name: string, x: string)
    requires name != [] && (forall c :: c in name ==> !IsSpace(c))
    requires OneLine(x) && !(EVENT <= x) && !(DATA <= x)
    ensures Meaning(codec, EVENT + name + "\n" + x) == Some(Frame(name, codec.empty))
  {
    var a := EVENT + name;
    assert a + "\n" + x == EVENT + name + "\n" + x;
    LinesOfTwo(a, x);
    FieldsOfTwo(a, x);
    assert a[|EVENT|..] == name && Trim(name) == name;
  }

  lemma NameThenBrokenData<D>(codec: Codec<D>, name: string, data: string)
    requires name != [] && (forall c :: c in name ==> !IsSpace(c))
    requires OneLine(data) && data != [] && codec.loads(data) == None
    ensures Meaning(codec, EVENT + name + "\n" + DATA + data) == None
  {
    var a, b := EVENT + name, DATA + data;
    assert a + "\n" + b == EVENT + name + "\n" + DATA + data;
    LinesOfTwo(a, b);
    NotAnEvent(b);
    FieldsOfTwo(a, b);
    assert b[|DATA|..] == data && a[|EVENT|..] == name;
    assert Trim(name) == name;
  }

  /** The event line is cut. */
  lemma StubInEvent<D(!new)>(codec: Codec<D>, f: Frame<D>, m: nat)
    requires Faithful(codec) && Named(f) && m <= |EVENT| + |f.event|
    ensures Meanings(codec, [Trim(Encode(codec, f)[..m])]) == Stub(f, m, codec)
  {
    var t := Encode(codec, f)[..m];
    if m <= |EVENT| {
      assert t == EVENT[..m];
      var x := Trim(t);
      assert x == EVENT[..if m < 6 then m else 6] by {
        if m == |EVENT| {
          assert t[|t| - 1] == ' ';
          assert t[..6] == EVENT[..6];
          assert EVENT[5] == ':' && EVENT[0] == 'e';
        } else if m > 0 {
          assert t[|t| - 1] == EVENT[m - 1] && t[0] == 'e';
        }
      }
      assert !(DATA <= x) by { if |x| > 0 { assert x[0] == 'e' && DATA[0] == 'd'; } }
      ShortMeansNothing(codec, x);
    } else {
      var name := f.event[..m - |EVENT|];
      assert t == EVENT + name;
      NameAlone(codec, name);
    }
  }

  /** The cut falls between the name and the JSON. */
  lemma StubBeforeData<D(!new)>(codec: Codec<D>, f: Frame<D>, m: nat)
    requires Faithful(codec) && Named(f) && |EVENT| + |f.event| < m <= |EVENT| + |f.event| + 1 + |DATA|
    ensures Meanings(codec, [Trim(Encode(codec, f)[..m])]) == Stub(f, m, codec)
  {
    var t, a, j := Encode(codec, f)[..m], EVENT + f.event, m - |EVENT| - |f.event| - 1;
    assert t == (a + "\n") + DATA[..j];
    NameAlone(codec, f.event);
    OneMeaning(codec, Trim(t));
    if j == 0 {
      assert t == a + "\n" && t[..|t| - 1] == a;
      assert !IsSpace(a[0]) && !IsSpace(a[|a| - 1]) by { assert f.event[|f.event| - 1] in f.event; }
      assert TrimRight(t) == a;
    } else {
      var x := CutDataLine(j);
      hide Fields, Lines, Meaning, Meanings, Encode, Faithful;
      TrimFrom(a + "\n", DATA[..j]);
      assert Trim(t) == EVENT + f.event + "\n" + x;
      NameThenNoData(codec, f.event, x);
    }
  }

  lemma CutDataLine(j: nat) returns (x: string)
    requires 0 < j <= |DATA|
    ensures x != [] && x == TrimRight(DATA[..j]) && OneLine(x) && !(EVENT <= x) && !(DATA <= x)
  {
    x := DATA[..if j < 5 then j else 5];
    assert x[0] == 'd' && DATA[4] == ':' && EVENT[0] == 'e';
    if j == |DATA| { assert DATA[..6][..5] == x; }
  }

  /** The JSON is cut. */
  lemma StubInData<D(!new)>(codec: Codec<D>, f: Frame<D>, m: nat)
    requires Faithful(codec) && Named(f) && |EVENT| + |f.event| + 1 + |DATA| < m < |Body(codec, f)|
    ensures Meanings(codec, [Trim(Encode(codec, f)[..m])]) == []
  {
    var json := codec.dumps(f.data);
    var u, k := EVENT + f.event + "\n" + DATA, m - |EVENT| - |f.event| - 1 - |DATA|;
    assert OneLine(json) && Tight(json);
    assert Encode(codec, f)[..m] == u + json[..k];
    var x := TrimRight(json[..k]);
    assert json[..k][0] == json[0] && !IsSpace(json[0]);
    TrimFrom(u, json[..k]);
    assert x == json[..|x|] && codec.loads(json[..|x|]) == None;
    NameThenBrokenData(codec, f.event, x);
    assert u + x == EVENT + f.event + "\n" + DATA + x;
  }

  /** Only the blank line is missing. */
  lemma StubAfterData<D(!new)>(codec: Codec<D>, f: Frame<D>, m: nat)
    requires Faithful(codec) && Named(f) && |Body(codec, f)| <= m < |Encode(codec, f)|
    ensures Meanings(codec, [Trim(Encode(codec, f)[..m])]) == [f]
  {
    var t, b := Encode(codec, f)[..m], Body(codec, f);
    assert Tight(codec.dumps(f.data));
    assert b[0] == 'e' && b[|b| - 1] == codec.dumps(f.data)[|codec.dumps(f.data)| - 1];
    assert Trim(t) == b by {
      if m == |b| {
        assert t == b;
      } else {
        assert t == b + "\n" && t[..|t| - 1] == b;
      }
    }
    BodyMeans(codec, f);
  }

  /** A connection that closes inside a frame delivers every whole frame before it, and then the
      frame's stub: a nameless or half-printed frame is dropped, one lacking only its blank line
      survives, and one that stops after its name but before its JSON arrives as an event the
      server never sent. */
  lemma CutStream<D(!new)>(codec: Codec<D>, fs: seq<Frame<D>>, f: Frame<D>, m: nat)
    requires Faithful(codec) && (forall g :: g in fs ==> Named(g)) && Named(f) && m < |Encode(codec, f)|
    ensures Reading(codec, EncodeAll(codec, fs) + Encode(codec, f)[..m]) == fs + Stub(f, m, codec)
  {
    var t := Encode(codec, f)[..m];
    ReadingEncoded(codec, fs, t);
    CutHasNoBlank(codec, f, m);
    DrainNone(t);
    assert Meanings(codec, []) == [];
    assert Reading(codec, t) == Meanings(codec, [Trim(t)]);
    hide Reading, Drain, Meanings, Meaning, Trim, Encode, EncodeAll, Faithful, Named;
    if m <= |EVENT| + |f.event| {
      StubInEvent(codec, f, m);
    } else if m <= |EVENT| + |f.event| + 1 + |DATA| {
      StubBeforeData(codec, f, m);
    } else if m < |Body(codec, f)| {
      StubInData(codec, f, m);
    } else {
      StubAfterData(codec, f, m);
    }
  }

  lemma CutHasNoBlank<D(!new)>(codec: Codec<D>, f: Frame<D>, m: nat)
    requires Faithful(codec) && Named(f) && m < |Encode(codec, f)|
    ensures FirstBlank(Encode(codec, f)[..m]) == m
  {
    var t, s := Encode(codec, f)[..m], Body(codec, f) + "\n\n" + "";
    BodyHasNoBlank(codec, f, "");
    var i := FirstBlank(t);
    if i < m {
      assert t[i] == s[i] && t[i + 1] == s[i + 1];
      assert BlankAt(s, i);
    }
  }

  /** The client sees something the server did not send exactly when the cut falls after the first
      character of the name and before the first character of the JSON. A frame of the empty object is
      also complete without its JSON, so only a cut inside its name can do it. */
  lemma GhostEventExactly<D(!new)>(codec: Codec<D>, f: Frame<D>, m: nat)
    requires Faithful(codec) && Named(f) && m < |Encode(codec, f)|
    ensures Reading(codec, Encode(codec, f)[..m]) !in {[], [f]} <==>
            if f.data == codec.empty then |EVENT| < m < |EVENT| + |f.event|
            else |EVENT| < m <= |EVENT| + |f.event| + 1 + |DATA|
  {
    CutStream(codec, [], f, m);
    assert EncodeAll(codec, []) + Encode(codec, f)[..m] == Encode(codec, f)[..m];
    assert Reading(codec, Encode(codec, f)[..m]) == Stub(f, m, codec);
    hide Reading, Encode, EncodeAll;
    StubIsGhost(codec, f, m);
  }

  lemma StubIsGhost<D(!new)>(codec: Codec<D>, f: Frame<D>, m: nat)
    requires Faithful(codec) && Named(f)
    ensures Stub(f, m, codec) !in {[], [f]} <==>
            if f.data == codec.empty then |EVENT| < m < |EVENT| + |f.event|
            else |EVENT| < m <= |EVENT| + |f.event| + 1 + |DATA|
  {
    assert |Body(codec, f)| > |EVENT| + |f.event| + 1 + |DATA| by { assert Tight(codec.dumps(f.data)); }
    var s, k := Stub(f, m, codec), m - |EVENT|;
    hide Faithful, Named, Body;
    if 0 < k < |f.event| {
      assert |s[0].event| == k;
    } else if k == |f.event| {
      assert f.event[..k] == f.event;
    }
    if 0 < k <= |f.event| + 1 + |DATA| {
      assert s[0].data == codec.empty;
    }
  }
}
