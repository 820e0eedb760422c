/** The chat client: folding the events of one ask into its turn. */
module TurnReducer {
  import opened Prelude
  import opened EventPipeline

  /** One line of the stage trail. */
  datatype Entry = Entry(name: StageName, status: Status)

  datatype TurnStatus = Live | Complete | Refused | Interrupted | Broken

  datatype Turn = Turn(id: string, question: string, answer: string, stages: seq<Entry>, citations: seq<Citation>,
                       meta: Option<Meta>, status: TurnStatus, error: Option<string>, collapsed: bool)

  datatype BusyReason = SessionBusy | RateLimited

  datatype ChatState = ChatState(turns: seq<Turn>, busy: Option<BusyReason>)

  /** How the body of the response ended: closed by the server, refused before it began or broken
      off with an error, or aborted by this client. */
  datatype StreamEnd = Closed | Busy(reason: BusyReason) | Threw(message: string) | Aborted

  // ------------------------------------------------------------------ the stage trail

  /** First entry still open under a name, or the length. */
  function FirstOpen(stages: seq<Entry>, name: StageName): (i: nat)
    ensures i <= |stages|
    ensures i < |stages| ==> stages[i] == Entry(name, Started)
    ensures forall j :: 0 <= j < i ==> stages[j] != Entry(name, Started)
  {
    if stages == [] || stages[0] == Entry(name, Started) then 0
    else
      assert stages == [stages[0]] + stages[1..];
      1 + FirstOpen(stages[1..], name)
  }

  function MergeStage(stages: seq<Entry>, name: StageName, status: Status): seq<Entry> {
    if status.Started? then stages + [Entry(name, status)]
    else
      var i := FirstOpen(stages, name);
      if i == |stages| then stages + [Entry(name, status)] else stages[i := Entry(name, status)]
  }

  function Trail(es: seq<Event>): seq<Entry> {
    if es == [] then []
    else
      match es[|es| - 1]
      case Stage(name, status) => MergeStage(Trail(es[..|es| - 1]), name, status)
      case _ => Trail(es[..|es| - 1])
  }

  /** The stages that stand with a status. */
  function Standing(p: Progress, status: Status): set<StageName> {
    match status case Started => p.running case Finished => p.ran case Skipped => p.skipped
  }

  /** One entry per stage, in pipeline order, with the status the stage stands with. */
  ghost predicate Mirrors(trail: seq<Entry>, p: Progress) {
    && (forall i, j :: 0 <= i < j < |trail| ==> Rank(trail[i].name) < Rank(trail[j].name))
    && (forall i :: 0 <= i < |trail| ==> trail[i].name in Standing(p, trail[i].status))
    && (forall n :: n in p.running || n in p.ran || n in p.skipped ==>
          exists i :: 0 <= i < |trail| && trail[i].name == n)
  }

  ghost predicate Separate(p: Progress) {
    p.running !! p.ran && p.running !! p.skipped && p.ran !! p.skipped
  }

  lemma MergeOpens(trail: seq<Entry>, p: Progress, n: StageName, status: Status)
    requires Mirrors(trail, p) && Due(p, n) && p.phase.Streaming? && !status.Finished?
    ensures Mirrors(MergeStage(trail, n, status), Advance(p, Stage(n, status)).value)
  {
    var next, q := trail + [Entry(n, status)], Advance(p, Stage(n, status)).value;
    assert forall i :: 0 <= i < |trail| ==> trail[i].name != n && Rank(trail[i].name) < Rank(n);
    assert MergeStage(trail, n, status) == next;
    OpensAt(p, n, status);
    hide Rank, MergeStage, FirstOpen, Advance, Due;
    forall i | 0 <= i < |next| ensures next[i].name in Standing(q, next[i].status) {
      if i < |trail| { assert trail[i].name in Standing(p, trail[i].status); }
    }
    hide Standing;
    forall m | m in q.running || m in q.ran || m in q.skipped ensures exists i :: 0 <= i < |next| && next[i].name == m {
      if m == n {
        assert next[|trail|].name == m;
      } else {
        var i :| 0 <= i < |trail| && trail[i].name == m;
        assert next[i].name == m;
      }
    }
  }

  lemma OpensAt(p: Progress, n: StageName, status: Status)
    requires Due(p, n) && p.phase.Streaming? && !status.Finished?
    ensures var q := Advance(p, Stage(n, status)).value;
            && q.ran == p.ran && q.running == (if status.Started? then p.running + {n} else p.running)
            && q.skipped == if status.Started? then p.skipped else p.skipped + {n}
  {
  }

  lemma MergeCloses(trail: seq<Entry>, p: Progress, n: StageName)
    requires Mirrors(trail, p) && n in p.running && Separate(p) && p.phase.Streaming?
    ensures Mirrors(MergeStage(trail, n, Finished), Advance(p, Stage(n, Finished)).value)
  {
    hide Rank;
    var q := p.(running := p.running - {n}, ran := p.ran + {n}, order := AfterStage(p.order));
    assert Advance(p, Stage(n, Finished)) == Some(q);
    hide Advance, Due;
    var k :| 0 <= k < |trail| && trail[k].name == n;
    ClosesAt(trail, p, n, k);
    hide MergeStage;
    var next := trail[k := Entry(n, Finished)];
    assert forall i :: 0 <= i < |next| ==> next[i].name == trail[i].name;
    forall i | 0 <= i < |next| ensures next[i].name in Standing(q, next[i].status) {
      if i != k { StandsOn(p, q, n, trail[i]); }
    }
    hide Standing;
    forall m | m in q.running || m in q.ran || m in q.skipped ensures exists i :: 0 <= i < |next| && next[i].name == m {
      var i :| 0 <= i < |trail| && trail[i].name == m;
      assert next[i].name == m;
    }
  }

  lemma StandsOn(p: Progress, q: Progress, n: StageName, e: Entry)
    requires q == p.(running := p.running - {n}, ran := p.ran + {n}, order := AfterStage(p.order))
    requires e.name != n && e.name in Standing(p, e.status)
    ensures e.name in Standing(q, e.status)
  {
  }

  lemma ClosesAt(trail: seq<Entry>, p: Progress, n: StageName, k: nat)
    requires Mirrors(trail, p) && n in p.running && Separate(p) && k < |trail| && trail[k].name == n
    ensures MergeStage(trail, n, Finished) == trail[k := Entry(n, Finished)]
    ensures forall i :: 0 <= i < |trail| && i != k ==> trail[i].name != n
  {
    hide Rank;
    assert trail[k] == Entry(n, Started);
    assert FirstOpen(trail, n) == k;
  }

  /** One event keeps the trail a mirror. */
  lemma EventMirrors(trail: seq<Entry>, p: Progress, e: Event)
    requires Separate(p) && Mirrors(trail, p) && Advance(p, e).Some?
    ensures Separate(Advance(p, e).value)
    ensures Mirrors(if e.Stage? then MergeStage(trail, e.name, e.status) else trail, Advance(p, e).value)
  {
    EventSeparate(p, e);
    if e.Stage? {
      assert p.phase.Streaming? && (if e.status.Finished? then e.name in p.running else Due(p, e.name));
      hide *;
      if e.status.Finished? { MergeCloses(trail, p, e.name); } else { MergeOpens(trail, p, e.name, e.status); }
    } else {
      var q := Advance(p, e).value;
      assert q.running == p.running && q.ran == p.ran && q.skipped == p.skipped;
      hide Advance, Rank, MergeStage;
    }
  }

  lemma EventSeparate(p: Progress, e: Event)
    requires Separate(p) && Advance(p, e).Some?
    ensures Separate(Advance(p, e).value)
  {
  }

  lemma {:induction false} TrailMirrors(es: seq<Event>)
    requires Follow(es).Some?
    ensures Separate(Follow(es).value)
    ensures Mirrors(Trail(es), Follow(es).value)
  {
    if es != [] {
      var init, e := es[..|es| - 1], es[|es| - 1];
      TrailMirrors(init);
      var p := Follow(init).value;
      assert Some(Follow(es).value) == Advance(p, e);
      assert Trail(es) == if e.Stage? then MergeStage(Trail(init), e.name, e.status) else Trail(init);
      hide *;
      EventMirrors(Trail(init), p, e);
    }
  }

  /** After a completed run no entry is left open. */
  lemma CompletedTrailIsClosed(es: seq<Event>)
    requires Follow(es).Some? && Follow(es).value.running == {}
    ensures forall i :: 0 <= i < |Trail(es)| ==> !Trail(es)[i].status.Started?
  {
    TrailMirrors(es);
  }

  // ------------------------------------------------------------------ one turn

  function LastMeta(es: seq<Event>): Option<Meta> {
    if es == [] then None
    else match es[|es| - 1] case Described(meta) => Some(meta) case _ => LastMeta(es[..|es| - 1])
  }

  function LastError(es: seq<Event>): Option<string> {
    if es == [] then None
    else match es[|es| - 1] case Error(message) => Some(message) case _ => LastError(es[..|es| - 1])
  }

  function NewTurn(id: string, question: string): Turn {
    Turn(id, question, "", [], [], None, Live, None, false)
  }

  function Settle(t: Turn, status: TurnStatus, error: Option<string>): Turn {
    t.(status := status, error := error, collapsed := true)
  }

  /** What one event does to its turn. */
  function Absorb(t: Turn, e: Event): Turn {
    match e
    case Stage(name, status) => t.(stages := MergeStage(t.stages, name, status))
    case Token(text) => t.(answer := t.answer + text)
    case Citations(list) => t.(citations := list)
    case Described(meta) =>
      t.(meta := Some(meta), citations := if meta.citations != [] then meta.citations else t.citations)
    case Done => t
    case Error(message) => Settle(t, Interrupted, Some(message))
  }

  function AbsorbAll(t: Turn, es: seq<Event>): Turn {
    if es == [] then t else Absorb(AbsorbAll(t, es[..|es| - 1]), es[|es| - 1])
  }

  ghost predicate Reflects(t: Turn, text: string, trail: seq<Entry>, meta: Option<Meta>, error: Option<string>) {
    && t.answer == text && t.stages == trail && t.meta == meta && t.error == error
    && t.status == (if error.Some? then Interrupted else Live) && (t.collapsed <==> error.Some?)
  }

  /** A new turn that has absorbed a stream shows its text, its trail and its last meta. */
  lemma {:induction false} AbsorbedTurn(id: string, question: string, es: seq<Event>)
    ensures AbsorbAll(NewTurn(id, question), es).id == id
    ensures Reflects(AbsorbAll(NewTurn(id, question), es), TextOf(es), Trail(es), LastMeta(es), LastError(es))
  {
    if es != [] {
      var init, e := es[..|es| - 1], es[|es| - 1];
      AbsorbedTurn(id, question, init);
      var t := AbsorbAll(NewTurn(id, question), init);
      assert AbsorbAll(NewTurn(id, question), es) == Absorb(t, e);
      assert TextOf(es) == TextOf(init) + match e case Token(text) => text case _ => "";
      assert Trail(es) == if e.Stage? then MergeStage(Trail(init), e.name, e.status) else Trail(init);
      assert LastMeta(es) == match e case Described(meta) => Some(meta) case _ => LastMeta(init);
      assert LastError(es) == match e case Error(message) => Some(message) case _ => LastError(init);
      hide AbsorbAll, TextOf, Trail, LastMeta, LastError, MergeStage;
    }
  }

  /** The event names citations: a citations event its list, a meta its own if it has any. */
  ghost predicate Cites(e: Event, list: seq<Citation>) {
    e == Citations(list) || (e.Described? && e.meta.citations == list && list != [])
  }

  /** The list of the last event that names citations, and empty when none does. */
  ghost predicate CitationsAre(es: seq<Event>, list: seq<Citation>) {
    || (list == [] && forall k, other :: 0 <= k < |es| ==> !Cites(es[k], other))
    || exists k :: 0 <= k < |es| && Cites(es[k], list) && forall m, other :: k < m < |es| ==> !Cites(es[m], other)
  }

  /** What the last meta event says, if there was one. */
  ghost predicate MetaIs(es: seq<Event>, meta: Option<Meta>) {
    || (meta == None && forall k :: 0 <= k < |es| ==> !es[k].Described?)
    || exists k :: 0 <= k < |es| && es[k].Described? && meta == Some(es[k].meta)
         && forall m :: k < m < |es| ==> !es[m].Described?
  }

  /** What the last error event says, if there was one. */
  ghost predicate ErrorIs(es: seq<Event>, error: Option<string>) {
    || (error == None && forall k :: 0 <= k < |es| ==> !es[k].Error?)
    || exists k :: 0 <= k < |es| && es[k].Error? && error == Some(es[k].message)
         && forall m :: k < m < |es| ==> !es[m].Error?
  }

  lemma CitationsNext(init: seq<Event>, e: Event, list: seq<Citation>, next: seq<Citation>)
    requires CitationsAre(init, list)
    requires Cites(e, next) || ((forall other :: !Cites(e, other)) && next == list)
    ensures CitationsAre(init + [e], next)
  {
    var es := init + [e];
    if Cites(e, next) {
      assert es[|init|] == e;
    } else {
      hide Cites;
      if k :| 0 <= k < |init| && Cites(init[k], list) && forall m, other :: k < m < |init| ==> !Cites(init[m], other) {
        assert es[k] == init[k];
      }
    }
  }

  lemma CitedAtEnd(es: seq<Event>, meta: Meta, list: seq<Citation>)
    requires CitationsAre(es, list) && |es| >= 3
    requires es[|es| - 3] == Citations(meta.citations) && es[|es| - 2] == Described(meta) && es[|es| - 1] == Done
    ensures list == meta.citations
  {
    var n := |es|;
    assert Cites(es[n - 3], meta.citations);
    var k :| 0 <= k < n && Cites(es[k], list) && forall m, other :: k < m < n ==> !Cites(es[m], other);
    assert k != n - 1;
  }

  lemma MetaNext(init: seq<Event>, e: Event, meta: Option<Meta>)
    requires MetaIs(init, meta)
    ensures MetaIs(init + [e], if e.Described? then Some(e.meta) else meta)
  {
    var es := init + [e];
    if e.Described? {
      assert es[|init|] == e;
    } else if k :| 0 <= k < |init| && init[k].Described? && meta == Some(init[k].meta)
                   && forall m :: k < m < |init| ==> !init[m].Described? {
      assert es[k] == init[k];
    }
  }

  lemma ErrorNext(init: seq<Event>, e: Event, error: Option<string>)
    requires ErrorIs(init, error)
    ensures ErrorIs(init + [e], if e.Error? then Some(e.message) else error)
  {
    var es := init + [e];
    if e.Error? {
      assert es[|init|] == e;
    } else if k :| 0 <= k < |init| && init[k].Error? && error == Some(init[k].message)
                   && forall m :: k < m < |init| ==> !init[m].Error? {
      assert es[k] == init[k];
    }
  }

  lemma AbsorbCites(t: Turn, e: Event)
    ensures var u := Absorb(t, e);
            Cites(e, u.citations) || ((forall other :: !Cites(e, other)) && u.citations == t.citations)
    ensures Absorb(t, e).meta == if e.Described? then Some(e.meta) else t.meta
    ensures Absorb(t, e).error == if e.Error? then Some(e.message) else t.error
    ensures Absorb(t, e).question == t.question
  {
  }

  /** A new turn that has absorbed a stream shows the question, and the citations, the meta and the
      error that were named last. */
  lemma {:induction false} AbsorbedLast(id: string, question: string, es: seq<Event>)
    ensures var t := AbsorbAll(NewTurn(id, question), es);
            t.question == question && CitationsAre(es, t.citations) && MetaIs(es, t.meta) && ErrorIs(es, t.error)
  {
    if es != [] {
      var init, e := es[..|es| - 1], es[|es| - 1];
      AbsorbedLast(id, question, init);
      var t := AbsorbAll(NewTurn(id, question), init);
      assert es == init + [e];
      hide CitationsAre, MetaIs, ErrorIs, Absorb, Cites;
      AbsorbCites(t, e);
      CitationsNext(init, e, t.citations, Absorb(t, e).citations);
      MetaNext(init, e, t.meta);
      ErrorNext(init, e, t.error);
    }
  }

  // ------------------------------------------------------------------ the reducer

  function Patch(turns: seq<Turn>, t: Turn): seq<Turn> {
    seq(|turns|, i requires 0 <= i < |turns| => if turns[i].id == t.id then t else turns[i])
  }

  predicate Holds(turns: seq<Turn>, id: string) {
    exists i :: 0 <= i < |turns| && turns[i].id == id
  }

  /** Every turn under the id is this turn, and there is one. */
  ghost predicate Shows(turns: seq<Turn>, t: Turn) {
    && Holds(turns, t.id)
    && forall i :: 0 <= i < |turns| && turns[i].id == t.id ==> turns[i] == t
  }

  /** A retry replaces its turn in place; a first ask appends it. */
  function Begin(s: ChatState, t: Turn): ChatState {
    ChatState(if Holds(s.turns, t.id) then Patch(s.turns, t) else s.turns + [t], None)
  }

  function Others(turns: seq<Turn>, id: string): seq<Turn> {
    if turns == [] then []
    else Others(turns[..|turns| - 1], id) + if turns[|turns| - 1].id == id then [] else [turns[|turns| - 1]]
  }

  lemma {:induction false} PatchSparesOthers(turns: seq<Turn>, t: Turn)
    ensures Others(Patch(turns, t), t.id) == Others(turns, t.id)
  {
    if turns != [] {
      var init := turns[..|turns| - 1];
      PatchSparesOthers(init, t);
      assert Patch(turns, t)[..|turns| - 1] == Patch(init, t);
    }
  }

  lemma {:induction false} OthersOfOthers(turns: seq<Turn>, id: string)
    ensures Others(Others(turns, id), id) == Others(turns, id) && !Holds(Others(turns, id), id)
  {
    if turns != [] {
      var init, last := turns[..|turns| - 1], turns[|turns| - 1];
      OthersOfOthers(init, id);
      if last.id == id {
        assert Others(init, id) + [] == Others(init, id);
      } else {
        assert (Others(init, id) + [last])[..|Others(init, id)|] == Others(init, id);
      }
    }
  }

  /** How an ask leaves its turn. */
  function Ended(t: Turn, es: seq<Event>, end: StreamEnd, done: bool): Turn {
    var seen := AbsorbAll(t, es);
    match end
    case Threw(message) => seen.(status := Broken, error := Some(message))
    case Busy(_) => seen
    case Aborted => seen
    case Closed =>
      if LastError(es).Some? then seen
      else if !done then Settle(seen, Interrupted, Some("disconnected"))
      else Settle(seen, if LastMeta(es).Some? && LastMeta(es).value.refused then Refused else Complete, None)
  }

  ghost predicate Errs(es: seq<Event>) {
    exists k :: 0 <= k < |es| && es[k].Error?
  }

  /** A turn as its stream leaves it: what it shows is what was said last, and its status, its error
      and its trail's fold say how the stream ended. */
  ghost predicate Settled(t: Turn, question: string, es: seq<Event>, end: StreamEnd) {
    && t.question == question && t.answer == TextOf(es) && t.stages == Trail(es)
    && CitationsAre(es, t.citations) && MetaIs(es, t.meta)
    && match end
       case Busy(_) => true
       case Threw(message) => t.status.Broken? && t.error == Some(message) && (t.collapsed <==> Errs(es))
       case Aborted => t.status == (if Errs(es) then Interrupted else Live) && ErrorIs(es, t.error)
                       && (t.collapsed <==> Errs(es))
       case Closed =>
         && t.collapsed
         && if Errs(es) then t.status.Interrupted? && ErrorIs(es, t.error)
            else if Done !in es then t.status.Interrupted? && t.error == Some("disconnected")
            else t.status == (if t.meta.Some? && t.meta.value.refused then Refused else Complete) && t.error == None
  }

  lemma EndedIsSettled(id: string, question: string, es: seq<Event>, end: StreamEnd)
    ensures Settled(Ended(NewTurn(id, question), es, end, Done in es), question, es, end)
  {
    AbsorbedTurn(id, question, es);
    AbsorbedLast(id, question, es);
    LastErrorSaw(es);
    assert Errs(es) <==> LastError(es).Some?;
    hide AbsorbAll, TextOf, Trail, LastMeta, LastError, CitationsAre, MetaIs, ErrorIs, Errs;
  }

  /** One event further into a stream. */
  lemma OneMore(t: Turn, es: seq<Event>, i: nat)
    requires i < |es|
    ensures Done in es[..i + 1] <==> Done in es[..i] || es[i].Done?
    ensures LastError(es[..i + 1]) == if es[i].Error? then Some(es[i].message) else LastError(es[..i])
    ensures LastMeta(es[..i + 1]) == if es[i].Described? then Some(es[i].meta) else LastMeta(es[..i])
    ensures AbsorbAll(t, es[..i + 1]) == Absorb(AbsorbAll(t, es[..i]), es[i])
    ensures Absorb(AbsorbAll(t, es[..i]), es[i]).id == AbsorbAll(t, es[..i]).id
    ensures es[i].Done? ==> AbsorbAll(t, es[..i + 1]) == AbsorbAll(t, es[..i])
  {
    assert es[..i + 1][..i] == es[..i] && es[..i + 1] == es[..i] + [es[i]];
  }

  /** Some turn is live: what keeps the composer disabled. */
  predicate Streaming(turns: seq<Turn>) {
    exists i :: 0 <= i < |turns| && turns[i].status.Live?
  }

  lemma {:induction false} StreamingSplits(turns: seq<Turn>, id: string)
    ensures Streaming(turns) <==> Streaming(Others(turns, id)) || LiveUnder(turns, id)
  {
    if turns != [] {
      var init, last := turns[..|turns| - 1], turns[|turns| - 1];
      assert turns == init + [last];
      StreamingSplits(init, id);
      assert Others(turns, id) == Others(init, id) + if last.id == id then [] else [last];
      assert Others(init, id) + [] == Others(init, id);
      hide *;
      StreamingSnoc(init, last);
      StreamingSnoc(Others(init, id), last);
      LiveUnderSnoc(init, last, id);
    }
  }

  /** Some turn under the id is live. */
  predicate LiveUnder(turns: seq<Turn>, id: string) {
    exists i :: 0 <= i < |turns| && turns[i].id == id && turns[i].status.Live?
  }

  lemma LiveUnderSnoc(turns: seq<Turn>, t: Turn, id: string)
    ensures LiveUnder(turns + [t], id) <==> LiveUnder(turns, id) || (t.id == id && t.status.Live?)
  {
    if LiveUnder(turns, id) {
      var i :| 0 <= i < |turns| && turns[i].id == id && turns[i].status.Live?;
      assert (turns + [t])[i].status.Live?;
    }
    assert (turns + [t])[|turns|] == t;
  }

  lemma StreamingSnoc(turns: seq<Turn>, t: Turn)
    ensures Streaming(turns + [t]) <==> Streaming(turns) || t.status.Live?
  {
    if Streaming(turns) {
      var i :| 0 <= i < |turns| && turns[i].status.Live?;
      assert (turns + [t])[i].status.Live?;
    }
    assert (turns + [t])[|turns|] == t;
  }

  /** An ask that was accepted leaves its turn unsettled exactly when it is aborted before any error
      event: aborting settles nothing. */
  lemma LeftLiveExactly(id: string, question: string, es: seq<Event>, end: StreamEnd)
    requires !end.Busy?
    ensures Ended(NewTurn(id, question), es, end, Done in es).status.Live? <==> end.Aborted? && LastError(es).None?
  {
    AbsorbedTurn(id, question, es);
  }

  /** One ask: its turn ends as its stream does, every other turn keeps its place and content, and
      the composer comes back unless another turn is live or this one was aborted before an error. */
  method Run(s: ChatState, id: string, question: string, es: seq<Event>, end: StreamEnd) returns (r: ChatState)
    ensures Others(r.turns, id) == Others(s.turns, id)
    ensures end.Busy? ==> r.busy == Some(end.reason) && !Holds(r.turns, id)
    ensures !end.Busy? ==> r.busy == None && Shows(r.turns, Ended(NewTurn(id, question), es, end, Done in es))
    ensures !end.Busy? ==> |r.turns| == if Holds(s.turns, id) then |s.turns| else |s.turns| + 1
    ensures !end.Busy? ==> forall t :: t in r.turns && t.id == id ==> Settled(t, question, es, end)
    ensures Streaming(r.turns) <==> Streaming(Others(s.turns, id)) || (end.Aborted? && LastError(es).None?)
  {
    EndedIsSettled(id, question, es, end);
    hide Settled;
    r := Play(s, id, question, es, end);
    StreamingSplits(r.turns, id);
    if !end.Busy? {
      LeftLiveExactly(id, question, es, end);
      EndedKeepsId(id, question, es, end);
    }
    hide Streaming, Others, Ended, LastError;
  }

  lemma EndedKeepsId(id: string, question: string, es: seq<Event>, end: StreamEnd)
    ensures Ended(NewTurn(id, question), es, end, Done in es).id == id
  {
    AbsorbedTurn(id, question, es);
  }

  /** Retrying another turn while an answer streams aborts that answer, and its turn stays live whatever
      becomes of the retry. */
  method RetryOver(s: ChatState, id: string, question: string, es: seq<Event>,
                   other: string, otherQuestion: string, otherEs: seq<Event>, end: StreamEnd)
    returns (r: ChatState)
    requires id != other && LastError(es).None?
    ensures Streaming(r.turns) && Holds(r.turns, id)
    ensures forall i :: 0 <= i < |r.turns| && r.turns[i].id == id ==> r.turns[i].status.Live?
  {
    r := Run(s, id, question, es, Aborted);
    ghost var first := r.turns;
    LeftLiveExactly(id, question, es, Aborted);
    EndedKeepsId(id, question, es, Aborted);
    r := Run(r, other, otherQuestion, otherEs, end);
    KeptBeside(first, r.turns, other, Ended(NewTurn(id, question), es, Aborted, Done in es));
  }

  /** A turn among the others is where it was. */
  lemma KeptBeside(a: seq<Turn>, b: seq<Turn>, other: string, t: Turn)
    requires Others(a, other) == Others(b, other) && Shows(a, t) && t.id != other
    ensures Shows(b, t)
  {
    OthersAre(a, other);
    OthersAre(b, other);
    var i :| 0 <= i < |a| && a[i].id == t.id;
    assert a[i] in b;
    forall j | 0 <= j < |b| && b[j].id == t.id ensures b[j] == t {
      assert b[j] in a;
    }
  }

  lemma {:induction false} OthersAre(turns: seq<Turn>, id: string)
    ensures forall t :: t in Others(turns, id) <==> t in turns && t.id != id
  {
    if turns != [] {
      var init, last := turns[..|turns| - 1], turns[|turns| - 1];
      OthersAre(init, id);
      assert forall t :: t in turns <==> t in init || t == last;
    }
  }

  /** Fold the events of one ask into the chat, then settle its turn by how the stream ended. */
  method Play(s: ChatState, id: string, question: string, es: seq<Event>, end: StreamEnd) returns (r: ChatState)
    ensures Others(r.turns, id) == Others(s.turns, id)
    ensures end.Busy? ==> r.busy == Some(end.reason) && !Holds(r.turns, id)
    ensures !end.Busy? ==> r.busy == None && Shows(r.turns, Ended(NewTurn(id, question), es, end, Done in es))
    ensures !end.Busy? ==> |r.turns| == if Holds(s.turns, id) then |s.turns| else |s.turns| + 1
  {
    var t := NewTurn(id, question);
    BeginShows(s, t);
    var state := Begin(s, t);
    var sawDone, sawError, refused := false, false, false;
    for i := 0 to |es|
      invariant sawDone <==> Done in es[..i]
      invariant sawError <==> LastError(es[..i]).Some?
      invariant refused <==> LastMeta(es[..i]).Some? && LastMeta(es[..i]).value.refused
      invariant t == AbsorbAll(NewTurn(id, question), es[..i]) && t.id == id
      invariant Shows(state.turns, t) && Others(state.turns, id) == Others(s.turns, id) && state.busy == None
      invariant |state.turns| == if Holds(s.turns, id) then |s.turns| else |s.turns| + 1
    {
      hide AbsorbAll, Absorb, LastError, LastMeta, Shows, Others, Patch, Holds;
      var e := es[i];
      OneMore(NewTurn(id, question), es, i);
      if e.Done? {
        sawDone := true;
      } else {
        if e.Described? { refused := e.meta.refused; }
        if e.Error? { sawError := true; }
        PatchShows(state.turns, t, Absorb(t, e));
        t := Absorb(t, e);
        state := state.(turns := Patch(state.turns, t));
      }
    }
    assert es[..|es|] == es;
    if end.Aborted? { return state; }
    if end.Busy? {
      OthersOfOthers(state.turns, id);
      return ChatState(Others(state.turns, id), Some(end.reason));
    }
    var last := Ended(NewTurn(id, question), es, end, sawDone);
    PatchShows(state.turns, t, last);
    if end.Threw? {
      return state.(turns := Patch(state.turns, t.(status := Broken, error := Some(end.message))));
    }
    if sawError { return state; }
    if !sawDone {
      return state.(turns := Patch(state.turns, Settle(t, Interrupted, Some("disconnected"))));
    }
    r := state.(turns := Patch(state.turns, Settle(t, if refused then Refused else Complete, None)));
  }

  lemma BeginShows(s: ChatState, t: Turn)
    ensures Shows(Begin(s, t).turns, t) && Others(Begin(s, t).turns, t.id) == Others(s.turns, t.id)
  {
    if Holds(s.turns, t.id) {
      var i :| 0 <= i < |s.turns| && s.turns[i].id == t.id;
      assert Patch(s.turns, t)[i].id == t.id;
      PatchSparesOthers(s.turns, t);
    } else {
      assert (s.turns + [t])[|s.turns|] == t;
      assert (s.turns + [t])[..|s.turns|] == s.turns;
      assert Others(s.turns, t.id) + [] == Others(s.turns, t.id);
    }
  }

  lemma PatchShows(turns: seq<Turn>, t: Turn, u: Turn)
    requires Shows(turns, t) && t.id == u.id
    ensures Shows(Patch(turns, u), u) && Others(Patch(turns, u), u.id) == Others(turns, u.id)
  {
    var i :| 0 <= i < |turns| && turns[i].id == t.id;
    assert Patch(turns, u)[i].id == u.id;
    PatchSparesOthers(turns, u);
  }

  // ------------------------------------------------------------------ what the user sees

  lemma {:induction false} LastErrorSaw(es: seq<Event>)
    ensures LastError(es).Some? <==> exists e :: e in es && e.Error?
  {
    if es != [] {
      var init, last := es[..|es| - 1], es[|es| - 1];
      LastErrorSaw(init);
      assert es == init + [last];
      assert last in es;
    }
  }

  /** The status of a turn whose stream closed, for any events at all: interrupted without `done` or
      with an error event; otherwise refused or complete as the last meta says. */
  lemma ClosedStatus(id: string, question: string, es: seq<Event>)
    ensures var t := Ended(NewTurn(id, question), es, Closed, Done in es);
            && t.answer == TextOf(es) && t.stages == Trail(es) && t.collapsed
            && (t.status.Interrupted? <==> Done !in es || exists e :: e in es && e.Error?)
            && (t.status.Refused? <==> !t.status.Interrupted? && LastMeta(es).Some? && LastMeta(es).value.refused)
            && (t.status.Complete? <==> !t.status.Interrupted? && !t.status.Refused?)
            && CitationsAre(es, t.citations) && MetaIs(es, t.meta)
  {
    AbsorbedLast(id, question, es);
    hide CitationsAre, MetaIs, ErrorIs;
    AbsorbedTurn(id, question, es);
    LastErrorSaw(es);
  }

  /** A connection that breaks off mid-answer ends the turn as failed, its trail still expanded,
      while one that closes early ends it as interrupted: the two are one code path only when
      nothing is thrown. */
  lemma DroppedConnection(id: string, question: string, es: seq<Event>, message: string)
    requires LastError(es).None?
    ensures var t := Ended(NewTurn(id, question), es, Threw(message), Done in es);
            t.status == Broken && !t.collapsed && t.answer == TextOf(es)
    ensures Done !in es ==> Ended(NewTurn(id, question), es, Closed, Done in es).status == Interrupted
  {
    AbsorbedTurn(id, question, es);
  }
}
