/** The ask endpoint around the pipeline: the session lock, the memory stage, the two transports,
    and the whole way from the producer to the user's turn. */
module AskRoute {
  import opened Prelude
  import opened EventPipeline
  import SseWire
  import TurnReducer
  import CacheIndex
  import CacheKeys
  import SemanticCache

  class SessionLock {
    var held: bool
    constructor () ensures !held { held := false; }
  }

  /** What the memory part of a turn runs into: a failure before or after the summary stage, and
      whether a fold is due. */
  datatype Memory = Memory(loads: bool, due: bool, commits: bool)

  /** The transport at the other end of a turn: it takes every event, it goes away after some, or
      it is gone before the generator is first asked. */
  datatype Consumer = Drains | Leaves(after: nat) | NeverAsks

  /** A second ask on a busy session is turned away and leaves the running turn its lock. Any other
      turn ends with the lock free, unless its generator was never entered: the lock is taken before
      the generator starts and given back inside it. */
  method AskWithMemory(lock: SessionLock, memory: Memory, flags: Flags, settings: Settings, w: World,
                       consumer: Consumer)
    returns (busy: bool, es: seq<Event>, raised: bool, transcript: Option<Response>)
    modifies lock
    ensures busy == old(lock.held) && (lock.held <==> busy || consumer.NeverAsks?)
    ensures busy || consumer.NeverAsks? ==> es == [] && transcript == None
    ensures !busy ==> Follow(es).Some?
    ensures consumer.Drains? ==> (transcript.Some? <==> !busy && Follow(es).value.phase.Succeeded?)
  {
    busy, es, raised, transcript := lock.held, [], false, None;
    NothingFollowed();
    if busy { return; }
    lock.held := true;
    if consumer.NeverAsks? { return; }
    var cacheWrite, left;
    ghost var full;
    es, raised, cacheWrite, transcript, left, full :=
      MemoryEvents(lock, memory, flags, settings, w, if consumer.Leaves? then Some(consumer.after) else None);
  }

  /** A stage of the route in front of a producer that leaves it alone. */
  lemma {:induction false} FollowBehindMemory(pre: seq<Event>, es: seq<Event>, start: Progress)
    requires Follow(pre) == Some(start) && start.phase.Streaming? && start.text == "" && start.running == {}
    requires start.order.Opening?
    requires start.ran <= {SummarizingMemory} && start.skipped <= {SummarizingMemory}
    requires Follow(es).Some? && LeavesMemory(Follow(es).value)
    ensures Follow(pre + es) == Some(After(start, Follow(es).value))
  {
    if es == [] {
      assert pre + es == pre;
      assert After(start, START) == start;
    } else {
      var init, e := es[..|es| - 1], es[|es| - 1];
      var p := Follow(init).value;
      assert Some(Follow(es).value) == Advance(p, e);
      FollowBehindMemory(pre, init, start);
      assert pre + es == (pre + init) + [e];
      FollowSnoc(pre + init, e);
      hide Follow;
      AdvanceAfter(start, p, e);
    }
  }

  /** The same progress with the memory stage before it. */
  function After(start: Progress, p: Progress): Progress {
    p.(ran := start.ran + p.ran, skipped := start.skipped + p.skipped)
  }

  lemma AdvanceAfter(start: Progress, p: Progress, e: Event)
    requires start.ran <= {SummarizingMemory} && start.skipped <= {SummarizingMemory}
    requires Advance(p, e).Some? && LeavesMemory(Advance(p, e).value)
    ensures Advance(After(start, p), e) == Some(After(start, Advance(p, e).value))
  {
    if e.Stage? {
      assert e.name != SummarizingMemory by { assert Seen(Advance(p, e).value, e.name); }
      assert (start.ran + p.ran) + {e.name} == start.ran + (p.ran + {e.name});
      assert (start.skipped + p.skipped) + {e.name} == start.skipped + (p.skipped + {e.name});
    }
  }

  /** The stages of a completed run, with the memory stage in front if there is one. */
  function RunsOf(memory: Option<Memory>, flags: Flags, w: World): set<StageName> {
    (if memory.Some? && memory.value.due then {SummarizingMemory} else {}) + ToRun(flags, w)
  }

  function SkipsOf(memory: Option<Memory>, flags: Flags, w: World): set<StageName> {
    (if memory.Some? && !memory.value.due then {SummarizingMemory} else {}) + ToSkip(flags, w)
  }

  /** The run ends in an exception. */
  predicate Breaks(memory: Option<Memory>, flags: Flags, settings: Settings, w: World) {
    (memory.Some? && (!memory.value.loads || !memory.value.commits)) || Uncaught(flags, settings, w)
  }

  /** A run from its first event to its last. */
  ghost predicate WholeTurn(memory: Option<Memory>, flags: Flags, settings: Settings, w: World, es: seq<Event>) {
    && Follow(es).Some?
    && var p := Follow(es).value;
       if Breaks(memory, flags, settings, w) then p.phase.Streaming?
       else if Caught(flags, settings, w) then p.phase == Failed(CaughtMessage(settings, w))
       else
         var a := Answered(flags, settings, w);
         p == Progress({}, RunsOf(memory, flags, w), SkipsOf(memory, flags, w), a.answer, Succeeded(a.meta), p.order)
  }

  /** A turn with memory, up to where its consumer leaves. However it ends the lock is free again.
      A consumer that leaves has the events up to there and no response reaches the transcript or the
      cache, even when it leaves after `done`; otherwise the transcript receives the response exactly when the run
      completed, and then it is what the client was sent. */
  method MemoryEvents(lock: SessionLock, memory: Memory, flags: Flags, settings: Settings, w: World,
                      leaves: Option<nat>)
    returns (es: seq<Event>, raised: bool, cacheWrite: Option<Response>, transcript: Option<Response>, left: bool,
             ghost full: seq<Event>)
    requires lock.held
    modifies lock
    ensures !lock.held && Follow(es).Some?
    ensures WholeTurn(Some(memory), flags, settings, w, full) && OpensWithMemory(memory, full)
    ensures left <==> leaves.Some? && leaves.value <= |full|
    ensures es == if left then full[..leaves.value] else full
    ensures left ==> !raised && cacheWrite == None && transcript == None
    ensures !left ==>
              && (raised <==> !memory.loads || !memory.commits || Uncaught(flags, settings, w))
              && transcript == (if raised || Caught(flags, settings, w) then None
                                else Some(Answered(flags, settings, w)))
              && (cacheWrite.Some? ==> transcript == cacheWrite)
  {
    hide Follow, WholeTurn, OpensWithMemory;
    es, raised, cacheWrite, transcript := MemoryRun(memory, flags, settings, w);
    full := es;
    WholeIsFollowed(memory, flags, settings, w, full);
    left := leaves.Some? && leaves.value <= |es|;
    if left {
      FollowPrefix(es, leaves.value);
      es, raised, cacheWrite, transcript := es[..leaves.value], false, None, None;
    }
    lock.held := false;
  }

  lemma WholeIsFollowed(memory: Memory, flags: Flags, settings: Settings, w: World, es: seq<Event>)
    requires WholeTurn(Some(memory), flags, settings, w, es)
    ensures Follow(es).Some?
  {
  }

  /** The memory stage comes first: run when a fold is due, skipped when none is; a turn that cannot load
      its memory says nothing, and one that cannot commit says nothing after it. */
  ghost predicate OpensWithMemory(memory: Memory, es: seq<Event>) {
    var opening := if memory.due then [Stage(SummarizingMemory, Started), Stage(SummarizingMemory, Finished)]
                   else [Stage(SummarizingMemory, Skipped)];
    && (!memory.loads ==> es == [])
    && (memory.loads ==> opening <= es && (!memory.commits ==> es == opening))
  }

  /** The turn of a consumer that takes every event. */
  method MemoryRun(memory: Memory, flags: Flags, settings: Settings, w: World)
    returns (es: seq<Event>, raised: bool, cacheWrite: Option<Response>, transcript: Option<Response>)
    ensures WholeTurn(Some(memory), flags, settings, w, es) && OpensWithMemory(memory, es)
    ensures raised <==> !memory.loads || !memory.commits || Uncaught(flags, settings, w)
    ensures transcript == if raised || Caught(flags, settings, w) then None else Some(Answered(flags, settings, w))
    ensures cacheWrite.Some? ==> transcript == cacheWrite
  {
    hide Follow, Answered, Uncaught, Caught, LeavesMemory, ToRun, ToSkip, CaughtMessage;
    es, raised, cacheWrite, transcript := [], true, None, None;
    NothingFollowed();
    if !memory.loads { return; }
    ghost var p;
    es, p := MemoryStage(memory);
    if !memory.commits { return; }
    var answered;
    answered, raised, cacheWrite := PipelineEvents(flags, settings, w);
    FollowBehindMemory(es, answered, p);
    es := es + answered;
    if !raised {
      var answer, meta, cleanDone := Accumulate(answered);
      if cleanDone && meta.Some? { transcript := Some(Response(answer, meta.value)); }
    }
  }

  method MemoryStage(memory: Memory) returns (es: seq<Event>, ghost p: Progress)
    ensures At(es, p)
    ensures es == if memory.due then [Stage(SummarizingMemory, Started), Stage(SummarizingMemory, Finished)]
                  else [Stage(SummarizingMemory, Skipped)]
    ensures p == Progress({}, if memory.due then {SummarizingMemory} else {},
                          if memory.due then {} else {SummarizingMemory}, "", Streaming, Opening)
  {
    NothingFollowed();
    hide Follow;
    if memory.due {
      es, p := YieldSpan([], SummarizingMemory, START);
    } else {
      es, p := YieldSkip([], SummarizingMemory, START);
    }
  }

  function MetaSentBy(phase: Phase): Option<Meta> {
    match phase case Succeeded(meta) => Some(meta) case MetaSent(meta) => Some(meta) case _ => None
  }

  /** The answer text, the meta and whether `done` was seen. */
  method Accumulate(es: seq<Event>) returns (answer: string, meta: Option<Meta>, cleanDone: bool)
    requires Follow(es).Some?
    ensures answer == Follow(es).value.text && meta == MetaSentBy(Follow(es).value.phase)
    ensures cleanDone <==> Follow(es).value.phase.Succeeded?
  {
    answer, meta, cleanDone := "", None, false;
    for i := 0 to |es|
      invariant Follow(es[..i]).Some? && answer == Follow(es[..i]).value.text
      invariant meta == MetaSentBy(Follow(es[..i]).value.phase)
      invariant cleanDone <==> Follow(es[..i]).value.phase.Succeeded?
    {
      AdvancePrefix(es, i);
      hide Follow;
      match es[i] {
        case Token(text) => answer := answer + text;
        case Described(m) => meta := Some(m);
        case Done => cleanDone := true;
        case _ =>
      }
    }
    assert es[..|es|] == es;
  }

  lemma AdvancePrefix(es: seq<Event>, i: nat)
    requires Follow(es).Some? && i < |es|
    ensures Follow(es[..i]).Some? && Follow(es[..i + 1]).Some?
    ensures Some(Follow(es[..i + 1]).value) == Advance(Follow(es[..i]).value, es[i])
  {
    assert es[..i + 1][..i] == es[..i];
    FollowPrefix(es, i + 1);
  }

  /** The JSON transport, and the in-process entry point: the response of a completed run, and a
      provider error as soon as the stream reports one, breaks off, or ends without a meta. */
  method Collect(es: seq<Event>, raised: bool) returns (response: Option<Response>)
    requires Follow(es).Some?
    ensures response ==
            if raised || Follow(es).value.phase.Failed? || MetaSentBy(Follow(es).value.phase).None? then None
            else Some(Response(TextOf(es), MetaSentBy(Follow(es).value.phase).value))
  {
    ErrorIffFailed(es);
    for i := 0 to |es|
      invariant forall j :: 0 <= j < i ==> !es[j].Error?
    {
      if es[i].Error? {
        assert es[i] in es;
        return None;
      }
    }
    if raised { return None; }
    var answer, meta, cleanDone := Accumulate(es);
    FollowedText(es);
    response := if meta.Some? then Some(Response(answer, meta.value)) else None;
  }

  lemma ErrorIffFailed(es: seq<Event>)
    requires Follow(es).Some?
    ensures Follow(es).value.phase.Failed? <==> exists e :: e in es && e.Error?
  {
    var pre := FollowedShape(es);
    var ending := Ending(Follow(es).value.phase);
    EndingErrors(Follow(es).value.phase);
    assert forall e :: e in pre ==> !e.Error?;
    hide *;
    assert forall e :: e in es <==> e in pre || e in ending;
  }

  lemma EndingErrors(phase: Phase)
    ensures phase.Failed? <==> exists e :: e in Ending(phase) && e.Error?
  {
    if phase.Failed? { assert Error(phase.message) in Ending(phase); }
  }

  /** Where the server's deadline finds the stream: waiting for the next event after so many, or
      sending one of them to the client. */
  datatype Deadline = Never | Waiting(after: nat) | Sending(after: nat)

  /** The producer gives control away at most before its first event and after a stage or a token; the
      ending comes without a pause. */
  predicate Pauses(es: seq<Event>, after: nat) {
    after <= |es| && (after == 0 || es[after - 1].Stage? || es[after - 1].Token?)
  }

  ghost predicate StreamingAt(es: seq<Event>, after: nat) {
    after <= |es| && Follow(es[..after]).Some? && Follow(es[..after]).value.phase.Streaming?
  }

  lemma PausesWhileStreaming(es: seq<Event>, after: nat)
    requires Follow(es).Some?
    ensures Pauses(es, after) <==> StreamingAt(es, after)
  {
    if after <= |es| {
      FollowPrefix(es, after);
      if after > 0 {
        AdvancePrefix(es, after - 1);
        hide Follow;
        assert Advance(Follow(es[..after - 1]).value, es[after - 1]).Some?;
      }
    }
  }

  /** The streaming transport under the server's deadline. While the producer is waited for it turns
      into an error event and ends the stream; while a frame is being sent it only cuts the stream;
      past the streaming part it cannot find the producer waiting. */
  method SseEvents(es: seq<Event>, deadline: Deadline) returns (sent: seq<Event>)
    requires Follow(es).Some?
    ensures Follow(sent).Some? && EndsAtTerminal(sent)
    ensures deadline.Never? ==> sent == es
    ensures deadline.Waiting? ==>
              && (StreamingAt(es, deadline.after) ==>
                    && sent == es[..deadline.after] + [Error("request timed out")]
                    && Follow(sent).value == Follow(es[..deadline.after]).value.(phase := Failed("request timed out")))
              && (!StreamingAt(es, deadline.after) ==> sent == es)
    ensures deadline.Sending? ==> sent == if deadline.after <= |es| then es[..deadline.after] else es
  {
    sent := es;
    match deadline {
      case Never =>
      case Waiting(after) =>
        PausesWhileStreaming(es, after);
        if Pauses(es, after) {
          sent := es[..after] + [Error("request timed out")];
          FollowSnoc(es[..after], Error("request timed out"));
        }
      case Sending(after) =>
        if after <= |es| {
          FollowPrefix(es, after);
          sent := es[..after];
        }
    }
    TerminalIsLast(sent);
  }

  // ------------------------------------------------------------------ end to end

  datatype Payload =
    | Nothing | StageData(name: StageName, status: Status) | TokenData(token: string)
    | CitationsData(list: seq<Citation>) | MetaData(meta: Meta) | ErrorData(message: string)

  function Outgoing(e: Event): SseWire.Frame<Payload> {
    match e
    case Stage(name, status) => SseWire.Frame("stage", StageData(name, status))
    case Token(text) => SseWire.Frame("token", TokenData(text))
    case Citations(list) => SseWire.Frame("citations", CitationsData(list))
    case Described(meta) => SseWire.Frame("meta", MetaData(meta))
    case Done => SseWire.Frame("done", Nothing)
    case Error(message) => SseWire.Frame("error", ErrorData(message))
  }

  /** The client's switch on the event name; an absent text reads as JavaScript's undefined. */
  function Incoming(f: SseWire.Frame<Payload>): Option<Event> {
    if f.event == "token" then Some(Token(if f.data.TokenData? then f.data.token else "undefined"))
    else if f.event == "error" then Some(Error(if f.data.ErrorData? then f.data.message else "undefined"))
    else if f.event == "done" then Some(Done)
    else if f.event == "stage" && f.data.StageData? then Some(Stage(f.data.name, f.data.status))
    else if f.event == "citations" && f.data.CitationsData? then Some(Citations(f.data.list))
    else if f.event == "meta" && f.data.MetaData? then Some(Described(f.data.meta))
    else None
  }

  lemma IncomingOutgoing(e: Event)
    ensures Incoming(Outgoing(e)) == Some(e) && SseWire.Named(Outgoing(e))
  {
    assert "stage"[0] == 's' && "token"[0] == 't' && "error"[0] == 'e' && "done"[0] == 'd' && "meta"[0] == 'm'
           && "citations"[0] == 'c';
  }

  function Dispatched(fs: seq<SseWire.Frame<Payload>>): seq<Event> {
    if fs == [] then []
    else (match Incoming(fs[0]) case Some(e) => [e] case None => []) + Dispatched(fs[1..])
  }

  lemma {:induction false} DispatchedOutgoing(es: seq<Event>)
    ensures Dispatched(Map(Outgoing, es)) == es
  {
    if es != [] {
      IncomingOutgoing(es[0]);
      DispatchedOutgoing(es[1..]);
      assert Map(Outgoing, es)[1..] == Map(Outgoing, es[1..]);
    }
  }

  /** The body closes after the last event, or breaks off when the producer raised. */
  function EndOf(raised: bool): TurnReducer.StreamEnd {
    if raised then TurnReducer.Threw("network error") else TurnReducer.Closed
  }

  /** The client's status for every way a stream can end. */
  function StatusFor(phase: Phase): TurnReducer.TurnStatus {
    match phase
    case Succeeded(meta) => if meta.refused then TurnReducer.Refused else TurnReducer.Complete
    case Failed(_) => TurnReducer.Interrupted
    case _ => TurnReducer.Broken
  }

  /** The error a turn shows for every way a stream can end. */
  function ErrorFor(phase: Phase): Option<string> {
    match phase
    case Succeeded(_) => None
    case Failed(message) => Some(message)
    case Streaming => Some("network error")
    case _ => Some("disconnected")
  }

  lemma LastMetaIsSent(es: seq<Event>)
    requires Follow(es).Some? && Follow(es).value.phase.Succeeded?
    ensures TurnReducer.LastMeta(es) == Some(Follow(es).value.phase.meta) && Done in es
  {
    SucceededEnding(es);
    var n, meta := |es|, Follow(es).value.phase.meta;
    hide Follow;
    assert es[n - 1] == es[n - 3..][2] == Done && es[n - 2] == es[n - 3..][1] == Described(meta);
    assert es[..n - 1][|es[..n - 1]| - 1] == Described(meta);
  }

  /** The citations named last by a completed stream are those of its meta. */
  lemma LastCited(es: seq<Event>, list: seq<Citation>)
    requires Follow(es).Some? && Follow(es).value.phase.Succeeded? && TurnReducer.CitationsAre(es, list)
    ensures list == Follow(es).value.phase.meta.citations
  {
    SucceededEnding(es);
    var n, meta := |es|, Follow(es).value.phase.meta;
    hide Follow;
    assert es[n - 3] == es[n - 3..][0] && es[n - 2] == es[n - 3..][1] && es[n - 1] == es[n - 3..][2];
    TurnReducer.CitedAtEnd(es, meta, list);
  }

  lemma LastErrorIsSent(es: seq<Event>)
    requires Follow(es).Some? && Follow(es).value.phase.Failed?
    ensures TurnReducer.LastError(es) == Some(Follow(es).value.phase.message)
  {
    var pre := FollowedShape(es);
    var phase := Follow(es).value.phase;
    hide Follow;
    assert es[|es| - 1] == Error(phase.message);
  }

  lemma NoDoneUnlessSucceeded(es: seq<Event>)
    requires Follow(es).Some? && !Follow(es).value.phase.Succeeded?
    ensures Done !in es
  {
    var pre := FollowedShape(es);
    var phase := Follow(es).value.phase;
    hide Follow;
    assert forall e :: e in es <==> e in pre || e in Ending(phase);
  }

  /** The turn a finished stream leaves on the screen. */
  lemma TurnOnScreen(es: seq<Event>, id: string, question: string)
    requires Follow(es).Some?
    ensures var phase := Follow(es).value.phase;
            var t := TurnReducer.Ended(TurnReducer.NewTurn(id, question), es, EndOf(phase.Streaming?), Done in es);
            && t.id == id && t.answer == TextOf(es) && t.stages == TurnReducer.Trail(es)
            && t.question == question
            && (phase.Streaming? || phase.Succeeded? || phase.Failed? ==> t.status == StatusFor(phase))
            && (phase.Succeeded? ==> t.meta == Some(phase.meta) && t.citations == phase.meta.citations)
            && t.error == ErrorFor(phase) && (t.collapsed <==> !phase.Streaming?)
  {
    var phase := Follow(es).value.phase;
    TurnReducer.AbsorbedLast(id, question, es);
    if phase.Succeeded? { LastCited(es, TurnReducer.AbsorbAll(TurnReducer.NewTurn(id, question), es).citations); }
    if phase.Failed? { LastErrorIsSent(es); }
    hide TurnReducer.CitationsAre, TurnReducer.MetaIs, TurnReducer.ErrorIs;
    ErrorIffFailed(es);
    TurnReducer.LastErrorSaw(es);
    TurnReducer.AbsorbedTurn(id, question, es);
    if phase.Succeeded? { LastMetaIsSent(es); } else { NoDoneUnlessSucceeded(es); }
    hide Follow, TurnReducer.AbsorbAll, TurnReducer.Trail, TurnReducer.LastMeta, TurnReducer.LastError, TextOf;
  }

  lemma Delivered(codec: SseWire.Codec<Payload>, es: seq<Event>, chunks: seq<string>)
    requires SseWire.Faithful(codec) && Flatten(chunks) == SseWire.EncodeAll(codec, Map(Outgoing, es))
    ensures Dispatched(SseWire.Reading(codec, Flatten(chunks))) == es
  {
    DispatchedOutgoing(es);
    forall f | f in Map(Outgoing, es) ensures SseWire.Named(f) {
      var i :| 0 <= i < |es| && Map(Outgoing, es)[i] == f;
      IncomingOutgoing(es[i]);
    }
    hide SseWire.Reading, SseWire.EncodeAll, Outgoing, Flatten, Dispatched;
    SseWire.RoundTrip(codec, Map(Outgoing, es), chunks);
  }

  /** The turn shows the progress of the stream it was fed. */
  ghost predicate Shows(p: Progress, t: TurnReducer.Turn) {
    && t.answer == p.text && TurnReducer.Mirrors(t.stages, p)
    && (p.phase.Streaming? || p.phase.Succeeded? || p.phase.Failed? ==> t.status == StatusFor(p.phase))
    && (p.phase.Succeeded? ==> t.meta == Some(p.phase.meta) && t.citations == p.phase.meta.citations)
    && t.error == ErrorFor(p.phase) && (t.collapsed <==> !p.phase.Streaming?)
  }

  /** From a producer's events to both clients: the turn on the screen, whatever chunks the network
      makes of the frames, and the JSON response. */
  method ToClients(codec: SseWire.Codec<Payload>, es: seq<Event>, raised: bool, network: string -> seq<string>,
                   id: string, question: string)
    returns (chat: TurnReducer.ChatState, json: Option<Response>)
    requires SseWire.Faithful(codec) && forall text :: Flatten(network(text)) == text
    requires Follow(es).Some? && (raised <==> Follow(es).value.phase.Streaming?)
    ensures TurnReducer.Holds(chat.turns, id)
    ensures forall t :: t in chat.turns && t.id == id ==> t.question == question && Shows(Follow(es).value, t)
    ensures json ==
            var p := Follow(es).value;
            if raised || p.phase.Failed? || MetaSentBy(p.phase).None? then None
            else Some(Response(p.text, MetaSentBy(p.phase).value))
  {
    hide SseWire.Reading, SseWire.EncodeAll, Outgoing, Flatten, Dispatched, Follow, TextOf;
    json := Collect(es, raised);
    FollowedText(es);
    var chunks := network(SseWire.EncodeAll(codec, Map(Outgoing, es)));
    var frames := SseWire.AskStream(codec, chunks);
    Delivered(codec, es, chunks);
    chat := TurnReducer.Run(TurnReducer.ChatState([], None), id, question, Dispatched(frames), EndOf(raised));
    TurnOnScreen(es, id, question);
    TurnReducer.TrailMirrors(es);
  }

  /** What a run calls for on the screen. */
  predicate Calls(memory: Option<Memory>, flags: Flags, settings: Settings, w: World, t: TurnReducer.Turn) {
    if Breaks(memory, flags, settings, w) then t.status.Broken? && t.error == Some("network error") && !t.collapsed
    else if Caught(flags, settings, w) then
      t.status.Interrupted? && t.error == Some(CaughtMessage(settings, w)) && t.collapsed
    else
      var a, ran, skipped := Answered(flags, settings, w), RunsOf(memory, flags, w), SkipsOf(memory, flags, w);
      && t.answer == a.answer && t.meta == Some(a.meta) && t.citations == a.meta.citations
      && t.error == None && t.collapsed
      && t.status == (if a.meta.refused then TurnReducer.Refused else TurnReducer.Complete)
      && (forall i :: 0 <= i < |t.stages| ==> t.stages[i].name in if t.stages[i].status.Finished? then ran else skipped)
      && (forall n :: n in ran || n in skipped ==> exists i :: 0 <= i < |t.stages| && t.stages[i].name == n)
  }

  lemma WholeTurnCalls(memory: Option<Memory>, flags: Flags, settings: Settings, w: World, es: seq<Event>,
                       t: TurnReducer.Turn)
    requires WholeTurn(memory, flags, settings, w, es) && Shows(Follow(es).value, t)
    ensures Calls(memory, flags, settings, w, t)
  {
    hide Follow, Answered, Uncaught, Caught, ToRun, ToSkip, CaughtMessage;
    var p := Follow(es).value;
    forall i | 0 <= i < |t.stages| ensures t.stages[i].name in TurnReducer.Standing(p, t.stages[i].status) {
    }
  }

  /** What a whole run sends over the JSON transport. */
  function Replied(memory: Option<Memory>, flags: Flags, settings: Settings, w: World): Option<Response> {
    if Breaks(memory, flags, settings, w) || Caught(flags, settings, w) then None
    else Some(Answered(flags, settings, w))
  }

  /** One ask over both transports, from the producer to the screen: a completed run leaves one turn
      with the response's text and meta, a trail with every stage closed, and its status; the JSON
      transport returns the same response; and a run that fails shows as failed on both. */
  method AskInBrowser(codec: SseWire.Codec<Payload>, flags: Flags, settings: Settings, w: World,
                      network: string -> seq<string>, id: string, question: string)
    returns (chat: TurnReducer.ChatState, json: Option<Response>)
    requires SseWire.Faithful(codec) && forall text :: Flatten(network(text)) == text
    ensures TurnReducer.Holds(chat.turns, id)
    ensures forall t :: t in chat.turns && t.id == id ==> t.question == question && Calls(None, flags, settings, w, t)
    ensures json == Replied(None, flags, settings, w)
  {
    hide Flatten, Follow, Answered, Uncaught, Caught, Cacheable, TextOf, ToRun, ToSkip, CaughtMessage, Calls, Shows;
    var es, raised, cacheWrite := PipelineEvents(flags, settings, w);
    assert RunsOf(None, flags, w) == ToRun(flags, w) && SkipsOf(None, flags, w) == ToSkip(flags, w);
    assert WholeTurn(None, flags, settings, w, es);
    chat, json := ToClients(codec, es, raised, network, id, question);
    forall t | t in chat.turns && t.id == id ensures Calls(None, flags, settings, w, t) {
      WholeTurnCalls(None, flags, settings, w, es, t);
    }
  }

  /** One turn of a conversation, from the lock to the screen: the same, with the memory stage in
      front on the trail, the lock free at the end, and in the transcript exactly what the JSON
      transport returns. */
  method ChatInBrowser(lock: SessionLock, memory: Memory, codec: SseWire.Codec<Payload>, flags: Flags,
                       settings: Settings, w: World, network: string -> seq<string>, id: string, question: string)
    returns (chat: TurnReducer.ChatState, json: Option<Response>, transcript: Option<Response>)
    requires SseWire.Faithful(codec) && (forall text :: Flatten(network(text)) == text) && lock.held
    modifies lock
    ensures !lock.held
    ensures TurnReducer.Holds(chat.turns, id)
    ensures forall t :: t in chat.turns && t.id == id ==>
            t.question == question && Calls(Some(memory), flags, settings, w, t)
    ensures json == transcript == Replied(Some(memory), flags, settings, w)
  {
    hide Flatten, Follow, Answered, Uncaught, Caught, TextOf, ToRun, ToSkip, CaughtMessage, Calls, Shows;
    var es, raised, cacheWrite, left;
    ghost var full;
    es, raised, cacheWrite, transcript, left, full := MemoryEvents(lock, memory, flags, settings, w, None);
    chat, json := ToClients(codec, es, raised, network, id, question);
    forall t | t in chat.turns && t.id == id ensures Calls(Some(memory), flags, settings, w, t) {
      WholeTurnCalls(Some(memory), flags, settings, w, es, t);
    }
  }

  // ------------------------------------------------------------------ asking again

  /** What the producer is told of a two-tier lookup. */
  function LookupOf(found: SemanticCache.Found, load: string -> Response): Outcome<Lookup> {
    match found
    case Exact(answer) => Returned(ExactHit(load(answer)))
    case Close(answer, _) => Returned(SemanticHit(load(answer)))
    case Missed => Returned(Miss)
    case NotEmbedded => Raised("embedding")
  }

  /** Two runs with the cache between them: when the first hands its response to the cache, the
      question asked again in any spelling streams the same text, the same citations and the same
      meta, marked as a hit, whatever else has become of the services it no longer needs. */
  method AskAgain(cache: SemanticCache.SemanticCache, dump: Response -> string, load: string -> Response,
                  flags: Flags, settings: Settings, w: World, flags': Flags, w': World, query: string, spelling: string,
                  embedding: CacheIndex.Vector, embed: string -> Option<CacheIndex.Vector>, minted: CacheIndex.EntryId,
                  now: int, later: int, indexed: string)
    returns (first: seq<Event>, kept: Option<Response>, second: seq<Event>)
    requires cache.Valid() && minted !in cache.table && flags'.cache
    requires forall r :: load(dump(r)) == r
    requires CacheKeys.Normalize(cache.casing, spelling) == CacheKeys.Normalize(cache.casing, query)
    modifies cache
    ensures cache.Valid()
    ensures kept == if Cacheable(flags, settings, w) then Some(Answered(flags, settings, w)) else None
    ensures kept.Some? ==>
              && Follow(first).Some? && Follow(second).Some?
              && Follow(first).value.phase == Succeeded(kept.value.meta)
              && Follow(second).value.phase == Succeeded(kept.value.meta.(cacheHit := true))
              && TextOf(second) == TextOf(first) == kept.value.answer
  {
    hide Follow, TextOf, CleanEnding, ToRun, ToSkip;
    var raised, again;
    first, raised, kept := PipelineEvents(flags, settings, w);
    second := [];
    if kept.Some? {
      var found := cache.WriteThenAsk(query, spelling, embedding, dump(kept.value), minted, now, later, indexed, false,
                                      embed);
      second, raised, again := PipelineEvents(flags', settings, w'.(lookup := LookupOf(found, load)));
    }
  }

  // ------------------------------------------------------------------ a stream cut before its data

  /** A token frame that stops after its name shows the user a word nobody wrote. */
  lemma UndefinedOnScreen(codec: SseWire.Codec<Payload>, text: string)
    requires SseWire.Faithful(codec) && codec.empty == Nothing
    ensures var cut := SseWire.Encode(codec, Outgoing(Token(text)))[..|SseWire.EVENT| + 5];
            Dispatched(SseWire.Reading(codec, cut)) == [Token("undefined")]
  {
    var f := Outgoing(Token(text));
    IncomingOutgoing(Token(text));
    SseWire.CutStream(codec, [], f, |SseWire.EVENT| + 5);
    assert SseWire.EncodeAll(codec, []) + SseWire.Encode(codec, f)[..|SseWire.EVENT| + 5] ==
           SseWire.Encode(codec, f)[..|SseWire.EVENT| + 5];
    assert f.event[..5] == f.event;
    var stub := SseWire.Frame("token", Nothing);
    assert Incoming(stub) == Some(Token("undefined"));
    assert Dispatched([stub]) == [Token("undefined")] by { assert [stub][1..] == []; }
  }
}
