/** The answering pipeline as a producer of events: stages, tokens, citations, meta and one terminal
    event, over every flag combination and every point at which something can fail. */
module EventPipeline {
  import opened Prelude

  datatype StageName =
    | SummarizingMemory | CacheLookup | Rewriting | Searching | Reranking | Compressing | Generating | Citing

  datatype Status = Started | Finished | Skipped

  type Citation = string

  /** A response without its answer text. */
  datatype Meta = Meta(citations: seq<Citation>, refused: bool, cacheHit: bool, degraded: bool,
                       summarized: bool, tokensIn: nat, tokensOut: nat)

  datatype Response = Response(answer: string, meta: Meta)

  datatype Event =
    | Stage(name: StageName, status: Status)
    | Token(text: string)
    | Citations(list: seq<Citation>)
    | Described(meta: Meta)
    | Done
    | Error(message: string)

  datatype Flags = Flags(cache: bool, rewrite: bool, rerank: bool, compression: bool)

  datatype Settings = Settings(retries: nat, disclaimer: string)

  datatype Outcome<+T> = Returned(value: T) | Raised(message: string)

  datatype Lookup = ExactHit(response: Response) | SemanticHit(response: Response) | Miss

  datatype Retrieved = Retrieved(confident: bool, suggestions: seq<Citation>, rerankTimed: bool, degraded: bool)

  datatype Failure = Failure(retryable: bool, message: string)

  /** One run of the generation chain: what it streams before it ends or fails. */
  datatype Attempt = Attempt(pieces: seq<string>, failure: Option<Failure>)

  /** Everything the pipeline asks of other services, as each will answer. */
  datatype World = World(
    lookup: Outcome<Lookup>,
    retrieval: Outcome<Retrieved>,
    setupFails: bool,
    attempt: nat -> Attempt,
    accountingFails: bool,
    resolve: string -> Outcome<seq<Citation>>,
    tokensIn: nat,
    summarized: bool)

  // ------------------------------------------------------------------ the contract, event by event

  /** How far a stream has got: once the citations are out only the meta may follow, then `done`. */
  datatype Phase =
    | Streaming
    | Cited(list: seq<Citation>)
    | MetaSent(meta: Meta)
    | Succeeded(meta: Meta)
    | Failed(message: string)

  /** Whether a token has come, and whether a stage event has come after one. */
  datatype Order = Opening | Speaking | Late

  /** Stages running, finished and skipped so far, the text so far, the phase, and the order. */
  datatype Progress = Progress(running: set<StageName>, ran: set<StageName>, skipped: set<StageName>,
                               text: string, phase: Phase, order: Order)

  const START := Progress({}, {}, {}, "", Streaming, Opening)

  function AfterStage(o: Order): Order { if o.Opening? then Opening else Late }

  function AfterToken(o: Order): Order { if o.Opening? then Speaking else o }

  /** The pipeline's stages are these, in this order. */
  lemma RankIsPlace(n: StageName)
    ensures Rank(n) < 8
    ensures [SummarizingMemory, CacheLookup, Rewriting, Searching, Reranking, Compressing, Generating,
             Citing][Rank(n)] == n
  {
  }

  /** The place of a stage in the pipeline. */
  function Rank(n: StageName): nat {
    match n
    case SummarizingMemory => 0
    case CacheLookup => 1
    case Rewriting => 2
    case Searching => 3
    case Reranking => 4
    case Compressing => 5
    case Generating => 6
    case Citing => 7
  }

  predicate Seen(p: Progress, n: StageName) { n in p.running || n in p.ran || n in p.skipped }

  /** Only earlier stages have been seen. */
  ghost predicate Due(p: Progress, n: StageName) {
    forall m :: m in p.running || m in p.ran || m in p.skipped ==> Rank(m) < Rank(n)
  }

  ghost predicate MaySpeak(p: Progress) { Generating in p.running || Citing in p.ran || Citing in p.skipped }

  /** One more event, if the contract allows it here: stages come in pipeline order, each skipped, or
      started and then finished; tokens come while generating or after citing; and nothing may be
      left open when the citations go out. */
  ghost function Advance(p: Progress, e: Event): Option<Progress> {
    match e
    case Stage(n, Started) =>
      if p.phase.Streaming? && Due(p, n) then Some(p.(running := p.running + {n}, order := AfterStage(p.order)))
      else None
    case Stage(n, Finished) =>
      if p.phase.Streaming? && n in p.running
      then Some(p.(running := p.running - {n}, ran := p.ran + {n}, order := AfterStage(p.order)))
      else None
    case Stage(n, Skipped) =>
      if p.phase.Streaming? && Due(p, n) then Some(p.(skipped := p.skipped + {n}, order := AfterStage(p.order)))
      else None
    case Token(text) =>
      if p.phase.Streaming? && MaySpeak(p) then Some(p.(text := p.text + text, order := AfterToken(p.order))) else None
    case Citations(list) => if p.phase.Streaming? && p.running == {} then Some(p.(phase := Cited(list))) else None
    case Described(meta) =>
      if p.phase.Cited? && p.phase.list == meta.citations then Some(p.(phase := MetaSent(meta))) else None
    case Done => if p.phase.MetaSent? then Some(p.(phase := Succeeded(p.phase.meta))) else None
    case Error(message) => if p.phase.Streaming? then Some(p.(phase := Failed(message))) else None
  }

  ghost function Follow(es: seq<Event>): Option<Progress> {
    if es == [] then Some(START)
    else
      match Follow(es[..|es| - 1])
      case None => None
      case Some(p) => Advance(p, es[|es| - 1])
  }

  lemma NothingFollowed()
    ensures At([], START)
  {
  }

  lemma FollowSnoc(es: seq<Event>, e: Event)
    ensures Follow(es + [e]) == match Follow(es) case None => None case Some(p) => Advance(p, e)
  {
    assert (es + [e])[..|es|] == es;
  }

  lemma {:induction false} FollowPrefix(es: seq<Event>, k: nat)
    requires Follow(es).Some? && k <= |es|
    ensures Follow(es[..k]).Some?
  {
    if k < |es| {
      FollowPrefix(es[..|es| - 1], k);
      assert es[..|es| - 1][..k] == es[..k];
    } else {
      assert es[..k] == es;
    }
  }

  // ------------------------------------------------------------------ what a followed stream looks like

  predicate IsTerminal(e: Event) { e.Done? || e.Error? }

  function TextOf(es: seq<Event>): string {
    if es == [] then ""
    else TextOf(es[..|es| - 1]) + match es[|es| - 1] case Token(text) => text case _ => ""
  }

  /** The statuses a stage went through. */
  function StatusesOf(es: seq<Event>, n: StageName): seq<Status> {
    if es == [] then []
    else
      StatusesOf(es[..|es| - 1], n) +
      match es[|es| - 1] case Stage(m, status) => (if m == n then [status] else []) case _ => []
  }

  /** Nothing follows a terminal event. */
  ghost predicate EndsAtTerminal(es: seq<Event>) {
    forall i :: 0 <= i < |es| && IsTerminal(es[i]) ==> i == |es| - 1
  }

  ghost predicate OnlyStagesAndTokens(es: seq<Event>) {
    forall e :: e in es ==> e.Stage? || e.Token?
  }

  /** The last three events are the citations, their meta and `done`, and everything before is
      stages and tokens. */
  ghost predicate CleanEnding(es: seq<Event>, meta: Meta) {
    && |es| >= 3
    && es[|es| - 3..] == [Citations(meta.citations), Described(meta), Done]
    && OnlyStagesAndTokens(es[..|es| - 3])
  }

  function Ending(phase: Phase): seq<Event> {
    match phase
    case Streaming => []
    case Cited(list) => [Citations(list)]
    case MetaSent(meta) => [Citations(meta.citations), Described(meta)]
    case Succeeded(meta) => [Citations(meta.citations), Described(meta), Done]
    case Failed(message) => [Error(message)]
  }

  /** A followed stream is stages and tokens, then the ending its phase calls for. */
  lemma {:induction false} FollowedShape(es: seq<Event>) returns (pre: seq<Event>)
    requires Follow(es).Some?
    ensures es == pre + Ending(Follow(es).value.phase) && OnlyStagesAndTokens(pre)
  {
    if es == [] {
      pre := [];
    } else {
      var e, init := es[|es| - 1], es[..|es| - 1];
      var p := Follow(init).value;
      pre := FollowedShape(init);
      assert es == init + [e] && Some(Follow(es).value) == Advance(p, e);
      AdvanceShape(p, e, Follow(es).value);
      hide Follow, Advance, Ending;
      if e.Stage? || e.Token? {
        assert pre == init;
        pre := pre + [e];
      }
    }
  }

  lemma AdvanceShape(p: Progress, e: Event, q: Progress)
    requires Advance(p, e) == Some(q)
    ensures e.Stage? || e.Token? ==> Ending(p.phase) == [] && Ending(q.phase) == []
    ensures !e.Stage? && !e.Token? ==> Ending(q.phase) == Ending(p.phase) + [e]
  {
    hide Due, MaySpeak;
  }

  lemma SucceededEnding(es: seq<Event>)
    requires Follow(es).Some? && Follow(es).value.phase.Succeeded?
    ensures CleanEnding(es, Follow(es).value.phase.meta)
  {
    var pre := FollowedShape(es);
    var ending := Ending(Follow(es).value.phase);
    hide Follow;
    assert |ending| == 3 && es[|es| - 3..] == ending && es[..|es| - 3] == pre;
  }

  /** A followed stream has at most one terminal event, in last place, and has one exactly when it
      succeeded or failed. */
  lemma TerminalIsLast(es: seq<Event>)
    requires Follow(es).Some?
    ensures EndsAtTerminal(es)
    ensures Follow(es).value.phase.Succeeded? || Follow(es).value.phase.Failed? <==>
            es != [] && IsTerminal(es[|es| - 1])
  {
    var pre := FollowedShape(es);
    var ending := Ending(Follow(es).value.phase);
    hide Follow;
    forall i | 0 <= i < |es| ensures IsTerminal(es[i]) ==> i == |es| - 1 {
      if i < |pre| {
        assert es[i] == pre[i] && pre[i] in pre;
      } else {
        assert es[i] == ending[i - |pre|];
      }
    }
    if ending != [] {
      assert es[|es| - 1] == ending[|ending| - 1];
    } else if es != [] {
      assert es[|es| - 1] in pre;
    }
  }

  lemma {:induction false} FollowedText(es: seq<Event>)
    requires Follow(es).Some?
    ensures Follow(es).value.text == TextOf(es)
  {
    if es != [] {
      FollowedText(es[..|es| - 1]);
    }
  }

  /** A stage event after a token: what `stage* -> token*` rules out. */
  ghost predicate StageAfterToken(es: seq<Event>) {
    exists i, j :: 0 <= i < j < |es| && es[i].Token? && es[j].Stage?
  }

  lemma {:induction false} FollowedOrder(es: seq<Event>)
    requires Follow(es).Some?
    ensures Follow(es).value.order.Opening? <==> forall e :: e in es ==> !e.Token?
    ensures Follow(es).value.order.Late? <==> StageAfterToken(es)
  {
    if es != [] {
      var init, e := es[..|es| - 1], es[|es| - 1];
      FollowedOrder(init);
      assert Some(Follow(es).value) == Advance(Follow(init).value, e);
      hide Follow, Advance, Due, MaySpeak;
      assert forall x :: x in es <==> x in init || x == e;
      StageAfterTokenSnoc(init, e);
    }
  }

  lemma StageAfterTokenSnoc(es: seq<Event>, e: Event)
    ensures StageAfterToken(es + [e]) <==> StageAfterToken(es) || (e.Stage? && exists t :: t in es && t.Token?)
  {
    var r := es + [e];
    if StageAfterToken(es) {
      var i, j :| 0 <= i < j < |es| && es[i].Token? && es[j].Stage?;
      assert r[i].Token? && r[j].Stage?;
    } else if e.Stage? && exists t :: t in es && t.Token? {
      var i :| 0 <= i < |es| && es[i].Token?;
      assert r[i].Token? && r[|es|].Stage?;
    }
  }

  /** Every stage is absent, skipped once, started and still open, or started and finished. */
  ghost predicate StageAccounted(p: Progress, n: StageName, statuses: seq<Status>) {
    if n in p.running then n !in p.ran && n !in p.skipped && statuses == [Started]
    else if n in p.ran then n !in p.skipped && statuses == [Started, Finished]
    else if n in p.skipped then statuses == [Skipped]
    else statuses == []
  }

  lemma {:induction false} FollowedStages(es: seq<Event>, n: StageName)
    requires Follow(es).Some?
    ensures StageAccounted(Follow(es).value, n, StatusesOf(es, n))
  {
    if es != [] {
      FollowedStages(es[..|es| - 1], n);
      var e, p := es[|es| - 1], Follow(es[..|es| - 1]).value;
      assert Some(Follow(es).value) == Advance(p, e);
      if e.Stage? && e.name == n {
        assert StatusesOf(es, n) == StatusesOf(es[..|es| - 1], n) + [e.status];
      } else {
        assert StatusesOf(es, n) == StatusesOf(es[..|es| - 1], n);
      }
    }
  }

  predicate Opens(e: Event) { e.Stage? && !e.status.Finished? }

  lemma {:induction false} StageSeen(es: seq<Event>, i: nat)
    requires Follow(es).Some? && i < |es| && es[i].Stage?
    ensures Seen(Follow(es).value, es[i].name)
  {
    if i < |es| - 1 { StageSeen(es[..|es| - 1], i); }
    assert Some(Follow(es).value) == Advance(Follow(es[..|es| - 1]).value, es[|es| - 1]);
  }

  /** Stages open in pipeline order. */
  lemma StagesInOrder(es: seq<Event>, i: nat, j: nat)
    requires Follow(es).Some? && i < j < |es| && es[i].Stage? && Opens(es[j])
    ensures Rank(es[i].name) < Rank(es[j].name)
  {
    var before := es[..j];
    FollowPrefix(es, j + 1);
    assert es[..j + 1][..j] == before && es[..j + 1][j] == es[j];
    assert Advance(Follow(before).value, es[j]).Some?;
    StageSeen(before, i);
  }

  /** Tokens come while generating or once citing is closed, and nothing is open when the citations go out. */
  lemma InTime(es: seq<Event>, i: nat)
    requires Follow(es).Some? && i < |es|
    ensures es[i].Token? ==>
              || StatusesOf(es[..i], Generating) == [Started]
              || StatusesOf(es[..i], Citing) == [Skipped] || StatusesOf(es[..i], Citing) == [Started, Finished]
    ensures es[i].Citations? ==> forall n :: StatusesOf(es[..i], n) != [Started]
  {
    FollowPrefix(es, i + 1);
    assert es[..i + 1][..i] == es[..i] && es[..i + 1][i] == es[i];
    var p := Follow(es[..i]).value;
    assert Advance(p, es[i]).Some?;
    FollowedStages(es[..i], Generating);
    FollowedStages(es[..i], Citing);
    hide Follow, StatusesOf;
    if es[i].Citations? {
      forall n ensures StatusesOf(es[..i], n) != [Started] {
        FollowedStages(es[..i], n);
      }
    }
  }

  // ------------------------------------------------------------------ emitting

  ghost predicate At(es: seq<Event>, p: Progress) { Follow(es) == Some(p) }

  method Yield(es: seq<Event>, e: Event, ghost p: Progress) returns (r: seq<Event>, ghost q: Progress)
    requires At(es, p) && Advance(p, e).Some?
    ensures r == es + [e] && At(r, q) && Some(q) == Advance(p, e)
  {
    r := es + [e];
    FollowSnoc(es, e);
    q := Advance(p, e).value;
  }

  method YieldStart(es: seq<Event>, n: StageName, ghost p: Progress) returns (r: seq<Event>, ghost q: Progress)
    requires At(es, p) && p.phase.Streaming? && Due(p, n)
    ensures r == es + [Stage(n, Started)] && At(r, q)
    ensures q == p.(running := p.running + {n}, order := AfterStage(p.order))
  {
    r, q := Yield(es, Stage(n, Started), p);
  }

  method YieldFinish(es: seq<Event>, n: StageName, ghost p: Progress) returns (r: seq<Event>, ghost q: Progress)
    requires At(es, p) && p.phase.Streaming? && n in p.running
    ensures r == es + [Stage(n, Finished)] && At(r, q)
    ensures q == p.(running := p.running - {n}, ran := p.ran + {n}, order := AfterStage(p.order))
  {
    r, q := Yield(es, Stage(n, Finished), p);
  }

  method YieldError(es: seq<Event>, message: string, ghost p: Progress) returns (r: seq<Event>, ghost q: Progress)
    requires At(es, p) && p.phase.Streaming?
    ensures r == es + [Error(message)] && At(r, q) && q == p.(phase := Failed(message))
  {
    r, q := Yield(es, Error(message), p);
  }

  /** A stage that ran, reported as one started and one finished frame. */
  method YieldSpan(es: seq<Event>, n: StageName, ghost p: Progress) returns (r: seq<Event>, ghost q: Progress)
    requires At(es, p) && p.phase.Streaming? && Due(p, n)
    ensures r == es + [Stage(n, Started), Stage(n, Finished)] && At(r, q)
    ensures q == p.(ran := p.ran + {n}, order := AfterStage(p.order))
  {
    ghost var m;
    r, m := Yield(es, Stage(n, Started), p);
    r, q := Yield(r, Stage(n, Finished), m);
    assert m.running - {n} == p.running;
  }

  method YieldSkip(es: seq<Event>, n: StageName, ghost p: Progress) returns (r: seq<Event>, ghost q: Progress)
    requires At(es, p) && p.phase.Streaming? && Due(p, n)
    ensures r == es + [Stage(n, Skipped)] && At(r, q)
    ensures q == p.(skipped := p.skipped + {n}, order := AfterStage(p.order))
  {
    r, q := Yield(es, Stage(n, Skipped), p);
  }

  method YieldToken(es: seq<Event>, text: string, ghost p: Progress) returns (r: seq<Event>, ghost q: Progress)
    requires At(es, p) && p.phase.Streaming? && MaySpeak(p)
    ensures r == es + [Token(text)] && At(r, q)
    ensures q == p.(text := p.text + text, order := AfterToken(p.order))
  {
    r, q := Yield(es, Token(text), p);
  }

  /** The three events every answered run ends with. */
  method YieldEnding(es: seq<Event>, meta: Meta, ghost p: Progress) returns (r: seq<Event>, ghost q: Progress)
    requires At(es, p) && p.phase.Streaming? && p.running == {}
    ensures r == es + [Citations(meta.citations), Described(meta), Done] && At(r, q)
    ensures q == p.(phase := Succeeded(meta))
  {
    ghost var m;
    r, m := Yield(es, Citations(meta.citations), p);
    r, m := Yield(r, Described(meta), m);
    r, q := Yield(r, Done, m);
  }

  // ------------------------------------------------------------------ generation with retry

  predicate Speaks(piece: string) { piece != "" }

  /** The non-empty pieces of an attempt: what reaches the client. */
  function Spoken(a: Attempt): seq<string> { Filter(Speaks, a.pieces) }

  /** A failed attempt that is run again: nothing was said, the provider may recover, budget is left. */
  predicate Retried(retries: nat, attempt: nat -> Attempt, n: nat) {
    && attempt(n).failure.Some? && attempt(n).failure.value.retryable
    && Spoken(attempt(n)) == [] && n < retries
  }

  /** The attempt the stream ends with, counting from `n`. */
  function FinalFrom(retries: nat, attempt: nat -> Attempt, n: nat): nat
    decreases if n <= retries then retries - n + 1 else 0
  {
    if Retried(retries, attempt, n) then FinalFrom(retries, attempt, n + 1) else n
  }

  function Final(retries: nat, attempt: nat -> Attempt): nat { FinalFrom(retries, attempt, 0) }

  lemma {:induction false} FinalFromIsFirst(retries: nat, attempt: nat -> Attempt, n: nat, i: nat)
    requires n <= retries
    ensures var f := FinalFrom(retries, attempt, n);
            && n <= f <= retries && !Retried(retries, attempt, f)
            && (n <= i < f ==> Retried(retries, attempt, i))
    decreases retries - n
  {
    if Retried(retries, attempt, n) {
      FinalFromIsFirst(retries, attempt, n + 1, i);
    }
  }

  /** The tokens of a run come from one attempt, at most `retries + 1` are made, and every earlier
      one was silent, failed and retryable. */
  lemma FinalIsFirst(retries: nat, attempt: nat -> Attempt, i: nat)
    ensures Final(retries, attempt) < retries + 1 && !Retried(retries, attempt, Final(retries, attempt))
    ensures i < Final(retries, attempt) ==>
              Spoken(attempt(i)) == [] && attempt(i).failure.Some? && attempt(i).failure.value.retryable
  {
    FinalFromIsFirst(retries, attempt, 0, i);
  }

  /** Dropping the empty pieces changes nothing of the text, and leaves nothing empty. */
  lemma {:induction false} SpokenSaysAll(a: Attempt)
    ensures Flatten(Spoken(a)) == Flatten(a.pieces) && forall x :: x in Spoken(a) ==> x != ""
    decreases |a.pieces|
  {
    var pieces := a.pieces;
    if pieces != [] {
      SpokenSaysAll(Attempt(pieces[1..], None));
      hide Flatten;
      assert Flatten(pieces) == pieces[0] + Flatten(pieces[1..]) by { FlattenHead(pieces); }
      var rest := Filter(Speaks, pieces[1..]);
      assert Flatten([pieces[0]] + rest) == pieces[0] + Flatten(rest) by { FlattenHead([pieces[0]] + rest); }
      assert [] + rest == rest;
      assert "" + Flatten(rest) == Flatten(rest);
    }
  }

  lemma FlattenHead(parts: seq<string>)
    requires parts != []
    ensures Flatten(parts) == parts[0] + Flatten(parts[1..])
  {
  }

  /** Which attempt a stream ends with: the first that does not fail, or has said something, or fails
      for good, or is the last the budget allows. Every attempt before it is made and fails silently. */
  lemma {:induction false} AttemptMade(retries: nat, attempt: nat -> Attempt, k: nat)
    requires k <= retries
    requires forall i :: 0 <= i < k ==>
               attempt(i).failure.Some? && attempt(i).failure.value.retryable
               && forall piece :: piece in attempt(i).pieces ==> piece == ""
    requires || attempt(k).failure.None? || !attempt(k).failure.value.retryable
             || (exists piece :: piece in attempt(k).pieces && piece != "") || k == retries
    ensures Final(retries, attempt) == k
  {
    MadeFrom(retries, attempt, k, 0);
  }

  lemma {:induction false} MadeFrom(retries: nat, attempt: nat -> Attempt, k: nat, n: nat)
    requires n <= k <= retries
    requires forall i :: 0 <= i < k ==>
               attempt(i).failure.Some? && attempt(i).failure.value.retryable
               && forall piece :: piece in attempt(i).pieces ==> piece == ""
    requires || attempt(k).failure.None? || !attempt(k).failure.value.retryable
             || (exists piece :: piece in attempt(k).pieces && piece != "") || k == retries
    ensures FinalFrom(retries, attempt, n) == k
    decreases k - n
  {
    SilentIff(attempt(n));
    hide Spoken;
    if n < k { MadeFrom(retries, attempt, k, n + 1); }
  }

  lemma SilentIff(a: Attempt)
    ensures Spoken(a) == [] <==> forall piece :: piece in a.pieces ==> piece == ""
  {
    if piece :| piece in a.pieces && piece != "" { assert piece in Spoken(a); }
    if Spoken(a) != [] { assert Spoken(a)[0] in a.pieces && Spoken(a)[0] != ""; }
  }

  /** The stream ends with attempt `k`. */
  ghost predicate Settles(retries: nat, attempt: nat -> Attempt, k: nat) {
    && k <= retries
    && (forall i :: 0 <= i < k ==>
          attempt(i).failure.Some? && attempt(i).failure.value.retryable
          && forall piece :: piece in attempt(i).pieces ==> piece == "")
    && (|| attempt(k).failure.None? || !attempt(k).failure.value.retryable
        || (exists piece :: piece in attempt(k).pieces && piece != "") || k == retries)
  }

  /** Exactly one attempt does. */
  lemma SettlesOnce(retries: nat, attempt: nat -> Attempt, k: nat)
    ensures Settles(retries, attempt, k) <==> k == Final(retries, attempt)
  {
    var f := Final(retries, attempt);
    forall i | 0 <= i < f
      ensures attempt(i).failure.Some? && attempt(i).failure.value.retryable
              && forall piece :: piece in attempt(i).pieces ==> piece == ""
    {
      FinalIsFirst(retries, attempt, i);
      SilentIff(attempt(i));
    }
    FinalIsFirst(retries, attempt, 0);
    SilentIff(attempt(f));
    hide Final, Spoken;
    if Settles(retries, attempt, k) { AttemptMade(retries, attempt, k); }
  }

  function Tokens(pieces: seq<string>): (r: seq<Event>)
    ensures |r| == |pieces| && forall i :: 0 <= i < |r| ==> r[i] == Token(pieces[i])
  {
    seq(|pieces|, i requires 0 <= i < |pieces| => Token(pieces[i]))
  }

  /** Progress after these tokens. */
  ghost function Says(p: Progress, pieces: seq<string>): Progress {
    p.(text := p.text + Flatten(pieces), order := if pieces == [] then p.order else AfterToken(p.order))
  }

  /** What the first pieces of an attempt have streamed. */
  ghost predicate Streamed(es: seq<Event>, p: Progress, pieces: seq<string>, i: nat, r: seq<Event>, text: string,
                           q: Progress)
    requires i <= |pieces|
  {
    && r == es + Tokens(Filter(Speaks, pieces[..i])) && text == Flatten(Filter(Speaks, pieces[..i]))
    && q == Says(p, Filter(Speaks, pieces[..i]))
  }

  lemma StreamedNext(es: seq<Event>, p: Progress, pieces: seq<string>, i: nat, r: seq<Event>, text: string, q: Progress)
    requires i < |pieces| && Streamed(es, p, pieces, i, r, text, q)
    ensures var piece := pieces[i];
            if piece == "" then Streamed(es, p, pieces, i + 1, r, text, q)
            else Streamed(es, p, pieces, i + 1, r + [Token(piece)], text + piece,
                          q.(text := q.text + piece, order := AfterToken(q.order)))
  {
    var piece, said := pieces[i], Filter(Speaks, pieces[..i]);
    SpokenSnoc(pieces, i);
    hide Filter, Flatten;
    if piece != "" {
      FlattenSnoc(said, piece);
      assert Tokens(said + [piece]) == Tokens(said) + [Token(piece)];
      Associative(es, Tokens(said), [Token(piece)]);
      Associative(p.text, text, piece);
    }
  }

  lemma NothingStreamed(es: seq<Event>, p: Progress, pieces: seq<string>)
    ensures Streamed(es, p, pieces, 0, es, "", p)
  {
    assert pieces[..0] == [];
  }

  /** Stream one attempt's non-empty pieces. */
  method StreamAttempt(es: seq<Event>, a: Attempt, ghost p: Progress)
    returns (r: seq<Event>, text: string, ghost q: Progress)
    requires At(es, p) && p.phase.Streaming? && MaySpeak(p)
    ensures r == es + Tokens(Spoken(a)) && text == Flatten(Spoken(a))
    ensures At(r, q) && q == Says(p, Spoken(a))
  {
    r, text, q := es, "", p;
    NothingStreamed(es, p, a.pieces);
    for i := 0 to |a.pieces|
      invariant Streamed(es, p, a.pieces, i, r, text, q) && At(r, q) && q.phase == p.phase && MaySpeak(q)
    {
      var piece := a.pieces[i];
      StreamedNext(es, p, a.pieces, i, r, text, q);
      hide Streamed, At;
      if piece != "" {
        text := text + piece;
        r, q := YieldToken(r, piece, q);
      }
    }
    assert a.pieces[..|a.pieces|] == a.pieces;
  }

  lemma SpokenSnoc(pieces: seq<string>, i: nat)
    requires i < |pieces|
    ensures Filter(Speaks, pieces[..i + 1]) ==
            if pieces[i] != "" then Filter(Speaks, pieces[..i]) + [pieces[i]] else Filter(Speaks, pieces[..i])
  {
    assert pieces[..i + 1] == pieces[..i] + [pieces[i]];
    FilterConcat(Speaks, pieces[..i], [pieces[i]]);
    assert [pieces[i]][1..] == [];
  }

  /** Re-run the chain from scratch while nothing has been said. */
  method StreamWithRetry(es: seq<Event>, retries: nat, attempt: nat -> Attempt, ghost p: Progress)
    returns (r: seq<Event>, text: string, failure: Option<Failure>, ghost q: Progress)
    requires At(es, p) && p.phase.Streaming? && MaySpeak(p)
    ensures var last := attempt(Final(retries, attempt));
            r == es + Tokens(Spoken(last)) && text == Flatten(Spoken(last)) && failure == last.failure
    ensures forall k :: Settles(retries, attempt, k) ==>
              && r == es + Tokens(Spoken(attempt(k))) && text == Flatten(attempt(k).pieces)
              && failure == attempt(k).failure
    ensures At(r, q) && q == Says(p, Spoken(attempt(Final(retries, attempt))))
  {
    var attempts := 0;
    r, q := es, p;
    forall k ensures Settles(retries, attempt, k) <==>
      k == Final(retries, attempt) { SettlesOnce(retries, attempt, k); }
    SpokenSaysAll(attempt(Final(retries, attempt)));
    hide Settles;
    while true
      invariant attempts <= retries && r == es && q == p
      invariant Final(retries, attempt) == FinalFrom(retries, attempt, attempts)
      decreases retries - attempts
    {
      var a := attempt(attempts);
      r, text, q := StreamAttempt(r, a, q);
      if a.failure.None? { return r, text, None, q; }
      var yieldedAny := Spoken(a) != [];
      if yieldedAny || !a.failure.value.retryable || attempts + 1 >= retries + 1 {
        return r, text, a.failure, q;
      }
      assert r == es;
      attempts := attempts + 1;
    }
  }

  // ------------------------------------------------------------------ what a world leads to

  function CachedResponse(flags: Flags, w: World): Option<Response> {
    if !flags.cache || w.lookup.Raised? then None
    else
      match w.lookup.value
      case ExactHit(response) => Some(response)
      case SemanticHit(response) => Some(response)
      case Miss => None
  }

  function FinalAttempt(settings: Settings, w: World): Attempt { w.attempt(Final(settings.retries, w.attempt)) }

  /** What the model said in full. */
  function Generated(settings: Settings, w: World): string { Flatten(Spoken(FinalAttempt(settings, w))) }

  /** The steps the producer does not guard fail: the cache lookup's embedding, building the chain,
      cost accounting, or reading the citations back. */
  predicate Uncaught(flags: Flags, settings: Settings, w: World) {
    if flags.cache && w.lookup.Raised? then true
    else if CachedResponse(flags, w).Some? || w.retrieval.Raised? then false
    else if !w.retrieval.value.confident then w.accountingFails
    else
      || w.setupFails
      || (FinalAttempt(settings, w).failure.None? && (w.accountingFails || w.resolve(Generated(settings, w)).Raised?))
  }

  /** The steps it does guard fail: retrieval, or generation beyond its retries. */
  predicate Caught(flags: Flags, settings: Settings, w: World) {
    && !(flags.cache && w.lookup.Raised?) && CachedResponse(flags, w).None?
    && (|| w.retrieval.Raised?
        || (w.retrieval.value.confident && !w.setupFails && FinalAttempt(settings, w).failure.Some?))
  }

  predicate Reranks(flags: Flags, w: World) { flags.rerank && w.retrieval.Returned? && w.retrieval.value.rerankTimed }

  predicate Refuses(w: World) { w.retrieval.Returned? && !w.retrieval.value.confident }

  /** The stages of retrieval that run, and those that do not. */
  function SearchRuns(flags: Flags, w: World): set<StageName> {
    {Searching} + (if flags.rewrite then {Rewriting} else {}) + (if Reranks(flags, w) then {Reranking} else {})
  }

  function SearchSkips(flags: Flags, w: World): set<StageName> {
    (if flags.rewrite then {} else {Rewriting}) + (if Reranks(flags, w) then {} else {Reranking})
  }

  /** The stages a completed run finishes: on a cache hit only the lookup. */
  function ToRun(flags: Flags, w: World): set<StageName> {
    if CachedResponse(flags, w).Some? then {CacheLookup}
    else
      (if flags.cache then {CacheLookup} else {}) + SearchRuns(flags, w)
      + (if Refuses(w) then {} else (if flags.compression then {Compressing} else {}) + {Generating} + {Citing})
  }

  /** The stages it skips; a cache hit says nothing of rewriting. */
  function ToSkip(flags: Flags, w: World): set<StageName> {
    if CachedResponse(flags, w).Some? then {Searching, Reranking, Compressing, Generating, Citing}
    else
      SearchSkips(flags, w)
      + (if Refuses(w) then {Compressing, Generating, Citing} else if flags.compression then {} else {Compressing})
  }

  /** The message of the error event when a guarded step fails. */
  function CaughtMessage(settings: Settings, w: World): string {
    if w.retrieval.Raised? then w.retrieval.message
    else if FinalAttempt(settings, w).failure.Some? then FinalAttempt(settings, w).failure.value.message
    else ""
  }

  /** The response a completed run stands for. */
  function Answered(flags: Flags, settings: Settings, w: World): Response
    requires !Uncaught(flags, settings, w) && !Caught(flags, settings, w)
  {
    if CachedResponse(flags, w).Some? then
      var hit := CachedResponse(flags, w).value;
      Response(hit.answer, hit.meta.(cacheHit := true))
    else
      var found := w.retrieval.value;
      if !found.confident then
        Response("", Meta(found.suggestions, true, false, found.degraded, w.summarized, w.tokensIn, 0))
      else
        var said := Generated(settings, w);
        var cited := w.resolve(said).value;
        var refused := cited == [];
        Response(said + if refused then "" else "\n\n" + settings.disclaimer,
                 Meta(cited, refused, false, found.degraded, w.summarized, w.tokensIn,
                      |Spoken(FinalAttempt(settings, w))|))
  }

  // ------------------------------------------------------------------ the producer

  /** The memory stage belongs to the route, not to this producer. */
  ghost predicate LeavesMemory(p: Progress) {
    !Seen(p, SummarizingMemory)
  }

  /** The cache seam: an uncaught lookup failure, a replay, or nothing found. */
  method CacheSeam(flags: Flags, w: World) returns (es: seq<Event>, raised: bool, replayed: bool, ghost q: Progress)
    ensures At(es, q) && LeavesMemory(q)
    ensures raised <==> flags.cache && w.lookup.Raised?
    ensures replayed <==> CachedResponse(flags, w).Some?
    ensures raised ==>
              es == [Stage(CacheLookup, Started)] && q == Progress({CacheLookup}, {}, {}, "", Streaming, Opening)
    ensures replayed ==>
              var hit := CachedResponse(flags, w).value;
              q == Progress({}, ToRun(flags, w), ToSkip(flags, w), hit.answer,
                            Succeeded(hit.meta.(cacheHit := true)), Speaking)
    ensures !raised && !replayed ==>
              q == Progress({}, if flags.cache then {CacheLookup} else {}, {}, "", Streaming, Opening)
  {
    es, q := [], START;
    NothingFollowed();
    hide Follow, Advance, At;
    if !flags.cache { return es, false, false, q; }
    if w.lookup.Raised? {
      es, q := YieldStart(es, CacheLookup, q);
      return es, true, false, q;
    }
    es, q := YieldSpan(es, CacheLookup, q);
    var hit := CachedResponse(flags, w);
    if hit.None? { return es, false, false, q; }
    es, q := Replay(es, hit.value, q);
    return es, false, true, q;
  }

  /** A hit: every later stage skipped, the whole answer as one token, and the ending. */
  method Replay(es: seq<Event>, hit: Response, ghost p: Progress) returns (r: seq<Event>, ghost q: Progress)
    requires At(es, p) && p == Progress({}, {CacheLookup}, {}, "", Streaming, Opening)
    ensures At(r, q)
    ensures q == Progress({}, {CacheLookup}, {Searching, Reranking, Compressing, Generating, Citing}, hit.answer,
                          Succeeded(hit.meta.(cacheHit := true)), Speaking)
  {
    r, q := es, p;
    hide Follow, Advance, At;
    r, q := YieldSkip(r, Searching, q);
    r, q := YieldSkip(r, Reranking, q);
    r, q := YieldSkip(r, Compressing, q);
    r, q := YieldSkip(r, Generating, q);
    r, q := YieldSkip(r, Citing, q);
    r, q := YieldToken(r, hit.answer, q);
    r, q := YieldEnding(r, hit.meta.(cacheHit := true), q);
  }

  /** Rewriting, searching and reranking, or the error event of a failed retrieval. */
  method RetrievalSeam(es: seq<Event>, flags: Flags, w: World, ghost p: Progress)
    returns (r: seq<Event>, ghost q: Progress)
    requires At(es, p) && p.phase.Streaming? && p.running == {} && p.ran <= {CacheLookup} && p.skipped == {}
    requires p.order.Opening?
    ensures At(r, q) && (LeavesMemory(p) ==> LeavesMemory(q)) && q.text == p.text && q.order.Opening?
    ensures w.retrieval.Raised? ==>
              && q.phase == Failed(w.retrieval.message)
              && q.running == {Searching} + if flags.rewrite then {Rewriting} else {}
    ensures w.retrieval.Returned? ==>
              && Due(q, Compressing)
              && q == p.(ran := p.ran + SearchRuns(flags, w), skipped := SearchSkips(flags, w))
  {
    hide Follow, Advance, At;
    r, q := es, p;
    if flags.rewrite {
      r, q := YieldStart(r, Rewriting, q);
    } else {
      r, q := YieldSkip(r, Rewriting, q);
    }
    r, q := YieldStart(r, Searching, q);
    if w.retrieval.Raised? {
      r, q := YieldError(r, w.retrieval.message, q);
      return;
    }
    if flags.rewrite {
      r, q := YieldFinish(r, Rewriting, q);
    }
    r, q := YieldFinish(r, Searching, q);
    if flags.rerank && w.retrieval.value.rerankTimed {
      r, q := YieldSpan(r, Reranking, q);
    } else {
      r, q := YieldSkip(r, Reranking, q);
    }
    assert q.running == p.running;
  }

  /** A refusal before the model is asked: suggestions instead of an answer. */
  method RefusalSeam(es: seq<Event>, w: World, ghost p: Progress)
    returns (r: seq<Event>, raised: bool, ghost q: Progress)
    requires At(es, p) && p.phase.Streaming? && p.running == {} && Due(p, Compressing) && p.order.Opening?
    requires w.retrieval.Returned? && !w.retrieval.value.confident
    ensures At(r, q) && (LeavesMemory(p) ==> LeavesMemory(q)) && q.text == p.text && (raised <==> w.accountingFails)
    ensures q.order.Opening?
    ensures raised ==> q.phase.Streaming?
    ensures !raised ==>
              && q.running == {} && q.ran == p.ran && q.skipped == p.skipped + {Compressing, Generating, Citing}
              && q.phase == Succeeded(Meta(w.retrieval.value.suggestions, true, false, w.retrieval.value.degraded,
                                           w.summarized, w.tokensIn, 0))
  {
    hide Follow, Advance, At;
    r, q := es, p;
    if w.accountingFails { return r, true, q; }
    r, q := YieldSkip(r, Compressing, q);
    r, q := YieldSkip(r, Generating, q);
    r, q := YieldSkip(r, Citing, q);
    var found := w.retrieval.value;
    r, q := YieldEnding(r, Meta(found.suggestions, true, false, found.degraded, w.summarized, w.tokensIn, 0), q);
    raised := false;
  }

  /** Compression and generation: the text said, an error event, or an uncaught failure to set up. */
  method GenerationSeam(es: seq<Event>, flags: Flags, settings: Settings, w: World, ghost p: Progress)
    returns (r: seq<Event>, raised: bool, text: string, ghost q: Progress)
    requires At(es, p) && p.phase.Streaming? && p.running == {} && Due(p, Compressing) && p.text == ""
    requires p.order.Opening?
    ensures At(r, q) && (LeavesMemory(p) ==> LeavesMemory(q)) && (raised <==> w.setupFails) && q.text == text
    ensures raised ==> q.phase.Streaming? && q.order.Opening?
    ensures !raised && FinalAttempt(settings, w).failure.Some? ==> !q.order.Late?
    ensures !raised && FinalAttempt(settings, w).failure.Some? ==>
              q.phase == Failed(FinalAttempt(settings, w).failure.value.message) && q.running == {Generating}
    ensures !raised && FinalAttempt(settings, w).failure.None? ==>
              && Due(q, Citing)
              && q == Progress({}, p.ran + (if flags.compression then {Compressing} else {}) + {Generating},
                               p.skipped + (if flags.compression then {} else {Compressing}), text, Streaming,
                               if Spoken(FinalAttempt(settings, w)) == [] then Opening else Late)
    ensures !raised ==> text == Generated(settings, w)
  {
    hide Advance, Follow, Final, Spoken, Flatten, At;
    text := "";
    r, q := CompressionSeam(es, flags, p);
    if w.setupFails { return r, true, text, q; }
    raised := false;
    var failure;
    r, text, failure, q := StreamWithRetry(r, settings.retries, w.attempt, q);
    assert q.text == text;
    if failure.Some? {
      r, q := YieldError(r, failure.value.message, q);
    } else {
      r, q := YieldFinish(r, Generating, q);
      assert q.running == {};
    }
  }

  /** Compression, then the start of generation. */
  method CompressionSeam(es: seq<Event>, flags: Flags, ghost p: Progress) returns (r: seq<Event>, ghost q: Progress)
    requires At(es, p) && p.phase.Streaming? && p.running == {} && Due(p, Compressing)
    ensures At(r, q)
    ensures q == p.(running := {Generating}, ran := p.ran + (if flags.compression then {Compressing} else {}),
                                skipped := p.skipped + (if flags.compression then {} else {Compressing}),
                                order := AfterStage(p.order))
  {
    hide Follow, Advance, At;
    if flags.compression {
      r, q := YieldSpan(es, Compressing, p);
    } else {
      r, q := YieldSkip(es, Compressing, p);
    }
    r, q := YieldStart(r, Generating, q);
    assert q.running == {Generating};
  }

  /** Citing, the disclaimer of a grounded answer, and the ending. */
  method CitingSeam(es: seq<Event>, settings: Settings, w: World, said: string, ghost p: Progress)
    returns (r: seq<Event>, raised: bool, response: Response, ghost q: Progress)
    requires At(es, p) && p.phase.Streaming? && p.running == {} && Due(p, Citing) && p.text == said
    requires w.retrieval.Returned? && !p.order.Speaking?
    ensures At(r, q) && (LeavesMemory(p) ==> LeavesMemory(q))
    ensures raised <==> w.accountingFails || w.resolve(said).Raised?
    ensures raised ==> q.phase.Streaming? && q.text == said
    ensures q.order.Late? <==> p.order.Late?
    ensures !raised ==>
              && q == Progress({}, p.ran + {Citing}, p.skipped, response.answer, Succeeded(response.meta), q.order)
              && response.meta.citations == w.resolve(said).value
              && (response.meta.refused <==> response.meta.citations == [])
              && response.answer == (if response.meta.refused then said else said + ("\n\n" + settings.disclaimer))
              && response.meta == Meta(w.resolve(said).value, response.meta.refused, false, w.retrieval.value.degraded,
                                       w.summarized, w.tokensIn, |Spoken(FinalAttempt(settings, w))|)
  {
    hide Follow, Advance, At;
    r, q := es, p;
    response := Response(said, Meta([], true, false, false, false, 0, 0));
    if w.accountingFails { return r, true, response, q; }
    if w.resolve(said).Raised? {
      r, q := YieldStart(r, Citing, q);
      return r, true, response, q;
    }
    var cited := w.resolve(said).value;
    var refused := cited == [];
    r, q := YieldSpan(r, Citing, q);
    var text := said;
    if !refused {
      text := text + ("\n\n" + settings.disclaimer);
      r, q := YieldToken(r, "\n\n" + settings.disclaimer, q);
    }
    response := Response(text, Meta(cited, refused, false, w.retrieval.value.degraded, w.summarized, w.tokensIn,
                                    |Spoken(FinalAttempt(settings, w))|));
    r, q := YieldEnding(r, response.meta, q);
    raised := false;
  }

  /** Worth caching: answered now, by a healthy retrieval, with something cited. */
  predicate Cacheable(flags: Flags, settings: Settings, w: World) {
    && flags.cache && !Uncaught(flags, settings, w) && !Caught(flags, settings, w)
    && var meta := Answered(flags, settings, w).meta;
       !meta.cacheHit && !meta.refused && !meta.degraded && meta.citations != []
  }

  /** Generation is reached, says something, and does not fail. */
  predicate SpeaksToTheEnd(flags: Flags, settings: Settings, w: World) {
    && !(flags.cache && w.lookup.Raised?) && CachedResponse(flags, w).None?
    && w.retrieval.Returned? && w.retrieval.value.confident && !w.setupFails
    && FinalAttempt(settings, w).failure.None? && Spoken(FinalAttempt(settings, w)) != []
  }

  /** No hit, and no failure of the lookup. */
  predicate Missed(flags: Flags, w: World) { !flags.cache || (w.lookup.Returned? && w.lookup.value.Miss?) }

  /** What every world leads to, by the attempt its generation ends with: a failed lookup, a hit replayed as it
      was cached, a failed retrieval, a refusal with suggestions, a failed setup, a failed generation, failed
      accounting or citing, or an answer, refused when it cites nothing and else with the disclaimer behind
      it. Only the last, cited and undegraded, is worth caching. */
  lemma WorldLeadsTo(flags: Flags, settings: Settings, w: World, k: nat)
    requires Settles(settings.retries, w.attempt, k)
    ensures flags.cache && w.lookup.Raised? ==> Uncaught(flags, settings, w)
    ensures flags.cache && w.lookup.Returned? && !w.lookup.value.Miss? ==>
              var hit := w.lookup.value.response;
              && !Uncaught(flags, settings, w) && !Caught(flags, settings, w) && !Cacheable(flags, settings, w)
              && Answered(flags, settings, w) == Response(hit.answer, hit.meta.(cacheHit := true))
    ensures Missed(flags, w) && w.retrieval.Raised? ==>
              && !Uncaught(flags, settings, w) && Caught(flags, settings, w)
              && CaughtMessage(settings, w) == w.retrieval.message
    ensures Missed(flags, w) && w.retrieval.Returned? && !w.retrieval.value.confident ==>
              && !Caught(flags, settings, w) && (Uncaught(flags, settings, w) <==> w.accountingFails)
              && (!w.accountingFails ==>
                    var found := w.retrieval.value;
                    && !Cacheable(flags, settings, w)
                    && Answered(flags, settings, w) ==
                       Response("", Meta(found.suggestions, true, false, found.degraded, w.summarized, w.tokensIn, 0)))
    ensures Missed(flags, w) && w.retrieval.Returned? && w.retrieval.value.confident ==>
              var a := w.attempt(k);
              var said := Flatten(a.pieces);
              && (w.setupFails ==> Uncaught(flags, settings, w) && !Caught(flags, settings, w))
              && (!w.setupFails && a.failure.Some? ==>
                    && !Uncaught(flags, settings, w) && Caught(flags, settings, w)
                    && CaughtMessage(settings, w) == a.failure.value.message && Generated(settings, w) == said)
              && (!w.setupFails && a.failure.None? ==>
                    && !Caught(flags, settings, w)
                    && (Uncaught(flags, settings, w) <==> w.accountingFails || w.resolve(said).Raised?))
              && (!w.setupFails && a.failure.None? && !w.accountingFails && w.resolve(said).Returned? ==>
                    var cited, degraded := w.resolve(said).value, w.retrieval.value.degraded;
                    && Answered(flags, settings, w).answer ==
                       said + (if cited == [] then "" else "\n\n" + settings.disclaimer)
                    && Answered(flags, settings, w).meta ==
                       Meta(cited, cited == [], false, degraded, w.summarized, w.tokensIn, |Spoken(a)|)
                    && (Cacheable(flags, settings, w) <==> flags.cache && !degraded && cited != []))
  {
    SettlesOnce(settings.retries, w.attempt, k);
    SpokenSaysAll(w.attempt(k));
    hide Settles, Final, Spoken, Flatten;
  }

  /** The stages of a completed run, one by one: a hit skips all that follow it and says nothing of rewriting;
      else each stage runs or is skipped as its flag says, and after a refusal nothing runs. */
  lemma StagesCalledFor(flags: Flags, w: World, n: StageName)
    requires if flags.cache && w.lookup.Returned? && !w.lookup.value.Miss? then true
             else Missed(flags, w) && w.retrieval.Returned?
    ensures n in ToRun(flags, w) <==>
            match n
            case SummarizingMemory => false
            case CacheLookup => flags.cache
            case Rewriting => Missed(flags, w) && flags.rewrite
            case Searching => Missed(flags, w)
            case Reranking => Missed(flags, w) && flags.rerank && w.retrieval.value.rerankTimed
            case Compressing => Missed(flags, w) && w.retrieval.value.confident && flags.compression
            case Generating => Missed(flags, w) && w.retrieval.value.confident
            case Citing => Missed(flags, w) && w.retrieval.value.confident
    ensures n in ToSkip(flags, w) <==>
            n !in ToRun(flags, w) && !n.SummarizingMemory? && !n.CacheLookup? && (n.Rewriting? ==> Missed(flags, w))
  {
  }

  /** The whole producer. An uncaught failure is the only way it ends without a terminal event, and
      a failing query embedding leaves the opened lookup alone on the stream; a completed run closes
      every stage and its text and meta are the response it stands for; a stage event follows a token
      exactly when generation ran to its end and said something, however the run goes on; and only
      grounded answers of a healthy, uncached run are handed to the cache. */
  method PipelineEvents(flags: Flags, settings: Settings, w: World)
    returns (es: seq<Event>, raised: bool, cacheWrite: Option<Response>)
    ensures Follow(es).Some?
    ensures raised <==> Uncaught(flags, settings, w)
    ensures raised <==> Follow(es).value.phase.Streaming?
    ensures Caught(flags, settings, w) <==> Follow(es).value.phase.Failed?
    ensures Caught(flags, settings, w) ==>
              && Follow(es).value.phase == Failed(CaughtMessage(settings, w))
              && Follow(es).value.text == if w.retrieval.Raised? then "" else Generated(settings, w)
    ensures !raised && !Caught(flags, settings, w) ==>
              && var p, a := Follow(es).value, Answered(flags, settings, w);
              && p == Progress({}, ToRun(flags, w), ToSkip(flags, w), a.answer, Succeeded(a.meta), p.order)
    ensures flags.cache && w.lookup.Raised? ==> raised && es == [Stage(CacheLookup, Started)]
    ensures StageAfterToken(es) <==> SpeaksToTheEnd(flags, settings, w)
    ensures forall k :: Settles(settings.retries, w.attempt, k) && Missed(flags, w) && w.retrieval.Returned?
                        && w.retrieval.value.confident && !w.setupFails ==>
              && (Follow(es).value.phase.Failed? <==> w.attempt(k).failure.Some?)
              && (w.attempt(k).failure.Some? ==> Follow(es).value.phase == Failed(w.attempt(k).failure.value.message))
              && Flatten(w.attempt(k).pieces) <= TextOf(es)
              && (StageAfterToken(es) <==> w.attempt(k).failure.None? && Flatten(w.attempt(k).pieces) != "")
    ensures Caught(flags, settings, w) ==>
              Follow(es).value.running == if w.retrieval.Returned? then {Generating}
                                          else {Searching} + if flags.rewrite then {Rewriting} else {}
    ensures cacheWrite == if Cacheable(flags, settings, w) then Some(Answered(flags, settings, w)) else None
    ensures LeavesMemory(Follow(es).value)
    ensures EndsAtTerminal(es) && (raised <==> es == [] || !IsTerminal(es[|es| - 1]))
    ensures !Uncaught(flags, settings, w) && !Caught(flags, settings, w) ==>
              CleanEnding(es, Answered(flags, settings, w).meta) && TextOf(es) == Answered(flags, settings, w).answer
  {
    es, raised, cacheWrite := Produce(flags, settings, w);
    TerminalIsLast(es);
    FollowedText(es);
    FollowedOrder(es);
    forall k | Settles(settings.retries, w.attempt, k) && Missed(flags, w) && w.retrieval.Returned?
               && w.retrieval.value.confident && !w.setupFails
      ensures && (Follow(es).value.phase.Failed? <==> w.attempt(k).failure.Some?)
              && (w.attempt(k).failure.Some? ==> Follow(es).value.phase == Failed(w.attempt(k).failure.value.message))
              && Flatten(w.attempt(k).pieces) <= TextOf(es)
              && (StageAfterToken(es) <==> w.attempt(k).failure.None? && Flatten(w.attempt(k).pieces) != "")
    {
      hide Follow, Advance, StageAfterToken, TextOf, Answered, LeavesMemory, Settles, Flatten;
      WorldLeadsTo(flags, settings, w, k);
      GenerationSays(flags, settings, w, k);
    }
    hide Follow, Advance, StageAfterToken, TextOf, Answered, Uncaught, Caught, LeavesMemory;
    if Follow(es).value.phase.Succeeded? {
      SucceededEnding(es);
    }
  }

  /** What generation said is the attempt's text. */
  lemma GenerationSays(flags: Flags, settings: Settings, w: World, k: nat)
    requires Settles(settings.retries, w.attempt, k) && Missed(flags, w) && w.retrieval.Returned?
    requires w.retrieval.value.confident && !w.setupFails
    ensures Generated(settings, w) == Flatten(w.attempt(k).pieces)
    ensures SpeaksToTheEnd(flags, settings, w) <==>
            w.attempt(k).failure.None? && Flatten(w.attempt(k).pieces) != ""
  {
    SettlesOnce(settings.retries, w.attempt, k);
    SpokenSaysAll(w.attempt(k));
    var said := Spoken(w.attempt(k));
    if said != [] {
      FlattenHead(said);
      assert said[0] in said;
    }
    hide Settles, Final, Spoken;
  }

  method Produce(flags: Flags, settings: Settings, w: World)
    returns (es: seq<Event>, raised: bool, cacheWrite: Option<Response>)
    ensures Follow(es).Some? && LeavesMemory(Follow(es).value)
    ensures raised <==> Uncaught(flags, settings, w)
    ensures raised <==> Follow(es).value.phase.Streaming?
    ensures Caught(flags, settings, w) <==> Follow(es).value.phase.Failed?
    ensures Caught(flags, settings, w) ==>
              && Follow(es).value.phase == Failed(CaughtMessage(settings, w))
              && Follow(es).value.text == if w.retrieval.Raised? then "" else Generated(settings, w)
    ensures !raised && !Caught(flags, settings, w) ==>
              && var p, a := Follow(es).value, Answered(flags, settings, w);
              && p == Progress({}, ToRun(flags, w), ToSkip(flags, w), a.answer, Succeeded(a.meta), p.order)
    ensures flags.cache && w.lookup.Raised? ==> raised && es == [Stage(CacheLookup, Started)]
    ensures Follow(es).value.order.Late? <==> SpeaksToTheEnd(flags, settings, w)
    ensures Missed(flags, w) && w.retrieval.Returned? && w.retrieval.value.confident && !w.setupFails ==>
              Generated(settings, w) <= Follow(es).value.text
    ensures Caught(flags, settings, w) ==>
              Follow(es).value.running == if w.retrieval.Returned? then {Generating}
                                          else {Searching} + if flags.rewrite then {Rewriting} else {}
    ensures cacheWrite == if Cacheable(flags, settings, w) then Some(Answered(flags, settings, w)) else None
  {
    hide Follow, Advance, Due, Rank, Spoken, Flatten, Final, SearchRuns, SearchSkips, Reranks;
    cacheWrite := None;
    var replayed, text;
    ghost var q;
    es, raised, replayed, q := CacheSeam(flags, w);
    if raised || replayed { return; }
    es, q := RetrievalSeam(es, flags, w, q);
    if w.retrieval.Raised? { return; }
    if !w.retrieval.value.confident {
      es, raised, q := RefusalSeam(es, w, q);
      return;
    }
    es, raised, text, q := GenerationSeam(es, flags, settings, w, q);
    if raised || FinalAttempt(settings, w).failure.Some? { return; }
    var response;
    es, raised, response, q := CitingSeam(es, settings, w, text, q);
    if raised { return; }
    if flags.cache && !response.meta.refused && !response.meta.degraded && response.meta.citations != [] {
      cacheWrite := Some(response);
    }
  }

  /** A plain answered question: its generating stage closes after its token. */
  method OrderBroken(settings: Settings) returns (es: seq<Event>)
    ensures Follow(es).Some? && Follow(es).value.phase.Succeeded? && TextOf(es) == "yes" && StageAfterToken(es)
  {
    var says: nat -> Attempt := n => Attempt(["yes"], None);
    var w := World(Raised("not asked"), Returned(Retrieved(true, [], false, false)), false, says, false,
                   (said: string) => Returned([]), 0, false);
    var flags := Flags(false, false, false, false);
    var raised, cacheWrite;
    assert [says(0).pieces[0]][1..] == [];
    assert Spoken(FinalAttempt(settings, w)) == ["yes"];
    es, raised, cacheWrite := PipelineEvents(flags, settings, w);
  }
}
