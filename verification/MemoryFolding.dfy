/** The rolling summary: a fold pointer derived by counting messages, advanced at most once a turn,
    over every run of turns including cancelled ones and failed summaries. */
module MemoryFolding {
  import opened Prelude
  import opened MemoryWindow

  /** The committed rows of one session: its messages by creation time, the last message folded
      into the summary, and the running token total. */
  datatype Chat = Chat(messages: seq<Message>, upto: Option<nat>, total: nat)

  function Assistants(ms: seq<Message>): nat {
    if ms == [] then 0 else (if ms[0].role.Assistant? then 1 else 0) + Assistants(ms[1..])
  }

  lemma {:induction false} AssistantsConcat(a: seq<Message>, b: seq<Message>)
    ensures Assistants(a + b) == Assistants(a) + Assistants(b)
  {
    if a == [] {
      assert a + b == b;
    } else {
      assert (a + b)[1..] == a[1..] + b;
      AssistantsConcat(a[1..], b);
    }
  }

  lemma AssistantsSplit(ms: seq<Message>, k: nat)
    requires k <= |ms|
    ensures Assistants(ms) == Assistants(ms[..k]) + Assistants(ms[k..])
  {
    AssistantsConcat(ms[..k], ms[k..]);
    assert ms == ms[..k] + ms[k..];
  }

  // ------------------------------------------------------------------ the queries

  /** Creation time of a message id, absent when no such row exists. */
  function CreatedAt(ms: seq<Message>, id: nat): Option<int> {
    if ms == [] then None else if ms[0].id == id then Some(ms[0].createdAt) else CreatedAt(ms[1..], id)
  }

  /** Assistant rows created no later than the boundary; a missing boundary compares with nothing. */
  function AssistantsUpTo(ms: seq<Message>, boundary: Option<int>): nat {
    if ms == [] || boundary.None? then 0
    else
      (if ms[0].role.Assistant? && ms[0].createdAt <= boundary.value then 1 else 0)
      + AssistantsUpTo(ms[1..], boundary)
  }

  /** Rows created after the boundary. */
  function RowsAfter(ms: seq<Message>, boundary: Option<int>): seq<Message> {
    if ms == [] || boundary.None? then []
    else (if ms[0].createdAt > boundary.value then [ms[0]] else []) + RowsAfter(ms[1..], boundary)
  }

  function Completed(chat: Chat): nat { Assistants(chat.messages) }

  function Summarized(chat: Chat): nat {
    if chat.upto.None? then 0 else AssistantsUpTo(chat.messages, CreatedAt(chat.messages, chat.upto.value))
  }

  function Unfolded(chat: Chat): seq<Message> {
    if chat.upto.None? then chat.messages else RowsAfter(chat.messages, CreatedAt(chat.messages, chat.upto.value))
  }

  function First<T>(s: seq<T>, n: nat): seq<T> { if n < |s| then s[..n] else s }

  function Minus(a: nat, b: nat): nat { if a >= b then a - b else 0 }

  function Window(settings: Settings, chat: Chat): nat { WindowPairs(settings, chat.total) }

  /** Completed pairs that slid out of the window and are not in the summary yet, by count. */
  function PendingPairs(settings: Settings, chat: Chat): nat {
    Minus(Minus(Completed(chat), Window(settings, chat)), Summarized(chat))
  }

  function Threshold(settings: Settings, chat: Chat): nat {
    if OverBudget(settings, chat.total) then 1 else settings.summarizeEvery
  }

  /** The messages due for folding this turn, empty when none are. */
  function Batch(settings: Settings, chat: Chat): seq<Message> {
    var pending := PendingPairs(settings, chat);
    if pending >= Threshold(settings, chat) then First(Unfolded(chat), pending * 2) else []
  }

  // ------------------------------------------------------------------ a turn

  function Ask(chat: Chat, question: Message): Chat {
    Chat(chat.messages + [question], chat.upto, chat.total + question.tokens)
  }

  /** The summary stage: advance the pointer to the last message of the batch if the summariser
      answered, leave everything for the next turn if it did not. */
  function Stage(settings: Settings, chat: Chat, summariserOk: bool): Chat {
    var batch := Batch(settings, chat);
    if batch == [] || !summariserOk then chat else chat.(upto := Some(batch[|batch| - 1].id))
  }

  /** The chat as the request's session object shows it: the rows are read fresh, the total is what
      the object was loaded with, which a late write may have overtaken. */
  function Seen(chat: Chat, shown: nat): Chat { chat.(total := shown) }

  /** The stage decides by what the object shows and changes only the pointer. */
  function StageSeen(settings: Settings, chat: Chat, shown: nat, summariserOk: bool): Chat {
    Stage(settings, Seen(chat, shown), summariserOk).(total := chat.total)
  }

  /** How a turn ends: cancelled before its commit, cancelled or failed after it, or answered. */
  datatype Ending = RolledBack | Unanswered | Answered(reply: Message)

  /** `shown` is the total the session object shows once the question is counted. */
  datatype Turn = Turn(question: Message, shown: nat, summariserOk: bool, ending: Ending)

  function After(settings: Settings, chat: Chat, turn: Turn): Chat {
    var staged := StageSeen(settings, Ask(chat, turn.question), turn.shown, turn.summariserOk);
    match turn.ending
    case RolledBack => chat
    case Unanswered => staged
    case Answered(reply) => Chat(staged.messages + [reply], staged.upto, staged.total + reply.tokens)
  }

  /** A row the database adds after the existing ones. */
  ghost predicate Follows(ms: seq<Message>, m: Message) {
    forall i :: 0 <= i < |ms| ==> ms[i].id != m.id && ms[i].createdAt < m.createdAt
  }

  /** Rows come in order, and the object never shows more than there is. */
  ghost predicate WellTimed(chat: Chat, turn: Turn) {
    && turn.question.role.User? && Follows(chat.messages, turn.question)
    && turn.shown <= chat.total + turn.question.tokens
    && (turn.ending.Answered? ==>
          turn.ending.reply.role.Assistant? && Follows(chat.messages + [turn.question], turn.ending.reply))
  }

  // ------------------------------------------------------------------ invariant

  ghost predicate Ordered(ms: seq<Message>) {
    forall i, j :: 0 <= i < j < |ms| ==> ms[i].id != ms[j].id && ms[i].createdAt < ms[j].createdAt
  }

  /** An assistant message answers the user message right before it. */
  ghost predicate RepliesFollowQuestions(ms: seq<Message>) {
    forall i :: 0 <= i < |ms| && ms[i].role.Assistant? ==> i > 0 && ms[i - 1].role.User?
  }

  ghost predicate Listed(ms: seq<Message>, id: nat) {
    exists i :: 0 <= i < |ms| && ms[i].id == id
  }

  ghost predicate Sound(chat: Chat) {
    && Ordered(chat.messages) && RepliesFollowQuestions(chat.messages)
    && (chat.upto.Some? ==> Listed(chat.messages, chat.upto.value))
  }

  ghost predicate Totalled(chat: Chat) { chat.total == TokensOf(chat.messages) }

  /** How many messages the fold pointer has passed. */
  function FoldedTo(chat: Chat): (k: nat)
    ensures k <= |chat.messages|
  {
    if chat.upto.None? then 0 else Passed(chat.messages, chat.upto.value)
  }

  function Passed(ms: seq<Message>, id: nat): (k: nat)
    ensures k <= |ms|
    ensures k > 0 ==> ms[k - 1].id == id
  {
    if ms == [] then 0
    else if ms[0].id == id then 1
    else var k := Passed(ms[1..], id); if k == 0 then 0 else k + 1
  }

  lemma {:induction false} PassedIsPosition(ms: seq<Message>, i: nat)
    requires Ordered(ms) && i < |ms|
    ensures Passed(ms, ms[i].id) == i + 1
  {
    if i > 0 {
      assert ms[1..][i - 1] == ms[i];
      PassedIsPosition(ms[1..], i - 1);
    }
  }

  /** Every message counted by the pointer was created by the boundary, every other after it. */
  lemma QueriesSplit(ms: seq<Message>, i: nat, boundary: int)
    requires i <= |ms|
    requires forall j :: 0 <= j < i ==> ms[j].createdAt <= boundary
    requires forall j :: i <= j < |ms| ==> ms[j].createdAt > boundary
    ensures AssistantsUpTo(ms, Some(boundary)) == Assistants(ms[..i])
    ensures RowsAfter(ms, Some(boundary)) == ms[i..]
  {
    CountSplits(ms, i, boundary);
    RowsSplit(ms, i, boundary);
  }

  lemma {:induction false} CountSplits(ms: seq<Message>, i: nat, boundary: int)
    requires i <= |ms|
    requires forall j :: 0 <= j < i ==> ms[j].createdAt <= boundary
    requires forall j :: i <= j < |ms| ==> ms[j].createdAt > boundary
    ensures AssistantsUpTo(ms, Some(boundary)) == Assistants(ms[..i])
  {
    if ms != [] {
      if i > 0 {
        CountSplits(ms[1..], i - 1, boundary);
        assert ms[..i][1..] == ms[1..][..i - 1];
      } else {
        CountSplits(ms[1..], 0, boundary);
        assert ms[1..][..0] == ms[..0];
      }
    }
  }

  lemma {:induction false} RowsSplit(ms: seq<Message>, i: nat, boundary: int)
    requires i <= |ms|
    requires forall j :: 0 <= j < i ==> ms[j].createdAt <= boundary
    requires forall j :: i <= j < |ms| ==> ms[j].createdAt > boundary
    ensures RowsAfter(ms, Some(boundary)) == ms[i..]
  {
    if ms != [] {
      assert RowsAfter(ms, Some(boundary)) == (if ms[0].createdAt > boundary then [ms[0]] else [])
             + RowsAfter(ms[1..], Some(boundary));
      hide RowsAfter;
      if i > 0 {
        RowsSplit(ms[1..], i - 1, boundary);
        assert ms[1..][i - 1..] == ms[i..];
        assert [] + ms[i..] == ms[i..];
      } else {
        RowsSplit(ms[1..], 0, boundary);
        assert ms[1..][0..] == ms[1..];
        assert ms[0..] == [ms[0]] + ms[1..];
      }
    }
  }

  lemma {:induction false} CreatedAtPosition(ms: seq<Message>, i: nat)
    requires Ordered(ms) && i < |ms|
    ensures CreatedAt(ms, ms[i].id) == Some(ms[i].createdAt)
  {
    if i > 0 {
      assert ms[1..][i - 1] == ms[i];
      CreatedAtPosition(ms[1..], i - 1);
    }
  }

  /** The counting queries see the pointer as a position: what is summarised is a prefix, what is
      unfolded is the rest. */
  lemma PointerIsPosition(chat: Chat)
    requires Sound(chat)
    ensures chat.upto.Some? ==> 1 <= FoldedTo(chat) && chat.messages[FoldedTo(chat) - 1].id == chat.upto.value
    ensures Summarized(chat) == Assistants(chat.messages[..FoldedTo(chat)])
    ensures Unfolded(chat) == chat.messages[FoldedTo(chat)..]
  {
    hide RepliesFollowQuestions, AssistantsUpTo, RowsAfter, CreatedAt, Passed;
    if chat.upto.Some? {
      var i :| 0 <= i < |chat.messages| && chat.messages[i].id == chat.upto.value;
      PassedIsPosition(chat.messages, i);
      CreatedAtPosition(chat.messages, i);
      QueriesSplit(chat.messages, i + 1, chat.messages[i].createdAt);
    }
  }

  /** With no two assistants side by side, at most half of an even stretch are assistants. */
  lemma {:induction false} HalfAssistants(ms: seq<Message>)
    requires forall i :: 0 <= i < |ms| - 1 ==> !(ms[i].role.Assistant? && ms[i + 1].role.Assistant?)
    ensures 2 * Assistants(ms) <= |ms| + |ms| % 2
  {
    if |ms| == 1 {
      assert Assistants(ms[1..]) == 0;
    } else if |ms| >= 2 {
      assert ms[1..][1..] == ms[2..];
      HalfAssistants(ms[2..]);
      assert Assistants(ms) == (if ms[0].role.Assistant? then 1 else 0) + (if ms[1].role.Assistant? then 1 else 0)
             + Assistants(ms[2..]);
    }
  }

  /** The last `Window` completed pairs have kept their assistant message out of the summary. */
  ghost predicate WindowUnfolded(settings: Settings, chat: Chat) {
    Summarized(chat) <= Minus(Completed(chat), Window(settings, chat))
  }

  /** The batch starts right where the pointer stands. */
  lemma BatchIsNext(settings: Settings, chat: Chat)
    requires Sound(chat)
    ensures var k, b := FoldedTo(chat), Batch(settings, chat);
            && k + |b| <= |chat.messages| && b == chat.messages[k..k + |b|]
            && (b != [] ==> b == First(chat.messages[k..], 2 * PendingPairs(settings, chat)))
  {
    PointerIsPosition(chat);
  }

  /** Folding the whole batch leaves every assistant message of the window alone; with a window of
      at least one pair it also leaves the current question alone. */
  lemma BatchSparesWindow(settings: Settings, chat: Chat)
    requires Sound(chat) && Batch(settings, chat) != []
    ensures var e := FoldedTo(chat) + |Batch(settings, chat)|;
            && e <= |chat.messages|
            && Assistants(chat.messages[..e]) <= Minus(Completed(chat), Window(settings, chat))
            && (Window(settings, chat) >= 1 ==> e < |chat.messages|)
  {
    var ms, k, b, n := chat.messages, FoldedTo(chat), Batch(settings, chat), PendingPairs(settings, chat);
    BatchIsNext(settings, chat);
    PointerIsPosition(chat);
    AssistantsSplit(ms, k);
    BatchHoldsAtMost(ms, k, b, n);
    AssistantsConcat(ms[..k], b);
    assert ms[..k + |b|] == ms[..k] + b;
    hide Sound, Batch, PendingPairs, FoldedTo, Unfolded, First;
    if k + |b| == |ms| {
      assert b == ms[k..];
    }
  }

  /** Twice `n` consecutive messages hold at most `n` replies. */
  lemma BatchHoldsAtMost(ms: seq<Message>, k: nat, b: seq<Message>, n: nat)
    requires RepliesFollowQuestions(ms) && k <= |ms| && b == First(ms[k..], 2 * n)
    ensures Assistants(b) <= n
  {
    forall i | 0 <= i < |b| - 1 ensures !(b[i].role.Assistant? && b[i + 1].role.Assistant?) {
      assert b[i] == ms[k + i] && b[i + 1] == ms[k + i + 1];
    }
    HalfAssistants(b);
  }

  /** The stage moves the pointer past exactly its batch, and leaves the window out of the summary if it
      moves it at all. */
  lemma StageMovesPointer(settings: Settings, chat: Chat, ok: bool)
    requires Sound(chat)
    ensures var r := Stage(settings, chat, ok);
            && Sound(r) && (r == chat || WindowUnfolded(settings, r))
            && r.messages == chat.messages && r.total == chat.total
            && FoldedTo(r) == FoldedTo(chat) + if ok then |Batch(settings, chat)| else 0
  {
    var k, b := FoldedTo(chat), Batch(settings, chat);
    if b != [] && ok {
      BatchIsNext(settings, chat);
      BatchSparesWindow(settings, chat);
      var r := Stage(settings, chat, ok);
      assert b[|b| - 1] == chat.messages[k + |b| - 1];
      assert Listed(r.messages, r.upto.value);
      PassedIsPosition(chat.messages, k + |b| - 1);
      PointerIsPosition(r);
    }
  }

  /** Deciding by a total that lags can only spare more. */
  lemma StageSeenMoves(settings: Settings, chat: Chat, shown: nat, ok: bool)
    requires Sound(chat) && WindowUnfolded(settings, chat) && settings.keepLastPairs <= settings.windowPairs
    requires shown <= chat.total
    ensures var r := StageSeen(settings, chat, shown, ok);
            && Sound(r) && WindowUnfolded(settings, r)
            && r.messages == chat.messages && r.total == chat.total
            && FoldedTo(r) == FoldedTo(chat) + if ok then |Batch(settings, Seen(chat, shown))| else 0
  {
    var seen := Seen(chat, shown);
    assert Sound(seen) && FoldedTo(seen) == FoldedTo(chat);
    hide Sound, Batch, Stage;
    StageMovesPointer(settings, seen, ok);
    var r, s := StageSeen(settings, chat, shown, ok), Stage(settings, seen, ok);
    assert r.messages == s.messages && r.upto == s.upto;
    SameRows(s, r);
    if s == seen { assert r == chat; }
    hide FoldedTo;
  }

  /** Soundness and the pointer do not look at the total. */
  lemma SameRows(a: Chat, b: Chat)
    requires a.messages == b.messages && a.upto == b.upto
    ensures Sound(a) == Sound(b) && FoldedTo(a) == FoldedTo(b)
    ensures Summarized(a) == Summarized(b) && Completed(a) == Completed(b) && Unfolded(a) == Unfolded(b)
  {
  }

  lemma TokensSnoc(ms: seq<Message>, m: Message)
    ensures TokensOf(ms + [m]) == TokensOf(ms) + m.tokens
  {
    if ms == [] {
      assert TokensOf([m]) == m.tokens + TokensOf([]);
      assert ms + [m] == [m];
    } else {
      assert (ms + [m])[1..] == ms[1..] + [m];
      TokensSnoc(ms[1..], m);
    }
  }

  /** Adding a row at the end moves neither the pointer nor any message behind it. */
  lemma AddRowSound(chat: Chat, m: Message)
    requires Sound(chat) && Follows(chat.messages, m)
    requires m.role.User? || (m.role.Assistant? && chat.messages != [] && chat.messages[|chat.messages| - 1].role.User?)
    ensures Sound(Ask(chat, m)) && FoldedTo(Ask(chat, m)) == FoldedTo(chat)
  {
    var r := Ask(chat, m);
    assert Ordered(r.messages) && RepliesFollowQuestions(r.messages);
    if chat.upto.Some? {
      PointerIsPosition(chat);
      var k := FoldedTo(chat);
      assert r.messages[k - 1].id == chat.upto.value;
      PassedIsPosition(r.messages, k - 1);
      assert Listed(r.messages, chat.upto.value);
    }
  }

  lemma AddRowKeeps(settings: Settings, chat: Chat, m: Message)
    requires Sound(chat) && WindowUnfolded(settings, chat) && settings.keepLastPairs <= settings.windowPairs
    requires Follows(chat.messages, m)
    requires m.role.User? || (m.role.Assistant? && chat.messages != [] && chat.messages[|chat.messages| - 1].role.User?)
    ensures var r := Ask(chat, m);
            Sound(r) && WindowUnfolded(settings, r) && FoldedTo(r) == FoldedTo(chat)
  {
    var r, k := Ask(chat, m), FoldedTo(chat);
    AddRowSound(chat, m);
    PointerIsPosition(chat);
    PointerIsPosition(r);
    assert r.messages[..k] == chat.messages[..k];
    AssistantsConcat(chat.messages, [m]);
    hide Sound, FoldedTo;
  }

  /** What a turn takes into the summary. */
  function FoldedBy(settings: Settings, chat: Chat, turn: Turn): seq<Message> {
    if turn.ending.RolledBack? || !turn.summariserOk then []
    else Batch(settings, Seen(Ask(chat, turn.question), turn.shown))
  }

  /** From one state to the next the rows only grow and the pointer passes exactly these. */
  ghost predicate Folds1(chat: Chat, folded: seq<Message>, next: Chat) {
    && chat.messages <= next.messages
    && FoldedTo(next) == FoldedTo(chat) + |folded| <= |next.messages|
    && folded == next.messages[FoldedTo(chat)..FoldedTo(next)]
  }

  lemma Folds1Prefix(chat: Chat, folded: seq<Message>, next: Chat)
    requires Folds1(chat, folded, next)
    ensures chat.messages[..FoldedTo(chat)] + folded == next.messages[..FoldedTo(next)]
  {
    SliceOfPrefix(chat.messages, next.messages, 0, FoldedTo(chat));
    SliceJoin(next.messages, FoldedTo(chat), FoldedTo(next));
  }

  lemma Folds1ThenRow(chat: Chat, folded: seq<Message>, next: Chat, later: Chat)
    requires Folds1(chat, folded, next) && next.messages <= later.messages && FoldedTo(later) == FoldedTo(next)
    ensures Folds1(chat, folded, later)
  {
    SliceOfPrefix(next.messages, later.messages, FoldedTo(chat), FoldedTo(next));
  }

  /** A turn keeps the invariant, only appends messages, and folds the next stretch of them. */
  lemma TurnKeeps(settings: Settings, chat: Chat, turn: Turn)
    requires Sound(chat) && WindowUnfolded(settings, chat) && settings.keepLastPairs <= settings.windowPairs
    requires WellTimed(chat, turn)
    ensures Sound(After(settings, chat, turn)) && WindowUnfolded(settings, After(settings, chat, turn))
    ensures Folds1(chat, FoldedBy(settings, chat, turn), After(settings, chat, turn))
  {
    if turn.ending.RolledBack? {
      NothingFolded(chat);
    } else {
      hide Sound, WindowUnfolded, Folds1, FoldedTo, Stage, StageSeen, Batch, FoldedBy;
      var asked := Ask(chat, turn.question);
      var staged := StageSeen(settings, asked, turn.shown, turn.summariserOk);
      AddRowKeeps(settings, chat, turn.question);
      StageFolds(settings, chat, turn);
      if turn.ending.Answered? {
        AddRowKeeps(settings, staged, turn.ending.reply);
        Folds1ThenRow(chat, FoldedBy(settings, chat, turn), staged, Ask(staged, turn.ending.reply));
      }
    }
  }

  lemma NothingFolded(chat: Chat)
    ensures Folds1(chat, [], chat)
  {
  }

  lemma TurnTotals(settings: Settings, chat: Chat, turn: Turn)
    requires Totalled(chat)
    ensures Totalled(After(settings, chat, turn))
  {
    var asked := Ask(chat, turn.question);
    TokensSnoc(chat.messages, turn.question);
    if turn.ending.Answered? { TokensSnoc(asked.messages, turn.ending.reply); }
    hide Batch;
  }

  lemma StageFolds(settings: Settings, chat: Chat, turn: Turn)
    requires !turn.ending.RolledBack? && settings.keepLastPairs <= settings.windowPairs
    requires turn.shown <= Ask(chat, turn.question).total
    requires Sound(Ask(chat, turn.question)) && WindowUnfolded(settings, Ask(chat, turn.question))
    requires FoldedTo(Ask(chat, turn.question)) == FoldedTo(chat)
    ensures var staged := StageSeen(settings, Ask(chat, turn.question), turn.shown, turn.summariserOk);
            && Sound(staged) && WindowUnfolded(settings, staged) && staged.messages == chat.messages + [turn.question]
            && Folds1(chat, FoldedBy(settings, chat, turn), staged)
  {
    hide Sound, WindowUnfolded, Batch, Stage, StageSeen, FoldedTo, Folds1;
    var asked := Ask(chat, turn.question);
    var seen, staged := Seen(asked, turn.shown), StageSeen(settings, asked, turn.shown, turn.summariserOk);
    StageSeenMoves(settings, asked, turn.shown, turn.summariserOk);
    if turn.summariserOk {
      SameRows(asked, seen);
      BatchIsNext(settings, seen);
      StageFoldsBatch(chat, asked, staged, Batch(settings, seen));
    } else {
      StageFoldsBatch(chat, asked, staged, []);
    }
  }

  lemma StageFoldsBatch(chat: Chat, asked: Chat, staged: Chat, batch: seq<Message>)
    requires chat.messages <= asked.messages == staged.messages && FoldedTo(asked) == FoldedTo(chat)
    requires FoldedTo(staged) == FoldedTo(asked) + |batch| <= |asked.messages|
    requires batch == asked.messages[FoldedTo(asked)..FoldedTo(asked) + |batch|]
    ensures Folds1(chat, batch, staged)
  {
  }

  // ------------------------------------------------------------------ runs

  const NEW_CHAT := Chat([], None, 0)

  /** The chat after a run of turns on a new session. */
  function Ran(settings: Settings, turns: seq<Turn>): Chat {
    if turns == [] then NEW_CHAT
    else After(settings, Ran(settings, turns[..|turns| - 1]), turns[|turns| - 1])
  }

  /** What each turn of the run folded. */
  function Folds(settings: Settings, turns: seq<Turn>): seq<seq<Message>> {
    if turns == [] then []
    else Folds(settings, turns[..|turns| - 1])
         + [FoldedBy(settings, Ran(settings, turns[..|turns| - 1]), turns[|turns| - 1])]
  }

  ghost predicate AllWellTimed(settings: Settings, turns: seq<Turn>) {
    turns != [] ==>
      && AllWellTimed(settings, turns[..|turns| - 1])
      && WellTimed(Ran(settings, turns[..|turns| - 1]), turns[|turns| - 1])
  }

  /** Over every run the stretches folded so far, laid end to end, are exactly the messages up to
      the pointer: each message is folded at most once, in order, with none skipped; and no
      assistant message of the last window of completed pairs is among them. It holds however far the
      total each turn decides by lags behind. */
  lemma {:induction false} FoldsArePrefix(settings: Settings, turns: seq<Turn>)
    requires settings.keepLastPairs <= settings.windowPairs && AllWellTimed(settings, turns)
    ensures var chat := Ran(settings, turns);
            && Sound(chat) && Totalled(chat) && WindowUnfolded(settings, chat)
            && Flatten(Folds(settings, turns)) == chat.messages[..FoldedTo(chat)]
  {
    if turns != [] {
      var before := turns[..|turns| - 1];
      FoldsArePrefix(settings, before);
      var chat, turn := Ran(settings, before), turns[|turns| - 1];
      TurnKeeps(settings, chat, turn);
      TurnTotals(settings, chat, turn);
      FlattenSnoc(Folds(settings, before), FoldedBy(settings, chat, turn));
      Folds1Prefix(chat, FoldedBy(settings, chat, turn), Ran(settings, turns));
      hide Sound, WindowUnfolded, After, WellTimed, FoldedBy, Folds1, FoldedTo;
    }
  }

  /** The pointer never moves back. */
  lemma {:induction false} PointerOnlyAdvances(settings: Settings, turns: seq<Turn>, n: nat)
    requires settings.keepLastPairs <= settings.windowPairs && AllWellTimed(settings, turns) && n <= |turns|
    ensures FoldedTo(Ran(settings, turns[..n])) <= FoldedTo(Ran(settings, turns))
    ensures Ran(settings, turns[..n]).messages <= Ran(settings, turns).messages
  {
    if n == |turns| {
      assert turns[..n] == turns;
    } else {
      var before := turns[..|turns| - 1];
      assert before[..n] == turns[..n];
      PointerOnlyAdvances(settings, before, n);
      FoldsArePrefix(settings, before);
      TurnKeeps(settings, Ran(settings, before), turns[|turns| - 1]);
    }
  }

  // ------------------------------------------------------------------ after orphan questions

  /** The fold takes the question of one of the window's pairs and leaves its answer. */
  ghost predicate CutsWindowPair(settings: Settings, chat: Chat) {
    exists i :: PairedAt(chat.messages, i) && i < FoldedTo(chat) + |Batch(settings, chat)|
                && Assistants(chat.messages[i + 1..]) <= Window(settings, chat)
  }

  /** Orphan questions can put a question of the window into the summary. It happens exactly when
      the batch holds as many answers as pairs were due and the next row is an answer. */
  lemma WindowPairCutExactly(settings: Settings, chat: Chat)
    requires Sound(chat) && Batch(settings, chat) != [] && Window(settings, chat) >= 1
    ensures var e := FoldedTo(chat) + |Batch(settings, chat)|;
            && e < |chat.messages|
            && (CutsWindowPair(settings, chat) <==>
                Assistants(Batch(settings, chat)) == PendingPairs(settings, chat) && chat.messages[e].role.Assistant?)
  {
    BatchSparesWindow(settings, chat);
    AnswersAfterBatch(settings, chat);
    var ms, e, w := chat.messages, FoldedTo(chat) + |Batch(settings, chat)|, Window(settings, chat);
    assert RepliesFollowQuestions(ms);
    hide Sound, Batch, PendingPairs, FoldedTo, Window, Assistants, RepliesFollowQuestions;
    CutExactlyAt(ms, e, w);
    assert CutsWindowPair(settings, chat) <==> exists i :: PairedAt(ms, i) && i < e && Assistants(ms[i + 1..]) <= w;
  }

  /** Of the pairs begun before a position with at least `w` answers left, only one that straddles
      the position can be among the last `w`. */
  lemma CutExactlyAt(ms: seq<Message>, e: nat, w: nat)
    requires RepliesFollowQuestions(ms) && 0 < e < |ms| && Assistants(ms[e..]) >= w
    ensures (exists i :: PairedAt(ms, i) && i < e && Assistants(ms[i + 1..]) <= w) <==>
            ms[e].role.Assistant? && Assistants(ms[e..]) == w
  {
    hide Assistants;
    if ms[e].role.Assistant? && Assistants(ms[e..]) == w {
      assert PairedAt(ms, e - 1) && ms[e - 1 + 1..] == ms[e..];
    }
    forall i | PairedAt(ms, i) && i < e && Assistants(ms[i + 1..]) <= w
      ensures ms[e].role.Assistant? && Assistants(ms[e..]) == w
    {
      CutOnlyThere(ms, i, e, w);
    }
  }

  /** A pair that starts before `e` and has at most `w` answers from its own on ends at `e`. */
  lemma CutOnlyThere(ms: seq<Message>, i: nat, e: nat, w: nat)
    requires PairedAt(ms, i) && i < e < |ms| && Assistants(ms[i + 1..]) <= w <= Assistants(ms[e..])
    ensures i + 1 == e && ms[e].role.Assistant? && Assistants(ms[e..]) == w
  {
    if i + 1 < e { AnswerThenRest(ms, i + 1, e); }
  }

  /** Past the batch stand the window's answers and one more for each answer the batch fell short of. */
  lemma AnswersAfterBatch(settings: Settings, chat: Chat)
    requires Sound(chat) && Batch(settings, chat) != []
    ensures var e := FoldedTo(chat) + |Batch(settings, chat)|;
            && 0 < e <= |chat.messages|
            && Assistants(chat.messages[e..]) - Window(settings, chat)
               == PendingPairs(settings, chat) - Assistants(Batch(settings, chat)) >= 0
  {
    var ms, k, b := chat.messages, FoldedTo(chat), Batch(settings, chat);
    BatchIsNext(settings, chat);
    PointerIsPosition(chat);
    BatchHoldsAtMost(ms, k, b, PendingPairs(settings, chat));
    AssistantsSplit(ms, k);
    AssistantsSplit(ms[k..], |b|);
    assert ms[k..][..|b|] == b && ms[k..][|b|..] == ms[k + |b|..];
    hide Sound, FoldedTo, Assistants, Unfolded;
  }

  lemma AnswerThenRest(ms: seq<Message>, i: nat, e: nat)
    requires i < e <= |ms| && ms[i].role.Assistant?
    ensures Assistants(ms[i..]) >= 1 + Assistants(ms[e..])
  {
    AssistantsSplit(ms[i..], 1);
    assert ms[i..][..1] == [ms[i]] && ms[i..][1..] == ms[i + 1..];
    AssistantsSplit(ms[i + 1..], e - i - 1);
    assert ms[i + 1..][e - i - 1..] == ms[e..];
    assert Assistants([ms[i]]) == 1 + Assistants([]);
  }

  // ------------------------------------------------------------------ what a batch holds

  /** The pairs that slid out of the window: the oldest pending ones past the pointer. */
  function SlidOut(settings: Settings, chat: Chat): seq<Pair> {
    First(PairsOf(Unfolded(chat)), PendingPairs(settings, chat))
  }

  /** The batch is by position, the pairs due are by count. They are the same rows exactly when the batch
      starts with a question and holds as many answers as pairs were due. */
  lemma BatchIsSlidOutExactly(settings: Settings, chat: Chat)
    requires Sound(chat) && Batch(settings, chat) != []
    ensures var b, n := Batch(settings, chat), PendingPairs(settings, chat);
            && |SlidOut(settings, chat)| <= n
            && (b == Unpaired(SlidOut(settings, chat)) <==> b[0].role.User? && Assistants(b) == n)
  {
    var rows, b, n := Unfolded(chat), Batch(settings, chat), PendingPairs(settings, chat);
    BatchFacts(settings, chat);
    hide *;
    if b[0].role.User? && Assistants(b) == n { QuestionsFirst(rows, b, n); }
    if b == Unpaired(First(PairsOf(rows), n)) { OnlyPairs(rows, b, n); }
  }

  /** The batch is the front of rows no two neighbours of which are answers and which hold enough of them. */
  lemma BatchFacts(settings: Settings, chat: Chat)
    requires Sound(chat) && Batch(settings, chat) != []
    ensures var rows, n := Unfolded(chat), PendingPairs(settings, chat);
            && Batch(settings, chat) == First(rows, 2 * n) && n >= 1 && n <= Assistants(rows) && Answering(rows)
            && SlidOut(settings, chat) == First(PairsOf(rows), n) && |SlidOut(settings, chat)| <= n
  {
    PointerIsPosition(chat);
    AssistantsSplit(chat.messages, FoldedTo(chat));
    assert RepliesFollowQuestions(chat.messages);
    hide Sound, FoldedTo, Assistants, PairsOf, Summarized, Window;
  }

  /** Every answer but one at the very front follows a question. */
  ghost predicate Answering(ms: seq<Message>) {
    forall i :: 0 <= i < |ms| - 1 && ms[i + 1].role.Assistant? ==> ms[i].role.User?
  }

  lemma {:induction false} PackedAlternates(b: seq<Message>, n: nat)
    requires Answering(b) && |b| <= 2 * n && Assistants(b) == n && (b != [] ==> !b[0].role.Assistant?)
    ensures |b| == 2 * n && Alternates(b)
  {
    if b != [] {
      var rest := b[1..];
      assert Assistants(b) == Assistants(rest);
      if rest == [] || !rest[0].role.Assistant? {
        TooFewRows(rest, n);
      } else {
        assert b[0].role.User? && b[1].role.Assistant? && rest[1..] == b[2..];
        assert Assistants(rest) == 1 + Assistants(rest[1..]);
        assert |b| > 2 ==> b[2..][0] == b[2] && !b[2].role.Assistant?;
        PackedAlternates(b[2..], n - 1);
        AlternatesBehind(b);
      }
    }
  }

  /** Rows that start with no answer, fewer than twice the answers, do not fit them. */
  lemma TooFewRows(ms: seq<Message>, n: nat)
    requires Answering(ms) && |ms| < 2 * n && (ms != [] ==> !ms[0].role.Assistant?)
    ensures Assistants(ms) != n
  {
    HalfAssistants(ms);
    if ms != [] {
      HalfAssistants(ms[1..]);
      assert Assistants(ms) == Assistants(ms[1..]);
    }
  }

  lemma AlternatesBehind(b: seq<Message>)
    requires |b| >= 2 && b[0].role.User? && b[1].role.Assistant? && Alternates(b[2..])
    ensures Alternates(b)
  {
    forall i | 0 <= i < |b| ensures b[i].role == if i % 2 == 0 then User else Assistant {
      if i >= 2 { assert b[i] == b[2..][i - 2]; }
    }
  }

  /** Whole pairs in front of other rows are paired first. */
  lemma {:induction false} PairsInFront(ms: seq<Message>, n: nat)
    requires 2 * n <= |ms| && Alternates(ms[..2 * n])
    ensures n <= |PairsOf(ms)| && Unpaired(PairsOf(ms)[..n]) == ms[..2 * n]
  {
    if n > 0 {
      assert ms[..2 * n][0] == ms[0] && ms[..2 * n][1] == ms[1];
      FrontPair(ms);
      AlternatesFrom(ms[..2 * n], 2);
      assert ms[..2 * n][2..] == ms[2..][..2 * (n - 1)];
      PairsInFront(ms[2..], n - 1);
      hide Alternates, PairsOf;
      UnpairedFront(ms[0], ms[1], PairsOf(ms[2..]), n);
      assert ms[..2 * n] == [ms[0], ms[1]] + ms[2..][..2 * (n - 1)];
    }
  }

  lemma UnpairedFront(q: Message, a: Message, rest: seq<Pair>, n: nat)
    requires 0 < n <= |rest| + 1
    ensures Unpaired(([(q, a)] + rest)[..n]) == [q, a] + Unpaired(rest[..n - 1])
  {
    assert ([(q, a)] + rest)[..n] == [(q, a)] + rest[..n - 1];
    assert ([(q, a)] + rest[..n - 1])[1..] == rest[..n - 1];
  }

  lemma FrontPair(ms: seq<Message>)
    requires |ms| >= 2 && ms[0].role.User? && ms[1].role.Assistant?
    ensures PairsOf(ms) == [(ms[0], ms[1])] + PairsOf(ms[2..])
  {
    SkipAssistant(ms[1..]);
    assert ms[1..][1..] == ms[2..];
  }

  lemma QuestionsFirst(rows: seq<Message>, b: seq<Message>, n: nat)
    requires Answering(rows) && b == First(rows, 2 * n) && b != [] && b[0].role.User? && Assistants(b) == n
    ensures b == Unpaired(First(PairsOf(rows), n))
  {
    assert forall i :: 0 <= i < |b| ==> b[i] == rows[i];
    PackedAlternates(b, n);
    assert b == rows[..2 * n];
    PairsInFront(rows, n);
    assert First(PairsOf(rows), n) == PairsOf(rows)[..n];
  }

  lemma OnlyPairs(rows: seq<Message>, b: seq<Message>, n: nat)
    requires b == First(rows, 2 * n) && b != [] && n <= Assistants(rows) && b == Unpaired(First(PairsOf(rows), n))
    ensures b[0].role.User? && Assistants(b) == n
  {
    var pairs := First(PairsOf(rows), n);
    PairRoles(rows);
    UnpairedAnswers(pairs);
    UnpairedAt(pairs, 0);
  }

  lemma {:induction false} PairRoles(ms: seq<Message>)
    ensures forall p :: p in PairsOf(ms) ==> p.0.role.User? && p.1.role.Assistant?
  {
    if |ms| >= 2 { PairRoles(ms[1..]); }
  }

  lemma {:induction false} UnpairedAnswers(pairs: seq<Pair>)
    requires forall p :: p in pairs ==> p.0.role.User? && p.1.role.Assistant?
    ensures Assistants(Unpaired(pairs)) == |pairs| && |Unpaired(pairs)| == 2 * |pairs|
  {
    if pairs != [] {
      var p, rest := pairs[0], Unpaired(pairs[1..]);
      assert pairs[0] in pairs;
      UnpairedAnswers(pairs[1..]);
      AssistantsConcat([p.0, p.1], rest);
      assert [p.0, p.1][1..] == [p.1] && [p.1][1..] == [];
      assert Assistants([p.0, p.1]) == 1;
    }
  }

  const TINY := Settings(1, 1, 1, 1000)

  /** Row `i` of the run below: an orphan question, then question and answer in turn. */
  function RowAt(i: nat): Message {
    Message(i, if i < 2 || i % 2 == 1 then User else Assistant, "", 0, i)
  }

  function Rows(n: nat): seq<Message> {
    if n == 0 then [] else Rows(n - 1) + [RowAt(n - 1)]
  }

  lemma {:induction false} RowsAre(n: nat)
    ensures |Rows(n)| == n && forall i :: 0 <= i < n ==> Rows(n)[i] == RowAt(i)
    ensures Assistants(Rows(n)) == if n < 3 then 0 else (n - 1) / 2
  {
    if n > 0 {
      RowsAre(n - 1);
      AssistantsConcat(Rows(n - 1), [RowAt(n - 1)]);
      assert Assistants([RowAt(n - 1)]) == (if RowAt(n - 1).role.Assistant? then 1 else 0) + Assistants([]);
    }
  }

  lemma {:induction false} RowsPrefix(n: nat, j: nat)
    requires j <= n
    ensures |Rows(n)| == n && Rows(n)[..j] == Rows(j)
  {
    RowsAre(n);
    if j < n {
      RowsPrefix(n - 1, j);
      assert Rows(n)[..j] == Rows(n - 1)[..j];
    }
  }

  /** A cancelled turn, then `n - 1` answered ones. */
  function Orphaned(n: nat): seq<Turn> {
    if n == 0 then []
    else if n == 1 then [Turn(RowAt(0), 0, true, Unanswered)]
    else Orphaned(n - 1) + [Turn(RowAt(2 * n - 3), 0, true, Answered(RowAt(2 * n - 2)))]
  }

  lemma OneMoreTurn(n: nat)
    requires n >= 2
    ensures Orphaned(n) == Orphaned(n - 1) + [Turn(RowAt(2 * n - 3), 0, true, Answered(RowAt(2 * n - 2)))]
  {
  }

  /** With no summary yet and at most one answer, a turn folds nothing. */
  lemma TinyTurn(n: nat)
    requires n == 0 || n == 1
    ensures var q := Turn(RowAt(2 * n + 1), 0, true, Answered(RowAt(2 * n + 2)));
            After(TINY, Chat(Rows(2 * n + 1), None, 0), q) == Chat(Rows(2 * n + 3), None, 0)
            && WellTimed(Chat(Rows(2 * n + 1), None, 0), q)
  {
    RowsAre(2 * n + 1);
    RowsAre(2 * n + 2);
    assert Rows(2 * n + 1) + [RowAt(2 * n + 1)] == Rows(2 * n + 2);
    assert Rows(2 * n + 2) + [RowAt(2 * n + 2)] == Rows(2 * n + 3);
    assert Batch(TINY, Chat(Rows(2 * n + 2), None, 0)) == [];
    hide Rows, Assistants;
  }

  lemma RunOneMore(settings: Settings, turns: seq<Turn>, turn: Turn)
    requires AllWellTimed(settings, turns) && WellTimed(Ran(settings, turns), turn)
    ensures Ran(settings, turns + [turn]) == After(settings, Ran(settings, turns), turn)
    ensures AllWellTimed(settings, turns + [turn])
  {
    assert (turns + [turn])[..|turns + [turn]| - 1] == turns;
  }

  lemma FirstQuestion(settings: Settings, m: Message, ok: bool)
    requires m.role.User? && settings.summarizeEvery >= 1
    ensures After(settings, NEW_CHAT, Turn(m, m.tokens, ok, Unanswered)) == Chat([m], None, m.tokens)
  {
    var asked := Ask(NEW_CHAT, m);
    assert asked.messages == [m] && Assistants([m]) == 0 + Assistants([m][1..]);
    assert PendingPairs(settings, asked) == 0;
    assert Batch(settings, asked) == [];
  }

  lemma OrphanTurn()
    ensures Ran(TINY, Orphaned(1)) == Chat(Rows(1), None, 0) && AllWellTimed(TINY, Orphaned(1))
  {
    FirstQuestion(TINY, RowAt(0), true);
    RowsAre(1);
    var t1, none: seq<Turn> := Turn(RowAt(0), 0, true, Unanswered), [];
    assert Orphaned(1) == [t1] == none + [t1] && Rows(1) == [RowAt(0)];
    assert Ran(TINY, none) == NEW_CHAT && AllWellTimed(TINY, none) && WellTimed(NEW_CHAT, t1);
    hide Rows, After, RowAt, Orphaned, Ran, AllWellTimed, WellTimed;
    RunOneMore(TINY, none, t1);
  }

  lemma OrphanedStart()
    ensures Ran(TINY, Orphaned(3)) == Chat(Rows(5), None, 0) && AllWellTimed(TINY, Orphaned(3))
  {
    hide *;
    OneMoreTurn(2);
    OneMoreTurn(3);
    OrphanTurn();
    TinyTurn(0);
    TinyTurn(1);
    RunOneMore(TINY, Orphaned(1), Turn(RowAt(1), 0, true, Answered(RowAt(2))));
    RunOneMore(TINY, Orphaned(2), Turn(RowAt(3), 0, true, Answered(RowAt(4))));
  }

  /** Two answers after the orphan, the next turn folds the orphan and its neighbour. */
  lemma FirstFold(n: nat)
    requires n == 5
    ensures var q := Turn(RowAt(n), 0, true, Answered(RowAt(n + 1)));
            && After(TINY, Chat(Rows(n), None, 0), q) == Chat(Rows(n + 2), Some(1), 0)
            && WellTimed(Chat(Rows(n), None, 0), q)
  {
    RowsAre(n);
    RowsAre(n + 1);
    var asked := Chat(Rows(n + 1), None, 0);
    assert Rows(n) + [RowAt(n)] == Rows(n + 1) && Rows(n + 1) + [RowAt(n + 1)] == Rows(n + 2);
    assert PendingPairs(TINY, asked) == 1;
    assert Batch(TINY, asked) == Rows(n + 1)[..2];
    hide Rows, Assistants, Batch;
    assert Stage(TINY, asked, true) == Chat(Rows(n + 1), Some(1), 0);
  }

  /** Already before the pointer moves the batch can be other rows than the pair that is due: the orphan
      and the pair's question, when the pair is due. No window pair is cut. */
  lemma OrphanShiftsBatch()
    ensures AllWellTimed(TINY, Orphaned(3)) && Follows(Ran(TINY, Orphaned(3)).messages, RowAt(5))
    ensures var asked := Ask(Ran(TINY, Orphaned(3)), RowAt(5));
            && Batch(TINY, asked) != [] && Batch(TINY, asked) != Unpaired(SlidOut(TINY, asked))
            && !CutsWindowPair(TINY, asked)
  {
    hide *;
    OrphanedStart();
    TinyRunSound(Orphaned(3));
    ShiftedBatch(Ran(TINY, Orphaned(3)), 5);
  }

  lemma ShiftedBatch(chat: Chat, n: nat)
    requires n == 5 && chat == Chat(Rows(n), None, 0) && Sound(chat)
    ensures Follows(chat.messages, RowAt(n))
    ensures var asked := Ask(chat, RowAt(n));
            && Batch(TINY, asked) != [] && Batch(TINY, asked) != Unpaired(SlidOut(TINY, asked))
            && !CutsWindowPair(TINY, asked)
  {
    var asked := Chat(Rows(n + 1), None, 0);
    RowsAre(n);
    RowsAre(n + 1);
    assert Rows(n) + [RowAt(n)] == Rows(n + 1) && Ask(chat, RowAt(n)) == asked;
    assert PendingPairs(TINY, asked) == 1;
    assert Batch(TINY, asked) == Rows(n + 1)[..2] == [RowAt(0), RowAt(1)];
    assert [RowAt(0), RowAt(1)][1..] == [RowAt(1)] && Assistants([RowAt(1)]) == Assistants([RowAt(1)][1..]);
    assert Assistants(Batch(TINY, asked)) == 0;
    AddRowSound(chat, RowAt(n));
    hide Rows, Assistants, Batch, Sound, PendingPairs, SlidOut, CutsWindowPair, FoldedTo;
    BatchIsSlidOutExactly(TINY, asked);
    WindowPairCutExactly(TINY, asked);
  }

  lemma OrphanedEnd()
    ensures Ran(TINY, Orphaned(4)) == Chat(Rows(7), Some(1), 0) && AllWellTimed(TINY, Orphaned(4))
  {
    hide *;
    OneMoreTurn(4);
    OrphanedStart();
    FirstFold(5);
    RunOneMore(TINY, Orphaned(3), Turn(RowAt(5), 0, true, Answered(RowAt(6))));
  }

  lemma SecondBatch(asked: Chat)
    requires asked == Chat(Rows(8), Some(1), 0) && Sound(asked)
    ensures FoldedTo(asked) == 2 && PendingPairs(TINY, asked) == 2 && Batch(TINY, asked) == Rows(8)[2..6]
  {
    RowsAre(8);
    RowsAre(2);
    RowsPrefix(8, 2);
    PassedIsPosition(Rows(8), 1);
    PointerIsPosition(asked);
    hide Rows, Assistants, Sound, Ordered, Passed, AssistantsUpTo, RowsAfter, CreatedAt, TokensOf;
    assert Rows(8)[2..][..4] == Rows(8)[2..6];
  }

  /** The next question of that run folds a question of the window while its answer stays. */
  lemma SecondFold(asked: Chat)
    requires asked == Chat(Rows(8), Some(1), 0) && Sound(asked)
    ensures CutsWindowPair(TINY, asked)
  {
    SecondBatch(asked);
    RowsAre(8);
    RowsAre(6);
    RowsAre(2);
    RowsPrefix(8, 6);
    RowsPrefix(6, 2);
    AssistantsSplit(Rows(6), 2);
    hide Rows, Assistants, Sound, Batch, PendingPairs, FoldedTo, CutsWindowPair;
    assert Rows(8)[2..6] == Rows(8)[..6][2..] == Rows(6)[2..];
    assert Rows(8)[6] == RowAt(6);
    WindowPairCutExactly(TINY, asked);
  }

  /** A whole run that reaches it. */
  lemma OrphanCutsWindow()
    ensures AllWellTimed(TINY, Orphaned(4)) && Follows(Ran(TINY, Orphaned(4)).messages, RowAt(7))
    ensures CutsWindowPair(TINY, Ask(Ran(TINY, Orphaned(4)), RowAt(7)))
  {
    hide *;
    OrphanedEnd();
    TinyRunSound(Orphaned(4));
    OrphanAsks(Ran(TINY, Orphaned(4)));
  }

  lemma TinyRunSound(turns: seq<Turn>)
    requires AllWellTimed(TINY, turns)
    ensures Sound(Ran(TINY, turns))
  {
    FoldsArePrefix(TINY, turns);
  }

  lemma OrphanAsks(chat: Chat)
    requires chat == Chat(Rows(7), Some(1), 0) && Sound(chat)
    ensures Follows(chat.messages, RowAt(7)) && CutsWindowPair(TINY, Ask(chat, RowAt(7)))
  {
    RowsAre(7);
    assert Rows(8) == Rows(7) + [RowAt(7)];
    hide Rows, CutsWindowPair, Sound, Assistants;
    AddRowSound(chat, RowAt(7));
    SecondFold(Ask(chat, RowAt(7)));
  }

  // ------------------------------------------------------------------ strict alternation

  /** Every turn that commits is answered. */
  ghost predicate Clean(turns: seq<Turn>) {
    forall i :: 0 <= i < |turns| ==> !turns[i].ending.Unanswered?
  }

  /** Whole pairs only, and the pointer between two of them. */
  ghost predicate PairAligned(chat: Chat) {
    Alternates(chat.messages) && |chat.messages| % 2 == 0 && FoldedTo(chat) % 2 == 0
  }

  lemma {:induction false} AlternatingAssistants(ms: seq<Message>)
    requires Alternates(ms)
    ensures Assistants(ms) == |ms| / 2
  {
    if |ms| == 1 {
      assert ms[0].role == User && Assistants(ms[1..]) == 0;
    } else if |ms| >= 2 {
      assert ms[0].role == User && ms[1].role == Assistant;
      assert ms[1..][1..] == ms[2..];
      AlternatesFrom(ms, 2);
      AlternatingAssistants(ms[2..]);
      assert Assistants(ms[1..]) == 1 + Assistants(ms[1..][1..]);
    }
  }

  /** With the current question on top of whole pairs, the counts are positions halved and the
      batch is exactly the pending pairs. */
  lemma AlignedStage(settings: Settings, chat: Chat)
    requires Sound(chat) && Alternates(chat.messages) && |chat.messages| % 2 == 1 && FoldedTo(chat) % 2 == 0
    ensures Completed(chat) == (|chat.messages| - 1) / 2 && Summarized(chat) == FoldedTo(chat) / 2
    ensures var n := PendingPairs(settings, chat);
            |Batch(settings, chat)| == if n >= Threshold(settings, chat) then 2 * n else 0
  {
    var ms, k := chat.messages, FoldedTo(chat);
    PointerIsPosition(chat);
    AlternatingAssistants(ms);
    assert Alternates(ms[..k]);
    AlternatingAssistants(ms[..k]);
    hide Sound, FoldedTo, Alternates, Assistants;
  }

  /** The stage of an aligned chat moves the pointer by whole pairs: all the pending ones or none. */
  lemma AlignedStaged(settings: Settings, chat: Chat, ok: bool)
    requires Sound(chat) && Alternates(chat.messages) && |chat.messages| % 2 == 1 && FoldedTo(chat) % 2 == 0
    ensures var n := PendingPairs(settings, chat);
            FoldedTo(Stage(settings, chat, ok)) ==
                2 * (FoldedTo(chat) / 2 + if ok && n >= Threshold(settings, chat) then n else 0)
    ensures FoldedTo(Stage(settings, chat, ok)) % 2 == 0
  {
    hide *;
    AlignedStage(settings, chat);
    StageMovesPointer(settings, chat, ok);
    EvenSum(FoldedTo(chat), PendingPairs(settings, chat));
    EvenSum(FoldedTo(chat), 0);
  }

  lemma EvenSum(k: nat, n: nat)
    requires k % 2 == 0
    ensures 2 * (k / 2 + n) == k + 2 * n && (k + 2 * n) % 2 == 0
  {
  }

  /** Over every run in which each committed turn is answered, whatever total the next turn decides by:
      after its stage succeeds fewer pairs than a batch are pending, and none over budget. */
  lemma StageDrains(settings: Settings, turns: seq<Turn>, question: Message, shown: nat)
    requires settings.keepLastPairs <= settings.windowPairs && settings.summarizeEvery >= 1
    requires AllWellTimed(settings, turns) && Clean(turns)
    requires question.role.User? && Follows(Ran(settings, turns).messages, question)
    ensures var r := Stage(settings, Seen(Ask(Ran(settings, turns), question), shown), true);
            && FoldedTo(r) % 2 == 0
            && (shown < settings.tokenBudget ==> PendingPairs(settings, r) < settings.summarizeEvery)
            && (shown >= settings.tokenBudget ==> PendingPairs(settings, r) == 0)
  {
    var asked := Ask(Ran(settings, turns), question);
    CleanRunAligned(settings, turns);
    FoldsArePrefix(settings, turns);
    hide *;
    AskedKeeps(settings, Ran(settings, turns), question);
    SeenIs(asked, shown);
    SameRows(asked, Seen(asked, shown));
    StageDrained(settings, Seen(asked, shown));
  }

  lemma SeenIs(chat: Chat, shown: nat)
    ensures Seen(chat, shown).messages == chat.messages && Seen(chat, shown).upto == chat.upto
    ensures Seen(chat, shown).total == shown
  {
  }

  lemma StageDrained(settings: Settings, chat: Chat)
    requires Sound(chat) && Alternates(chat.messages) && |chat.messages| % 2 == 1 && FoldedTo(chat) % 2 == 0
    requires settings.summarizeEvery >= 1
    ensures var r := Stage(settings, chat, true);
            && FoldedTo(r) % 2 == 0
            && (chat.total < settings.tokenBudget ==> PendingPairs(settings, r) < settings.summarizeEvery)
            && (chat.total >= settings.tokenBudget ==> PendingPairs(settings, r) == 0)
  {
    var r := Stage(settings, chat, true);
    AlignedStage(settings, chat);
    AlignedStaged(settings, chat, true);
    StageMovesPointer(settings, chat, true);
    AlignedStage(settings, r);
    hide Sound, FoldedTo, Batch, Stage, Alternates, WindowUnfolded;
  }

  lemma AlignedTurn(settings: Settings, chat: Chat, turn: Turn)
    requires Sound(chat) && WindowUnfolded(settings, chat) && settings.keepLastPairs <= settings.windowPairs
    requires WellTimed(chat, turn) && !turn.ending.Unanswered? && PairAligned(chat)
    ensures PairAligned(After(settings, chat, turn))
  {
    if turn.ending.Answered? {
      var asked := Ask(chat, turn.question);
      assert After(settings, chat, turn) ==
             Ask(StageSeen(settings, asked, turn.shown, turn.summariserOk), turn.ending.reply);
      AskedKeeps(settings, chat, turn.question);
      hide Sound, WindowUnfolded, Alternates, FoldedTo, StageSeen, After, PairAligned, Follows;
      AlignedAnswer(settings, asked, turn.shown, turn.summariserOk, turn.ending.reply);
    }
  }

  lemma AlignedAnswer(settings: Settings, asked: Chat, shown: nat, ok: bool, reply: Message)
    requires settings.keepLastPairs <= settings.windowPairs && shown <= asked.total
    requires Sound(asked) && WindowUnfolded(settings, asked) && Alternates(asked.messages)
    requires |asked.messages| % 2 == 1 && FoldedTo(asked) % 2 == 0
    requires reply.role.Assistant? && Follows(asked.messages, reply)
    ensures PairAligned(Ask(StageSeen(settings, asked, shown, ok), reply))
  {
    var seen, staged := Seen(asked, shown), StageSeen(settings, asked, shown, ok);
    assert asked.messages[|asked.messages| - 1].role.User?;
    hide Sound, WindowUnfolded, Alternates, FoldedTo, Batch, Stage, Follows;
    SameRows(asked, seen);
    SameRows(Stage(settings, seen, ok), staged);
    AlignedStaged(settings, seen, ok);
    StageSeenMoves(settings, asked, shown, ok);
    AlternatesSnoc(asked.messages, reply);
    AddRowKeeps(settings, staged, reply);
  }

  lemma AlternatesSnoc(ms: seq<Message>, m: Message)
    requires Alternates(ms) && m.role == if |ms| % 2 == 0 then User else Assistant
    ensures Alternates(ms + [m])
  {
  }

  lemma {:induction false} CleanRunAligned(settings: Settings, turns: seq<Turn>)
    requires settings.keepLastPairs <= settings.windowPairs && AllWellTimed(settings, turns) && Clean(turns)
    ensures PairAligned(Ran(settings, turns))
  {
    if turns != [] {
      var before := turns[..|turns| - 1];
      CleanRunAligned(settings, before);
      FoldsArePrefix(settings, before);
      AlignedTurn(settings, Ran(settings, before), turns[|turns| - 1]);
    }
  }

  /** Whole completed pair `i` is in the summary. */
  ghost predicate InSummary(chat: Chat, i: nat) { 2 * i + 1 < FoldedTo(chat) }

  /** Pair `i` is among the last `Window` completed ones. */
  ghost predicate InWindow(settings: Settings, chat: Chat, i: nat) {
    Minus(Completed(chat), Window(settings, chat)) <= i < Completed(chat)
  }

  /** Neither of its messages is folded and it is older than the window. */
  ghost predicate IsPending(settings: Settings, chat: Chat, i: nat) {
    FoldedTo(chat) <= 2 * i && i < Minus(Completed(chat), Window(settings, chat))
  }

  /** Over every run in which each committed turn is answered, every completed pair is in exactly
      one place: the summary, the pending stretch, or the window. */
  lemma PairsArePartitioned(settings: Settings, turns: seq<Turn>, i: nat)
    requires settings.keepLastPairs <= settings.windowPairs && AllWellTimed(settings, turns) && Clean(turns)
    requires i < Completed(Ran(settings, turns))
    ensures var chat := Ran(settings, turns);
            && (InSummary(chat, i) || InWindow(settings, chat, i) || IsPending(settings, chat, i))
            && !(InSummary(chat, i) && InWindow(settings, chat, i))
            && !(InSummary(chat, i) && IsPending(settings, chat, i))
            && !(InWindow(settings, chat, i) && IsPending(settings, chat, i))
  {
    CleanRunAligned(settings, turns);
    FoldsArePrefix(settings, turns);
    PairPlaced(settings, Ran(settings, turns), i);
  }

  lemma PairPlaced(settings: Settings, chat: Chat, i: nat)
    requires Sound(chat) && WindowUnfolded(settings, chat) && PairAligned(chat) && i < Completed(chat)
    ensures InSummary(chat, i) || InWindow(settings, chat, i) || IsPending(settings, chat, i)
    ensures !(InSummary(chat, i) && InWindow(settings, chat, i))
    ensures !(InSummary(chat, i) && IsPending(settings, chat, i))
    ensures !(InWindow(settings, chat, i) && IsPending(settings, chat, i))
  {
    PointerIsPosition(chat);
    var k := FoldedTo(chat);
    assert Alternates(chat.messages[..k]);
    AlternatingAssistants(chat.messages[..k]);
    assert Summarized(chat) == k / 2 && k == 2 * (k / 2);
    hide Sound, Alternates, FoldedTo, Assistants, Window, Summarized, Completed;
  }

  /** The messages a turn puts into the prompt: what `ChatSession.TakeTurn` gives the context. */
  function Prompted(settings: Settings, asked: Chat): seq<Message> {
    Unpaired(Last(PairsOf(Last(asked.messages, 2 * settings.windowPairs + 1)), Window(settings, asked)))
  }

  /** Place of completed pair `i` in the window. */
  function WindowPlace(settings: Settings, chat: Chat, i: nat): int {
    i - Minus(Completed(chat), Window(settings, chat))
  }

  /** The pair is shown at its place of the prompt, which holds as many pairs as the window. */
  ghost predicate Shown(settings: Settings, asked: Chat, i: nat) {
    var prompted, j := Prompted(settings, asked), WindowPlace(settings, asked, i);
    && 2 * i + 1 < |asked.messages| && 0 <= 2 * j && 2 * j + 1 < |prompted|
    && |prompted| == 2 * (Completed(asked) - Minus(Completed(asked), Window(settings, asked)))
    && prompted[2 * j] == asked.messages[2 * i] && prompted[2 * j + 1] == asked.messages[2 * i + 1]
  }

  /** Once the question is among the rows, and may itself have put the total over the budget, the rows
      loaded give the prompt exactly the pairs of the window in force, in order, and the stage that runs
      before the prompt is built folds none of them. None was folded earlier either, unless the total
      shown puts a session that is over its budget under it. */
  lemma WindowIsPrompted(settings: Settings, turns: seq<Turn>, question: Message, shown: nat, ok: bool, i: nat)
    requires settings.keepLastPairs <= settings.windowPairs && AllWellTimed(settings, turns) && Clean(turns)
    requires question.role.User? && Follows(Ran(settings, turns).messages, question)
    requires InWindow(settings, Seen(Ask(Ran(settings, turns), question), shown), i)
    ensures var asked := Ask(Ran(settings, turns), question);
            && Shown(settings, Seen(asked, shown), i)
            && (InSummary(StageSeen(settings, asked, shown, ok), i) ==> InSummary(asked, i))
            && (InSummary(asked, i) ==> !OverBudget(settings, shown) && OverBudget(settings, asked.total))
  {
    CleanRunAligned(settings, turns);
    FoldsArePrefix(settings, turns);
    hide *;
    AskedKeeps(settings, Ran(settings, turns), question);
    AskedWindow(settings, Ask(Ran(settings, turns), question), shown, ok, i);
  }

  lemma AskedWindow(settings: Settings, asked: Chat, shown: nat, ok: bool, i: nat)
    requires settings.keepLastPairs <= settings.windowPairs
    requires Sound(asked) && WindowUnfolded(settings, asked) && Alternates(asked.messages)
    requires |asked.messages| % 2 == 1 && FoldedTo(asked) % 2 == 0 && InWindow(settings, Seen(asked, shown), i)
    ensures Shown(settings, Seen(asked, shown), i)
    ensures InSummary(StageSeen(settings, asked, shown, ok), i) ==> InSummary(asked, i)
    ensures InSummary(asked, i) ==> !OverBudget(settings, shown) && OverBudget(settings, asked.total)
  {
    var seen := Seen(asked, shown);
    SameRows(asked, seen);
    SameRows(Stage(settings, seen, ok), StageSeen(settings, asked, shown, ok));
    WindowIsSmaller(settings, asked, shown, i);
    hide Sound, FoldedTo, Alternates, Stage, StageSeen, WindowUnfolded, Shown, InWindow;
    WindowShows(settings, seen, i);
    WindowSpared(settings, seen, ok, i);
    hide OverBudget;
  }

  /** A window pair folded earlier is one of a wider window than the one that was in force. */
  lemma WindowIsSmaller(settings: Settings, asked: Chat, shown: nat, i: nat)
    requires settings.keepLastPairs <= settings.windowPairs
    requires Sound(asked) && WindowUnfolded(settings, asked) && Alternates(asked.messages)
    requires |asked.messages| % 2 == 1 && FoldedTo(asked) % 2 == 0 && InWindow(settings, Seen(asked, shown), i)
    ensures InSummary(asked, i) ==> !OverBudget(settings, shown) && OverBudget(settings, asked.total)
  {
    AlignedStage(settings, asked);
    SameRows(asked, Seen(asked, shown));
    hide Sound, FoldedTo, Alternates, Batch, Summarized, Completed;
  }

  lemma AskedKeeps(settings: Settings, chat: Chat, question: Message)
    requires settings.keepLastPairs <= settings.windowPairs
    requires Sound(chat) && WindowUnfolded(settings, chat) && PairAligned(chat)
    requires question.role.User? && Follows(chat.messages, question)
    ensures var asked := Ask(chat, question);
            && Sound(asked) && WindowUnfolded(settings, asked) && Alternates(asked.messages)
            && |asked.messages| % 2 == 1 && FoldedTo(asked) % 2 == 0
  {
    AlternatesSnoc(chat.messages, question);
    hide Sound, Alternates, FoldedTo, WindowUnfolded, Follows;
    AddRowKeeps(settings, chat, question);
  }

  lemma WindowShows(settings: Settings, asked: Chat, i: nat)
    requires settings.keepLastPairs <= settings.windowPairs
    requires Alternates(asked.messages) && InWindow(settings, asked, i)
    ensures Shown(settings, asked, i)
  {
    hide Alternates, PairsOf, Assistants, FoldedTo, Unpaired;
    var ms, n := asked.messages, Window(settings, asked);
    AlternatingAssistants(ms);
    WindowRowsSuffice(ms, settings.windowPairs, n);
    AlternatingPairCount(ms);
    AlternatingPairAt(ms, i);
    LastAt(PairsOf(ms), n, i);
    UnpairedAt(Last(PairsOf(ms), n), WindowPlace(settings, asked, i));
  }

  lemma {:induction false} UnpairedAt(pairs: seq<Pair>, j: nat)
    requires j < |pairs|
    ensures |Unpaired(pairs)| == 2 * |pairs|
    ensures Unpaired(pairs)[2 * j] == pairs[j].0 && Unpaired(pairs)[2 * j + 1] == pairs[j].1
  {
    if |pairs| > 1 { UnpairedAt(pairs[1..], if j > 0 then j - 1 else 0); }
  }

  lemma WindowSpared(settings: Settings, asked: Chat, ok: bool, i: nat)
    requires Sound(asked) && InWindow(settings, asked, i)
    requires Alternates(asked.messages) && |asked.messages| % 2 == 1 && FoldedTo(asked) % 2 == 0
    ensures InSummary(Stage(settings, asked, ok), i) ==> InSummary(asked, i)
  {
    var r := Stage(settings, asked, ok);
    StageMovesPointer(settings, asked, ok);
    AlignedStaged(settings, asked, ok);
    AlignedStage(settings, r);
    hide Sound, FoldedTo, Stage, Alternates, Batch, Summarized, Assistants;
  }

  // ------------------------------------------------------------------ the service

  /** Row `k - 1` is the last one folded; none is at 0. */
  ghost predicate FoldedAt(ms: seq<Message>, upto: Option<nat>, k: nat) {
    k <= |ms| && if upto.None? then k == 0 else k > 0 && ms[k - 1].id == upto.value
  }

  /** The next `n` rows from `k` on, or all there are. */
  ghost predicate TakesFrom(rows: seq<Message>, ms: seq<Message>, k: nat, n: int) {
    && k + |rows| <= |ms| && rows == ms[k..k + |rows|]
    && (|rows| == n || (|rows| < n && k + |rows| == |ms|))
  }

  /** When a fold is due, and what it takes: the answers outside the window and past the pointer are counted,
      against one over the budget and else against the batch size; and twice as many rows are taken. */
  lemma DueExactly(settings: Settings, chat: Chat, k: nat)
    requires Sound(chat) && FoldedAt(chat.messages, chat.upto, k)
    ensures var window := if chat.total >= settings.tokenBudget then settings.keepLastPairs else settings.windowPairs;
            var due := Assistants(chat.messages) - window - Assistants(chat.messages[..k]);
            var least := if chat.total >= settings.tokenBudget then 1 else settings.summarizeEvery;
            && (Batch(settings, chat) != [] <==> due >= 1 && due >= least)
            && (due >= 1 && due >= least ==>
                  Batch(settings, chat) == chat.messages[k..if k + 2 * due < |chat.messages| then k + 2 * due
                                                         else |chat.messages|])
  {
    PointerIsPosition(chat);
    AssistantsSplit(chat.messages, k);
    if chat.upto.Some? { PassedIsPosition(chat.messages, k - 1); }
    assert FoldedTo(chat) == k;
    assert chat.messages[k..] == [] ==> Assistants(chat.messages[k..]) == 0;
    hide Sound, FoldedTo, Assistants, Summarized, Unfolded;
  }

  /** The rows and tokens a turn leaves: none if it is rolled back, else its question and, if there is one,
      the answer; the pointer is the batch's last row if one was due and the summariser answered. */
  lemma TurnAdds(settings: Settings, chat: Chat, turn: Turn)
    ensures var r, seen := After(settings, chat, turn), Seen(Ask(chat, turn.question), turn.shown);
            match turn.ending
            case RolledBack => r == chat
            case Unanswered =>
              && r.messages == chat.messages + [turn.question] && r.total == chat.total + turn.question.tokens
              && r.upto == (if Batch(settings, seen) != [] && turn.summariserOk
                            then Some(Batch(settings, seen)[|Batch(settings, seen)| - 1].id) else chat.upto)
            case Answered(reply) =>
              && r.messages == chat.messages + [turn.question, reply]
              && r.total == chat.total + turn.question.tokens + reply.tokens
              && r.upto == (if Batch(settings, seen) != [] && turn.summariserOk
                            then Some(Batch(settings, seen)[|Batch(settings, seen)| - 1].id) else chat.upto)
  {
    hide Batch;
    if turn.ending.Answered? {
      assert (chat.messages + [turn.question]) + [turn.ending.reply] == chat.messages
             + [turn.question, turn.ending.reply];
    }
  }

  /** One session's rows as the service reads and writes them. */
  class ChatSession {
    var messages: seq<Message>
    var totalTokens: nat
    var summary: Option<string>
    var summaryTokens: Option<nat>
    var summarizedUpto: Option<nat>

    ghost function View(): Chat
      reads this
    {
      Chat(messages, summarizedUpto, totalTokens)
    }

    constructor ()
      ensures View() == NEW_CHAT && summary == None && summaryTokens == None
    {
      messages, totalTokens, summary, summaryTokens, summarizedUpto := [], 0, None, None, None;
    }

    method PersistUser(question: Message)
      modifies this`messages, this`totalTokens
      ensures View() == Ask(old(View()), question)
    {
      messages, totalTokens := messages + [question], totalTokens + question.tokens;
    }

    method PersistAssistant(reply: Message)
      modifies this`messages, this`totalTokens
      ensures View() == Ask(old(View()), reply)
    {
      messages, totalTokens := messages + [reply], totalTokens + reply.tokens;
    }

    /** The newest rows for the prompt, and the batch to fold this turn when one is due by the total
        the session object shows. */
    method LoadMemory(settings: Settings, shown: nat) returns (recent: seq<Message>, pending: Option<seq<Message>>)
      ensures recent == Last(messages, 2 * settings.windowPairs + 1)
      ensures var batch := Batch(settings, Seen(View(), shown)); pending == if batch == [] then None else Some(batch)
      ensures Sound(View()) ==> forall k: nat :: FoldedAt(messages, summarizedUpto, k) ==>
                var window := if shown >= settings.tokenBudget then settings.keepLastPairs else settings.windowPairs;
                var due := Assistants(messages) - window - Assistants(messages[..k]);
                && (pending.Some? <==> due >= 1 && due >= if shown >= settings.tokenBudget then 1
                    else settings.summarizeEvery)
                && (pending.Some? ==>
                      TakesFrom(pending.value, messages, k, 2 * due))
    {
      recent, pending := ReadMemory(settings, shown);
      ghost var seen := Seen(View(), shown);
      SameRows(View(), seen);
      assert seen.messages == messages && seen.upto == summarizedUpto && seen.total == shown;
      hide *;
      if Sound(View()) {
        forall k: nat | FoldedAt(messages, summarizedUpto, k)
          ensures var window := if shown >= settings.tokenBudget then settings.keepLastPairs else settings.windowPairs;
                  var due := Assistants(messages) - window - Assistants(messages[..k]);
                  var least := if shown >= settings.tokenBudget then 1 else settings.summarizeEvery;
                  && (Batch(settings, seen) != [] <==> due >= 1 && due >= least)
                  && (due >= 1 && due >= least ==>
                        TakesFrom(Batch(settings, seen), messages, k, 2 * due))
        {
          DueExactly(settings, seen, k);
        }
      }
    }

    method ReadMemory(settings: Settings, shown: nat) returns (recent: seq<Message>, pending: Option<seq<Message>>)
      ensures recent == Last(messages, 2 * settings.windowPairs + 1)
      ensures var batch := Batch(settings, Seen(View(), shown)); pending == if batch == [] then None else Some(batch)
    {
      recent := Last(messages, 2 * settings.windowPairs + 1);
      var overBudget := shown >= settings.tokenBudget;
      var window := if overBudget then settings.keepLastPairs else settings.windowPairs;
      var slidOut := Minus(Assistants(messages), window);
      var boundary := if summarizedUpto.None? then None else CreatedAt(messages, summarizedUpto.value);
      var summarized := if summarizedUpto.None? then 0 else AssistantsUpTo(messages, boundary);
      var pendingPairs := Minus(slidOut, summarized);
      var threshold := if overBudget then 1 else settings.summarizeEvery;
      pending := None;
      if pendingPairs >= threshold {
        var rows := if summarizedUpto.None? then messages else RowsAfter(messages, boundary);
        var batch := First(rows, pendingPairs * 2);
        if batch != [] { pending := Some(batch); }
      }
    }

    method ApplySummary(text: string, tokens: nat, upto: nat)
      modifies this`summary, this`summaryTokens, this`summarizedUpto
      ensures View() == old(View()).(upto := Some(upto)) && summary == Some(text) && summaryTokens == Some(tokens)
    {
      summary, summaryTokens, summarizedUpto := Some(text), Some(tokens), Some(upto);
    }

    /** A turn that commits: question, memory load, summary stage, prompt context, and the answer
        if the pipeline finishes. */
    method TakeTurn(settings: Settings, question: Message, shown: nat, summariser: Option<(string, nat)>,
                    reply: Option<Message>)
      returns (ctx: MemoryContext)
      modifies this
      ensures View() == After(settings, old(View()),
                              Turn(question, shown, summariser.Some?,
                                   if reply.Some? then Answered(reply.value) else Unanswered))
      ensures var seen := Seen(Ask(old(View()), question), shown);
              && ctx.messages == Prompted(settings, seen)
              && ctx.summary ==
                   if Batch(settings, seen) != [] && summariser.Some? then Some(summariser.value.0) else old(summary)
      ensures messages == old(messages) + [question] + (if reply.Some? then [reply.value] else [])
      ensures totalTokens == old(totalTokens) + question.tokens + if reply.Some? then reply.value.tokens else 0
      ensures summary == ctx.summary
    {
      hide PairsOf, Last, Unpaired, PendingPairs, Assistants, AssistantsUpTo, CreatedAt, RowsAfter, Batch;
      PersistUser(question);
      var recent, pending := LoadMemory(settings, shown);
      if pending.Some? && summariser.Some? {
        var batch := pending.value;
        ApplySummary(summariser.value.0, summariser.value.1, batch[|batch| - 1].id);
      }
      ctx := Assemble(settings, shown, summary, summaryTokens, recent);
      if reply.Some? {
        PersistAssistant(reply.value);
      }
    }
  }
}
