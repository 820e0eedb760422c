/** The sliding window over a transcript: which completed pairs go verbatim into the prompt. */
module MemoryWindow {
  import opened Prelude

  datatype Role = User | Assistant | System

  /** A transcript row. `createdAt` orders the rows of a session. */
  datatype Message = Message(id: nat, role: Role, content: string, tokens: nat, createdAt: int)

  datatype Settings = Settings(windowPairs: nat, keepLastPairs: nat, summarizeEvery: nat, tokenBudget: nat)

  type Pair = (Message, Message)

  /** A user message directly followed by an assistant message. */
  predicate PairedAt(ms: seq<Message>, i: int) {
    0 <= i < |ms| - 1 && ms[i].role.User? && ms[i + 1].role.Assistant?
  }

  /** Every such adjacency, oldest first. */
  function PairsOf(ms: seq<Message>): seq<Pair> {
    if |ms| < 2 then []
    else (if PairedAt(ms, 0) then [(ms[0], ms[1])] else []) + PairsOf(ms[1..])
  }

  /** The scan that groups a message list into whole pairs, jumping over each pair it takes. */
  method Pairs(messages: seq<Message>) returns (pairs: seq<Pair>)
    ensures pairs == PairsOf(messages)
  {
    pairs := [];
    var i := 0;
    assert messages[0..] == messages;
    while i < |messages| - 1
      invariant 0 <= i <= |messages|
      invariant pairs + PairsOf(messages[i..]) == PairsOf(messages)
    {
      var a, b := messages[i], messages[i + 1];
      ScanStep(messages, i);
      if a.role.User? && b.role.Assistant? {
        pairs := pairs + [(a, b)];
        i := i + 2;
      } else {
        i := i + 1;
      }
    }
  }

  lemma SkipAssistant(ms: seq<Message>)
    requires |ms| > 0 && ms[0].role.Assistant?
    ensures PairsOf(ms) == PairsOf(ms[1..])
  {
  }

  /** One step of the scan: past a whole pair, or past one message that starts none. */
  lemma ScanStep(ms: seq<Message>, i: nat)
    requires i < |ms| - 1
    ensures PairsOf(ms[i..]) == if PairedAt(ms, i) then [(ms[i], ms[i + 1])] + PairsOf(ms[i + 2..])
            else PairsOf(ms[i + 1..])
  {
    assert ms[i..][1..] == ms[i + 1..];
    if PairedAt(ms, i) {
      SkipAssistant(ms[i + 1..]);
      assert ms[i + 1..][1..] == ms[i + 2..];
    }
  }

  /** A pair is listed after exactly the pairs that begin before it: the scan misses no adjacency,
      invents none and keeps their order. */
  lemma {:induction false} PairListedInOrder(ms: seq<Message>, i: nat)
    requires PairedAt(ms, i)
    ensures var k := |PairsOf(ms[..i + 1])|; k < |PairsOf(ms)| && PairsOf(ms)[k] == (ms[i], ms[i + 1])
  {
    if i > 0 {
      PairListedInOrder(ms[1..], i - 1);
      assert ms[..i + 1][1..] == ms[1..][..i];
    }
  }

  lemma {:induction false} EveryPairIsAdjacent(ms: seq<Message>, k: nat) returns (i: nat)
    requires k < |PairsOf(ms)|
    ensures PairedAt(ms, i) && PairsOf(ms)[k] == (ms[i], ms[i + 1]) && |PairsOf(ms[..i + 1])| == k
  {
    if PairedAt(ms, 0) && k == 0 {
      i := 0;
    } else {
      var k' := if PairedAt(ms, 0) then k - 1 else k;
      var j := EveryPairIsAdjacent(ms[1..], k');
      i := j + 1;
      assert ms[..i + 1][1..] == ms[1..][..j + 1];
    }
  }

  /** Pairing the tail of a transcript gives the tail of its pairs. */
  lemma {:induction false} PairsOfSuffix(ms: seq<Message>, k: nat)
    requires k <= |ms|
    ensures |PairsOf(ms[k..])| <= |PairsOf(ms)|
    ensures PairsOf(ms[k..]) == PairsOf(ms)[|PairsOf(ms)| - |PairsOf(ms[k..])|..]
  {
    if k == 0 {
      assert ms[0..] == ms;
    } else {
      PairsOfSuffix(ms[1..], k - 1);
      assert ms[1..][k - 1..] == ms[k..];
    }
  }

  /** The last `n` elements, or all of them. */
  function Last<T>(s: seq<T>, n: nat): seq<T> {
    if n < |s| then s[|s| - n..] else s
  }

  lemma LastAt<T>(s: seq<T>, n: nat, i: nat)
    requires |s| - |Last(s, n)| <= i < |s|
    ensures Last(s, n)[i - (|s| - |Last(s, n)|)] == s[i]
    ensures |s| - |Last(s, n)| == if n < |s| then |s| - n else 0
  {
  }

  /** The last `n` whole pairs. */
  method LastWholePairs(messages: seq<Message>, n: nat) returns (pairs: seq<Pair>)
    ensures pairs == Last(PairsOf(messages), n)
  {
    var all := Pairs(messages);
    pairs := if n > 0 then Last(all, n) else [];
  }

  /** Reading only a tail of the rows loses nothing from the window exactly when the tail still
      holds as many pairs as the window wants or the transcript has. */
  lemma TailWindowExact(ms: seq<Message>, k: nat, n: nat)
    requires k <= |ms|
    ensures Last(PairsOf(ms[k..]), n) == Last(PairsOf(ms), n) <==>
            |PairsOf(ms[k..])| >= n || |PairsOf(ms[k..])| == |PairsOf(ms)|
  {
    PairsOfSuffix(ms, k);
  }

  /** User and assistant strictly take turns, the user first. */
  ghost predicate Alternates(ms: seq<Message>) {
    forall i :: 0 <= i < |ms| ==> ms[i].role == if i % 2 == 0 then User else Assistant
  }

  lemma AlternatesFrom(ms: seq<Message>, k: nat)
    requires Alternates(ms) && k <= |ms| && k % 2 == 0
    ensures Alternates(ms[k..])
  {
    forall i | 0 <= i < |ms[k..]| ensures ms[k..][i].role == if i % 2 == 0 then User else Assistant {
      assert (k + i) % 2 == i % 2;
    }
  }

  lemma AlternatingHead(ms: seq<Message>)
    requires Alternates(ms) && |ms| >= 2
    ensures PairsOf(ms) == [(ms[0], ms[1])] + PairsOf(ms[2..])
  {
    assert ms[0].role == User && ms[1].role == Assistant;
    SkipAssistant(ms[1..]);
    assert ms[1..][1..] == ms[2..];
  }

  lemma {:induction false} AlternatingPairCount(ms: seq<Message>)
    requires Alternates(ms)
    ensures |PairsOf(ms)| == |ms| / 2
  {
    if |ms| >= 2 {
      AlternatingHead(ms);
      AlternatesFrom(ms, 2);
      AlternatingPairCount(ms[2..]);
    }
  }

  lemma {:induction false} AlternatingPairAt(ms: seq<Message>, i: nat)
    requires Alternates(ms) && i < |ms| / 2
    ensures i < |PairsOf(ms)| && PairsOf(ms)[i] == (ms[2 * i], ms[2 * i + 1])
  {
    AlternatingHead(ms);
    if i > 0 {
      AlternatesFrom(ms, 2);
      AlternatingPairAt(ms[2..], i - 1);
      assert ms[2..][2 * (i - 1)] == ms[2 * i] && ms[2..][2 * (i - 1) + 1] == ms[2 * i + 1];
    }
  }

  /** A tail of an alternating transcript holds every pair that starts inside it. */
  lemma TailPairCount(ms: seq<Message>, k: nat)
    requires Alternates(ms) && k < |ms|
    ensures |PairsOf(ms[k..])| == if k % 2 == 0 then (|ms| - k) / 2 else (|ms| - k - 1) / 2
  {
    if k % 2 == 0 {
      AlternatesFrom(ms, k);
      AlternatingPairCount(ms[k..]);
    } else {
      assert ms[k].role == Assistant;
      SkipAssistant(ms[k..]);
      assert ms[k..][1..] == ms[k + 1..];
      AlternatesFrom(ms, k + 1);
      AlternatingPairCount(ms[k + 1..]);
    }
  }

  /** Under alternation the 2W+1 newest rows give the same last W pairs as the whole transcript. */
  lemma WindowRowsSuffice(ms: seq<Message>, w: nat, n: nat)
    requires Alternates(ms) && n <= w
    ensures Last(PairsOf(Last(ms, 2 * w + 1)), n) == Last(PairsOf(ms), n)
  {
    hide PairsOf, Alternates;
    if 2 * w + 1 < |ms| {
      AlternatingPairCount(ms);
      TailPairCount(ms, |ms| - (2 * w + 1));
      TailWindowExact(ms, |ms| - (2 * w + 1), n);
    }
  }

  predicate OverBudget(settings: Settings, total: nat) {
    total >= settings.tokenBudget
  }

  /** The verbatim window in force at a token total. */
  function WindowPairs(settings: Settings, total: nat): nat {
    if OverBudget(settings, total) then settings.keepLastPairs else settings.windowPairs
  }

  function TokensOf(ms: seq<Message>): nat {
    if ms == [] then 0 else ms[0].tokens + TokensOf(ms[1..])
  }

  function Unpaired(pairs: seq<Pair>): seq<Message> {
    if pairs == [] then [] else [pairs[0].0, pairs[0].1] + Unpaired(pairs[1..])
  }

  datatype MemoryContext = MemoryContext(
    summary: Option<string>, messages: seq<Message>, windowPairs: nat, effectiveTokens: nat, summarized: bool)

  /** The prompt context of a turn over the rows loaded for it. */
  method Assemble(settings: Settings, total: nat, summary: Option<string>, summaryTokens: Option<nat>,
                  recent: seq<Message>)
    returns (ctx: MemoryContext)
    ensures ctx.messages == Unpaired(Last(PairsOf(recent), WindowPairs(settings, total)))
    ensures ctx.summary == summary && ctx.windowPairs == WindowPairs(settings, total)
    ensures ctx.windowPairs == if total >= settings.tokenBudget then settings.keepLastPairs else settings.windowPairs
    ensures ctx.summarized <==> total >= settings.tokenBudget
    ensures ctx.effectiveTokens == (if summaryTokens.Some? then summaryTokens.value else 0) + TokensOf(ctx.messages)
  {
    var pairs := LastWholePairs(recent, WindowPairs(settings, total));
    var kept := Unpaired(pairs);
    var tokens := if summaryTokens.Some? then summaryTokens.value else 0;
    ctx := MemoryContext(summary, kept, WindowPairs(settings, total), tokens + TokensOf(kept),
                         OverBudget(settings, total));
  }
}
