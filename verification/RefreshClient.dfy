/** The browser's silent refresh against the rotating server: concurrent calls share one refresh, and
    a page reload forgets whatever was on the network. Steps are the client's tasks and the server's
    transactions, in any order. */
module RefreshClient {
  import opened Prelude
  import opened TokenRotation

  datatype Call = Trying | Waiting | Retrying | Finished

  /** A refresh response on its way back; a lost one reaches the client as a network failure. */
  datatype Reply = Tokens(pair: Jti) | Lost(pair: Jti) | Refused

  /** The stored tokens, the shared promise, and what is on the network. */
  datatype Client = Client(
    access: Option<Jti>, refresh: Option<Jti>, refreshing: bool,
    requests: seq<Jti>, replies: seq<Reply>, calls: map<nat, Call>)

  /** `orphans` are the refresh requests of earlier page loads, still on their way to the server.
      `strays` is history only: the successors no page will ever receive. */
  datatype World = World(store: Store, history: History, client: Client, orphans: multiset<Jti>, strays: set<Jti>)

  datatype Event =
    | Begin(call: nat)                               // send a request
    | Answer(call: nat, unauthorized: bool)          // its response
    | Serve(minted: Jti, expires: int)               // the server handles a refresh
    | DropRequest
    | DropReply
    | Receive                                        // the refresh promise settles
    | SignIn(user: UserId, minted: Jti, expires: int)
    | SignOut
    | Elsewhere(op: Op)                              // anyone else on the server
    | Reload
    | ServeOrphan(token: Jti, minted: Jti, expires: int)
    | DropOrphan(token: Jti)

  function Advance(w: World, now: int, op: Op): World {
    w.(store := Apply(w.store, now, op).0, history := Record(w.history, w.store, now, op))
  }

  function LoggedOut(c: Client): Client { c.(access := None, refresh := None) }

  function SetTokens(c: Client, pair: Jti): Client { c.(access := Some(pair), refresh := Some(pair)) }

  /** A caller that met a 401: join the refresh under way, or start one if a token is stored. */
  function Refresh(c: Client, call: nat): Client {
    if c.refreshing then c.(calls := c.calls[call := Waiting])
    else if c.refresh.None? then LoggedOut(c.(calls := c.calls[call := Finished]))
    else c.(calls := c.calls[call := Waiting], refreshing := true, requests := c.requests + [c.refresh.value])
  }

  function Settle(c: Client, next: Call): Client {
    c.(refreshing := false, calls := map n | n in c.calls :: if c.calls[n].Waiting? then next else c.calls[n])
  }

  predicate SomeoneWaits(c: Client) { exists n :: n in c.calls && c.calls[n].Waiting? }

  predicate Enabled(w: World, ev: Event) {
    var c := w.client;
    match ev
    case Begin(call) => call !in c.calls
    case Answer(call, _) => call in c.calls && (c.calls[call].Trying? || c.calls[call].Retrying?)
    case Serve(minted, _) => c.requests != [] && minted !in w.history
    case DropRequest => c.requests != []
    case DropReply => c.replies != [] && c.replies[0].Tokens?
    case Receive => c.replies != []
    case SignIn(_, minted, _) => minted !in w.history
    case SignOut => true
    case Elsewhere(op) => Fresh(w.history, op)
    case Reload => true
    case ServeOrphan(token, minted, _) => token in w.orphans && minted !in w.history
    case DropOrphan(token) => token in w.orphans
  }

  function Do(w: World, now: int, ev: Event): World
    requires Enabled(w, ev)
  {
    var c := w.client;
    match ev
    case Begin(call) => w.(client := c.(calls := c.calls[call := Trying]))
    case Answer(call, unauthorized) =>
      if !unauthorized then w.(client := c.(calls := c.calls[call := Finished]))
      else if c.calls[call].Trying? then w.(client := Refresh(c, call))
      else w.(client := LoggedOut(c.(calls := c.calls[call := Finished])))
    case Serve(minted, expires) =>
      var op := Rotate(c.requests[0], minted, expires);
      var reply := if Apply(w.store, now, op).1.Pair? then Tokens(minted) else Refused;
      Advance(w, now, op).(client := c.(requests := c.requests[1..], replies := c.replies + [reply]))
    case DropRequest => w.(client := c.(requests := c.requests[1..], replies := c.replies + [Refused]))
    case DropReply => w.(client := c.(replies := [Lost(c.replies[0].pair)] + c.replies[1..]))
    case Receive =>
      var d := c.(replies := c.replies[1..]);
      if c.replies[0].Tokens? then w.(client := Settle(SetTokens(d, c.replies[0].pair), Retrying))
      else
        w.(client := if SomeoneWaits(d) then Settle(LoggedOut(d), Finished) else Settle(d, Finished),
           strays := w.strays + OnItsWay(c))
    case SignIn(user, minted, expires) =>
      var v := Advance(w, now, Login(user, minted, expires));
      if user in w.store.active then v.(client := SetTokens(c, minted)) else v
    case SignOut => w.(client := LoggedOut(c))
    case Elsewhere(op) => Advance(w, now, op)
    case Reload =>
      w.(client := Client(None, c.refresh, false, [], [], map[]), orphans := w.orphans + multiset(c.requests),
         strays := w.strays + OnItsWay(c))
    case ServeOrphan(token, minted, expires) =>
      var op := Rotate(token, minted, expires);
      Advance(w, now, op).(orphans := w.orphans - multiset{token},
                           strays := w.strays + if Apply(w.store, now, op).1.Pair? then {minted} else {})
    case DropOrphan(token) => w.(orphans := w.orphans - multiset{token})
  }

  /** What the claims rest on: nobody else rotates this client's chains. */
  ghost predicate Allowed(w: World, ev: Event) {
    match ev
    case Elsewhere(Rotate(token, _, _)) => forall j :: j in Held(w) ==> !SameChain(w.history, token, j)
    case _ => true
  }

  /** The stored token and the one presented. */
  function Known(c: Client): set<Jti> {
    (if c.refresh.Some? then {c.refresh.value} else {}) + (if c.requests != [] then {c.requests[0]} else {})
  }

  /** The pair of tokens in the reply under way. */
  function OnItsWay(c: Client): set<Jti> {
    if c.replies != [] && !c.replies[0].Refused? then {c.replies[0].pair} else {}
  }

  function Orphaned(w: World): set<Jti> { set j | j in w.orphans }

  /** Successors the server has issued to this client and the client has not taken in. */
  function Unreceived(w: World): set<Jti> { w.strays + OnItsWay(w.client) }

  /** Every token of this client's, wherever it is. */
  function Held(w: World): set<Jti> { Known(w.client) + Orphaned(w) + Unreceived(w) }

  // ------------------------------------------------------------------ invariant

  /** A successor is out there that the client has not taken in. */
  ghost predicate Overtaken(h: History, t: Jti, unreceived: set<Jti>) {
    exists j :: j in unreceived && SameChain(h, t, j)
  }

  /** Unreceived tokens are last in their chains; a known token is its chain's last or has been
      overtaken by one of them. */
  ghost predicate Tracked(h: History, known: set<Jti>, orphans: set<Jti>, unreceived: set<Jti>) {
    && (forall j :: j in unreceived ==> IsLast(h, j))
    && (forall t :: t in known || t in orphans ==> t in h && t !in unreceived)
    && (forall t :: t in known ==> IsLast(h, t) || Overtaken(h, t, unreceived))
  }

  /** One refresh out at a time exactly while someone waits for it. */
  ghost predicate SingleFlight(c: Client) {
    |c.requests| + |c.replies| == (if c.refreshing then 1 else 0) && (c.refreshing <==> SomeoneWaits(c))
  }

  ghost predicate Inv(w: World) {
    && Chained(w.store, w.history) && SingleFlight(w.client)
    && OnItsWay(w.client) !! w.strays
    && Tracked(w.history, Known(w.client), Orphaned(w), Unreceived(w))
  }

  /** Tokens may be forgotten or orphaned, and the stored one presented. */
  lemma TrackedFewer(h: History, known: set<Jti>, orphans: set<Jti>, unreceived: set<Jti>, known': set<Jti>,
                     orphans': set<Jti>)
    requires Tracked(h, known, orphans, unreceived) && known' <= known && orphans' <= orphans + known
    ensures Tracked(h, known', orphans', unreceived)
  {
  }

  /** A received token is the only one known, and is last. */
  lemma TrackedReceived(h: History, known: set<Jti>, orphans: set<Jti>, unreceived: set<Jti>, pair: Jti)
    requires Tracked(h, known, orphans, unreceived) && pair in unreceived
    ensures Tracked(h, {pair}, orphans, unreceived - {pair})
  {
    assert IsLast(h, pair);
  }

  lemma LastStaysLogin(h: History, user: UserId, minted: Jti, j: Jti)
    requires Generations(h) && minted !in h && IsLast(h, j)
    ensures IsLast(h[minted := Birth(user, minted, 0)], j)
  {
    assert j in h && h[j].login in h;
    hide Generations, IsLast;
    BirthElsewhere(h, minted, Birth(user, minted, 0), j);
  }

  lemma LastStaysRotate(h: History, token: Jti, minted: Jti, j: Jti)
    requires token in h && minted !in h && IsLast(h, j) && !SameChain(h, token, j)
    ensures IsLast(h[minted := Birth(h[token].user, h[token].login, h[token].generation + 1)], j)
  {
    assert j in h && h[j].login != h[token].login;
    hide IsLast;
    BirthElsewhere(h, minted, Birth(h[token].user, h[token].login, h[token].generation + 1), j);
  }

  /** History grows without unseating the last token of a chain it does not touch. */
  lemma LastStays(s: Store, h: History, now: int, op: Op, j: Jti)
    requires Chained(s, h) && Fresh(h, op) && IsLast(h, j)
    requires op.Rotate? && Rotates(s, now, op.token) ==> !SameChain(h, op.token, j)
    ensures IsLast(Record(h, s, now, op), j)
  {
    hide IsLast, Generations, Rotates, RowChained, SameChain;
    match op
    case Login(user, minted, _) => LastStaysLogin(h, user, minted, j);
    case Rotate(token, minted, _) =>
      if Rotates(s, now, token) && token in h {
        LastStaysRotate(h, token, minted, j);
      }
    case _ =>
  }

  lemma ChainStays(s: Store, h: History, now: int, op: Op, a: Jti, b: Jti)
    requires Fresh(h, op) && a in h && b in h
    ensures var h' := Record(h, s, now, op); a in h' && b in h' && (SameChain(h', a, b) <==> SameChain(h, a, b))
  {
  }

  lemma OvertakenStays(s: Store, h: History, now: int, op: Op, t: Jti, unreceived: set<Jti>)
    requires Fresh(h, op) && Overtaken(h, t, unreceived)
    ensures Overtaken(Record(h, s, now, op), t, unreceived)
  {
    var j :| j in unreceived && SameChain(h, t, j);
    ChainStays(s, h, now, op, t, j);
  }

  /** A step elsewhere on the server leaves this client's chains alone. */
  lemma TrackedElsewhere(s: Store, h: History, now: int, op: Op, known: set<Jti>, orphans: set<Jti>,
                         unreceived: set<Jti>)
    requires Chained(s, h) && Fresh(h, op) && Tracked(h, known, orphans, unreceived)
    requires op.Rotate? && Rotates(s, now, op.token) ==>
               forall j :: j in known + orphans + unreceived ==> !SameChain(h, op.token, j)
    ensures Tracked(Record(h, s, now, op), known, orphans, unreceived)
  {
    var h' := Record(h, s, now, op);
    hide Chained, IsLast, Overtaken, Rotates, SameChain, Record, Fresh;
    forall j | j in unreceived ensures IsLast(h', j) {
      LastStays(s, h, now, op, j);
    }
    forall t | t in known || t in orphans ensures t in h' {
      ChainStays(s, h, now, op, t, t);
    }
    forall t | t in known ensures IsLast(h', t) || Overtaken(h', t, unreceived) {
      if IsLast(h, t) { LastStays(s, h, now, op, t); } else { OvertakenStays(s, h, now, op, t, unreceived); }
    }
  }

  /** A live token of this client's is its chain's last: nothing has overtaken it. */
  lemma LiveIsLast(s: Store, h: History, now: int, t: Jti, unreceived: set<Jti>)
    requires Chained(s, h) && Rotates(s, now, t) && t !in unreceived
    requires forall j :: j in unreceived ==> IsLast(h, j)
    ensures t in h && IsLast(h, t) && !Overtaken(h, t, unreceived)
  {
    assert RowChained(s.rows[t], h, t);
    LastNotOvertaken(s, h, t, unreceived);
  }

  lemma LastNotOvertaken(s: Store, h: History, t: Jti, unreceived: set<Jti>)
    requires Chained(s, h) && IsLast(h, t) && t !in unreceived
    requires forall j :: j in unreceived ==> IsLast(h, j)
    ensures !Overtaken(h, t, unreceived)
  {
    if Overtaken(h, t, unreceived) {
      var j :| j in unreceived && SameChain(h, t, j);
      assert SameChain(h, j, t);
    }
  }

  /** The server rotates one of this client's tokens: the successor is unreceived, and it overtakes
      whatever the client knows of that chain. */
  lemma TrackedRotated(s: Store, h: History, now: int, t: Jti, minted: Jti, expires: int,
                       known: set<Jti>, orphans: set<Jti>, unreceived: set<Jti>)
    requires Chained(s, h) && Rotates(s, now, t) && minted !in h
    requires t in known || t in orphans
    requires Tracked(h, known, orphans, unreceived)
    ensures Tracked(Record(h, s, now, Rotate(t, minted, expires)), known, orphans, unreceived + {minted})
  {
    hide Chained, IsLast, Overtaken, Rotates, Record, SameChain;
    var h' := Record(h, s, now, Rotate(t, minted, expires));
    RotatedUnreceived(s, h, now, t, minted, expires, unreceived);
    RecordGrows(s, h, now, Rotate(t, minted, expires));
    forall u | u in known ensures IsLast(h', u) || Overtaken(h', u, unreceived + {minted}) {
      RotatedOvertakes(s, h, now, t, minted, expires, u, unreceived);
    }
  }

  lemma RecordGrows(s: Store, h: History, now: int, op: Op)
    ensures forall t :: t in h ==> t in Record(h, s, now, op)
  {
  }

  lemma RotatedUnreceived(s: Store, h: History, now: int, t: Jti, minted: Jti, expires: int, unreceived: set<Jti>)
    requires Chained(s, h) && Rotates(s, now, t) && minted !in h && t !in unreceived
    requires forall j :: j in unreceived ==> IsLast(h, j)
    ensures forall j :: j in unreceived + {minted} ==> IsLast(Record(h, s, now, Rotate(t, minted, expires)), j)
  {
    hide Chained, IsLast, Overtaken, Rotates, SameChain, Record;
    LiveIsLast(s, h, now, t, unreceived);
    NoneBehind(h, t, unreceived);
    Successor(s, h, now, t, minted, expires);
    forall j | j in unreceived ensures IsLast(Record(h, s, now, Rotate(t, minted, expires)), j) {
      LastStays(s, h, now, Rotate(t, minted, expires), j);
    }
  }

  lemma NoneBehind(h: History, t: Jti, unreceived: set<Jti>)
    requires !Overtaken(h, t, unreceived)
    ensures forall j :: j in unreceived ==> !SameChain(h, t, j)
  {
  }

  lemma RotatedOvertakes(s: Store, h: History, now: int, t: Jti, minted: Jti, expires: int, u: Jti,
                         unreceived: set<Jti>)
    requires Chained(s, h) && Rotates(s, now, t) && t in h && u in h && minted !in h
    requires IsLast(h, u) || Overtaken(h, u, unreceived)
    ensures var h' := Record(h, s, now, Rotate(t, minted, expires));
            IsLast(h', u) || Overtaken(h', u, unreceived + {minted})
  {
    var op := Rotate(t, minted, expires);
    if SameChain(h, t, u) {
      MintedInChain(s, h, now, t, minted, expires, u);
      hide *;
      MintedOvertakes(Record(h, s, now, op), u, minted, unreceived);
    } else if IsLast(h, u) {
      hide IsLast, Chained, Rotates, Record;
      LastStays(s, h, now, op, u);
    } else {
      hide IsLast, Chained, Rotates, Record;
      OvertakenStays(s, h, now, op, u, unreceived);
    }
  }

  lemma MintedInChain(s: Store, h: History, now: int, t: Jti, minted: Jti, expires: int, u: Jti)
    requires Rotates(s, now, t) && SameChain(h, t, u) && minted !in h
    ensures SameChain(Record(h, s, now, Rotate(t, minted, expires)), u, minted)
  {
  }

  lemma MintedOvertakes(h: History, u: Jti, minted: Jti, unreceived: set<Jti>)
    requires SameChain(h, u, minted)
    ensures Overtaken(h, u, unreceived + {minted})
  {
  }

  /** The successor of a live token is its chain's last. */
  lemma Successor(s: Store, h: History, now: int, t: Jti, minted: Jti, expires: int)
    requires Chained(s, h) && Rotates(s, now, t) && minted !in h
    ensures IsLast(Record(h, s, now, Rotate(t, minted, expires)), minted)
  {
    HeirOnTop(s, h, t, minted);
    BirthIsLast(h, minted, Birth(h[t].user, h[t].login, h[t].generation + 1));
  }

  /** A new login's token is last in its own chain, and nothing unreceived belongs to it. */
  lemma TrackedSignIn(s: Store, h: History, now: int, user: UserId, minted: Jti, expires: int,
                      known: set<Jti>, orphans: set<Jti>, unreceived: set<Jti>)
    requires Chained(s, h) && minted !in h && user in s.active && Tracked(h, known, orphans, unreceived)
    ensures Tracked(Record(h, s, now, Login(user, minted, expires)), known + {minted}, orphans, unreceived)
  {
    var op := Login(user, minted, expires);
    TrackedElsewhere(s, h, now, op, known, orphans, unreceived);
    assert minted !in unreceived;
    assert OnTop(h, minted, Birth(user, minted, 0));
    BirthIsLast(h, minted, Birth(user, minted, 0));
    hide Chained, IsLast, Overtaken;
  }

  /** A step on the server moves nothing the client holds. */
  lemma AdvanceHolds(w: World, now: int, op: Op)
    ensures var v := Advance(w, now, op);
            && v.client == w.client && Orphaned(v) == Orphaned(w) && Unreceived(v) == Unreceived(w)
            && v.store == Apply(w.store, now, op).0 && v.history == Record(w.history, w.store, now, op)
  {
  }

  /** Someone else's step on the server. */
  lemma ElsewhereKeeps(w: World, now: int, op: Op)
    requires Inv(w) && Fresh(w.history, op) && Allowed(w, Elsewhere(op))
    ensures Inv(Advance(w, now, op))
  {
    AdvanceHolds(w, now, op);
    hide Chained, SingleFlight, Tracked, Apply, Record, Known, Orphaned, Unreceived, OnItsWay, SameChain, Fresh,
        Rotates;
    StepChains(w.store, w.history, now, op);
    TrackedElsewhere(w.store, w.history, now, op, Known(w.client), Orphaned(w), Unreceived(w));
  }

  /** What the server does with a refresh of this client's, wherever the request comes from. */
  lemma HandledKeeps(w: World, now: int, t: Jti, minted: Jti, expires: int)
    requires Inv(w) && (t in Known(w.client) || t in Orphaned(w)) && minted !in w.history
    ensures var v := Advance(w, now, Rotate(t, minted, expires));
            && Chained(v.store, v.history)
            && Tracked(v.history, Known(w.client), Orphaned(w),
                       Unreceived(w) + if Rotates(w.store, now, t) then {minted} else {})
    ensures Apply(w.store, now, Rotate(t, minted, expires)).1.Pair? <==> Rotates(w.store, now, t)
    ensures minted !in Unreceived(w)
  {
    assert minted !in Unreceived(w);
    assert Apply(w.store, now, Rotate(t, minted, expires)).1.Pair? <==> Rotates(w.store, now, t);
    hide Known, Orphaned, Unreceived, OnItsWay, SingleFlight;
    if Rotates(w.store, now, t) {
      StepChains(w.store, w.history, now, Rotate(t, minted, expires));
      TrackedRotated(w.store, w.history, now, t, minted, expires, Known(w.client), Orphaned(w), Unreceived(w));
    } else {
      assert Advance(w, now, Rotate(t, minted, expires)) == w;
      assert Unreceived(w) + {} == Unreceived(w);
    }
  }

  /** The server handles this page's refresh: the old token's successor is on its way. */
  lemma ServeKeeps(w: World, now: int, minted: Jti, expires: int)
    requires Inv(w) && Enabled(w, Serve(minted, expires))
    ensures Inv(Do(w, now, Serve(minted, expires)))
  {
    var c, v := w.client, Do(w, now, Serve(minted, expires));
    assert c.requests[0] in Known(c) && |c.requests| == 1 && c.replies == [];
    HandledKeeps(w, now, c.requests[0], minted, expires);
    ServedHolds(w, now, minted, expires);
    hide *;
    TrackedFewer(v.history, Known(c), Orphaned(w), Unreceived(v), Known(v.client), Orphaned(v));
    InvIs(v);
  }

  lemma InvIs(w: World)
    requires Chained(w.store, w.history) && SingleFlight(w.client) && OnItsWay(w.client) !! w.strays
    requires Tracked(w.history, Known(w.client), Orphaned(w), Unreceived(w))
    ensures Inv(w)
  {
  }

  lemma ServedHolds(w: World, now: int, minted: Jti, expires: int)
    requires |w.client.requests| == 1 && w.client.replies == [] && SingleFlight(w.client)
    requires Enabled(w, Serve(minted, expires)) && minted !in Unreceived(w)
    ensures var t := w.client.requests[0];
            var v, u := Do(w, now, Serve(minted, expires)), Advance(w, now, Rotate(t, minted, expires));
            && v.store == u.store && v.history == u.history && SingleFlight(v.client) && OnItsWay(v.client) !! v.strays
            && Known(v.client) <= Known(w.client) && Orphaned(v) == Orphaned(w)
            && Unreceived(v) == Unreceived(w) + if Rotates(w.store, now, t) then {minted} else {}
  {
    var t := w.client.requests[0];
    assert Apply(w.store, now, Rotate(t, minted, expires)).1.Pair? <==> Rotates(w.store, now, t);
    hide Apply, Record, Rotates;
    var v := Do(w, now, Serve(minted, expires));
    assert v.client.requests == [] && OnItsWay(v.client) == if Rotates(w.store, now, t) then {minted} else {};
    assert v.strays == w.strays && v.orphans == w.orphans && OnItsWay(w.client) == {};
  }

  /** The server handles a refresh of an earlier page load: if it is accepted, its successor is lost. */
  lemma ServeOrphanKeeps(w: World, now: int, t: Jti, minted: Jti, expires: int)
    requires Inv(w) && Enabled(w, ServeOrphan(t, minted, expires))
    ensures Inv(Do(w, now, ServeOrphan(t, minted, expires)))
  {
    var v := Do(w, now, ServeOrphan(t, minted, expires));
    assert t in Orphaned(w);
    HandledKeeps(w, now, t, minted, expires);
    OrphanHolds(w, now, t, minted, expires);
    hide *;
    TrackedFewer(v.history, Known(w.client), Orphaned(w), Unreceived(v), Known(v.client), Orphaned(v));
    InvIs(v);
  }

  lemma OrphanHolds(w: World, now: int, t: Jti, minted: Jti, expires: int)
    requires Enabled(w, ServeOrphan(t, minted, expires)) && minted !in Unreceived(w) && OnItsWay(w.client) !! w.strays
    ensures var v, u := Do(w, now, ServeOrphan(t, minted, expires)), Advance(w, now, Rotate(t, minted, expires));
            && v.store == u.store && v.history == u.history && v.client == w.client && OnItsWay(v.client) !! v.strays
            && Orphaned(v) <= Orphaned(w)
            && Unreceived(v) == Unreceived(w) + if Rotates(w.store, now, t) then {minted} else {}
  {
    assert Apply(w.store, now, Rotate(t, minted, expires)).1.Pair? <==> Rotates(w.store, now, t);
    hide Apply, Record, Rotates;
    var v := Do(w, now, ServeOrphan(t, minted, expires));
    assert v.strays == w.strays + if Rotates(w.store, now, t) then {minted} else {};
    hide OnItsWay;
  }

  lemma SignInKeeps(w: World, now: int, user: UserId, minted: Jti, expires: int)
    requires Inv(w) && Enabled(w, SignIn(user, minted, expires))
    ensures Inv(Do(w, now, SignIn(user, minted, expires)))
  {
    var op, v := Login(user, minted, expires), Do(w, now, SignIn(user, minted, expires));
    ElsewhereKeeps(w, now, op);
    AdvanceHolds(w, now, op);
    hide Chained, Tracked, Apply, Record;
    if user in w.store.active {
      SignInHolds(w, now, user, minted, expires);
      TrackedSignIn(w.store, w.history, now, user, minted, expires, Known(w.client), Orphaned(w), Unreceived(w));
      hide *;
      TrackedFewer(v.history, Known(w.client) + {minted}, Orphaned(w), Unreceived(w), Known(v.client), Orphaned(v));
      InvIs(v);
    }
  }

  lemma SignInHolds(w: World, now: int, user: UserId, minted: Jti, expires: int)
    requires Enabled(w, SignIn(user, minted, expires)) && user in w.store.active && SingleFlight(w.client)
    ensures SingleFlight(Do(w, now, SignIn(user, minted, expires)).client)
    ensures var v, u := Do(w, now, SignIn(user, minted, expires)), Advance(w, now, Login(user, minted, expires));
            && v.store == u.store && v.history == u.history && OnItsWay(v.client) == OnItsWay(w.client)
            && Known(v.client) <= Known(w.client) + {minted} && v.orphans == w.orphans && v.strays == w.strays
            && Orphaned(v) == Orphaned(w) && Unreceived(v) == Unreceived(w)
  {
    hide Apply, Record;
  }

  /** The refresh promise settles: with tokens, or with nothing and the user signed out. */
  lemma ReceiveKeeps(w: World, now: int)
    requires Inv(w) && Enabled(w, Receive)
    ensures Inv(Do(w, now, Receive))
  {
    var c, v := w.client, Do(w, now, Receive);
    assert |c.replies| == 1 && c.requests == [];
    ReceiveHolds(w, now);
    hide *;
    if c.replies[0].Tokens? {
      TrackedReceived(w.history, Known(c), Orphaned(w), Unreceived(w), c.replies[0].pair);
    } else {
      TrackedFewer(w.history, Known(c), Orphaned(w), Unreceived(w), Known(v.client), Orphaned(v));
    }
    InvIs(v);
  }

  lemma ReceiveHolds(w: World, now: int)
    requires Inv(w) && |w.client.replies| == 1 && w.client.requests == []
    ensures var c, v := w.client, Do(w, now, Receive);
            && v.store == w.store && v.history == w.history && SingleFlight(v.client) && OnItsWay(v.client) !! v.strays
            && Orphaned(v) == Orphaned(w)
            && (if c.replies[0].Tokens? then
                  var pair := c.replies[0].pair;
                  Known(v.client) == {pair} && pair in Unreceived(w) && Unreceived(v) == Unreceived(w) - {pair}
                else Known(v.client) <= Known(c) && Unreceived(v) == Unreceived(w))
  {
    hide Chained, Tracked;
    var c, v := w.client, Do(w, now, Receive);
    assert v.client.replies == [] && OnItsWay(v.client) == {} && v.orphans == w.orphans;
  }

  /** The request or the stored token may go; nothing is issued. */
  lemma PageHolds(w: World, now: int, ev: Event)
    requires SingleFlight(w.client) && Enabled(w, ev)
    requires ev.Begin? || ev.Answer? || ev.DropRequest? || ev.DropReply? || ev.SignOut?
    ensures var v := Do(w, now, ev);
            && v == w.(client := v.client) && Known(v.client) <= Known(w.client)
            && OnItsWay(v.client) == OnItsWay(w.client)
  {
  }

  lemma ReloadHolds(w: World, now: int, ev: Event)
    requires SingleFlight(w.client) && Enabled(w, ev) && (ev.Reload? || ev.DropOrphan?)
    ensures var v := Do(w, now, ev);
            && v.store == w.store && v.history == w.history && Known(v.client) <= Known(w.client)
            && Orphaned(v) <= Orphaned(w) + Known(w.client) && Unreceived(v) == Unreceived(w)
            && (OnItsWay(w.client) !! w.strays ==> OnItsWay(v.client) !! v.strays)
  {
    hide SomeoneWaits;
    var v := Do(w, now, ev);
    assert forall j :: j in w.client.requests ==> j == w.client.requests[0];
    if ev.Reload? {
      assert v.orphans == w.orphans + multiset(w.client.requests);
      assert OnItsWay(v.client) == {} && v.strays == w.strays + OnItsWay(w.client);
    } else {
      assert v.client == w.client && v.strays == w.strays;
    }
    hide Do, OnItsWay, Known;
  }

  lemma ClientFlies(w: World, now: int, ev: Event)
    requires SingleFlight(w.client) && Enabled(w, ev)
    requires ev.Begin? || ev.Answer? || ev.DropRequest? || ev.DropReply? || ev.SignOut? || ev.Reload? || ev.DropOrphan?
    ensures SingleFlight(Do(w, now, ev).client)
  {
    var c, v := w.client, Do(w, now, ev);
    if c.refreshing {
      var n :| n in c.calls && c.calls[n].Waiting?;
      if !ev.Reload? && !ev.DropOrphan? {
        assert v.client.calls[n].Waiting?;
      }
    }
    if ev.Answer? && v.client.refreshing && !c.refreshing {
      assert v.client.calls[ev.call].Waiting?;
    }
  }

  lemma ClientKeeps(w: World, now: int, ev: Event)
    requires Inv(w) && Enabled(w, ev)
    requires ev.Begin? || ev.Answer? || ev.DropRequest? || ev.DropReply? || ev.SignOut? || ev.Reload? || ev.DropOrphan?
    ensures Inv(Do(w, now, ev))
  {
    var v := Do(w, now, ev);
    if ev.Reload? || ev.DropOrphan? { ReloadHolds(w, now, ev); } else { PageHolds(w, now, ev); }
    assert Orphaned(v) <= Orphaned(w) + Known(w.client) && Unreceived(v) == Unreceived(w);
    ClientFlies(w, now, ev);
    hide *;
    TrackedFewer(w.history, Known(w.client), Orphaned(w), Unreceived(w), Known(v.client), Orphaned(v));
    InvIs(v);
  }

  /** Every step keeps the invariant, a reload at any moment included. */
  lemma StepKeeps(w: World, now: int, ev: Event)
    requires Inv(w) && Enabled(w, ev) && Allowed(w, ev)
    ensures Inv(Do(w, now, ev))
  {
    hide Inv;
    match ev
    case Serve(minted, expires) => ServeKeeps(w, now, minted, expires);
    case ServeOrphan(token, minted, expires) => ServeOrphanKeeps(w, now, token, minted, expires);
    case SignIn(user, minted, expires) => SignInKeeps(w, now, user, minted, expires);
    case Elsewhere(op) => ElsewhereKeeps(w, now, op);
    case Receive => ReceiveKeeps(w, now);
    case _ => ClientKeeps(w, now, ev);
  }

  // ------------------------------------------------------------------ runs

  type Timing = (int, Event)

  ghost predicate Possible(w: World, evs: seq<Timing>)
    decreases evs
  {
    evs == [] || (Enabled(w, evs[0].1) && Allowed(w, evs[0].1) && Possible(Do(w, evs[0].0, evs[0].1), evs[1..]))
  }

  ghost function Played(w: World, evs: seq<Timing>): World
    requires Possible(w, evs)
    decreases evs
  {
    if evs == [] then w else Played(Do(w, evs[0].0, evs[0].1), evs[1..])
  }

  lemma {:induction false} RunKeeps(w: World, evs: seq<Timing>)
    requires Inv(w) && Possible(w, evs)
    ensures Inv(Played(w, evs))
    decreases evs
  {
    if evs != [] {
      hide Inv, Enabled, Allowed, Do;
      StepKeeps(w, evs[0].0, evs[0].1);
      RunKeeps(Do(w, evs[0].0, evs[0].1), evs[1..]);
    }
  }

  const NEW_CLIENT := Client(None, None, false, [], [], map[])

  /** A first visit: nothing stored, nothing issued, nothing on the network. */
  function NewWorld(active: set<UserId>): World {
    World(Store(map[], active), map[], NEW_CLIENT, multiset{}, {})
  }

  lemma StartsInv(active: set<UserId>)
    ensures Inv(NewWorld(active))
  {
  }

  /** The token is its chain's last, and the server has not replaced it. */
  ghost predicate Current(w: World, t: Jti) {
    IsLast(w.history, t) && (t in w.store.rows ==> w.store.rows[t].replacedBy == None)
  }

  /** In every reachable world, with any number of calls, lost messages and reloads at any moment, at
      most one refresh of the page is out, and a token it stores or presents is current exactly when
      no successor of it is still unreceived; one that is not current, the server refuses at any time. */
  lemma CurrentExactly(active: set<UserId>, evs: seq<Timing>, t: Jti)
    requires Possible(NewWorld(active), evs)
    requires t in Known(Played(NewWorld(active), evs).client)
    ensures var w := Played(NewWorld(active), evs);
            && |w.client.requests| + |w.client.replies| <= 1
            && (Current(w, t) <==> !Overtaken(w.history, t, Unreceived(w)))
            && (Current(w, t) || forall now :: !Rotates(w.store, now, t))
  {
    StartsInv(active);
    RunKeeps(NewWorld(active), evs);
    hide Possible, Played, NewWorld;
    KnownCurrent(Played(NewWorld(active), evs), t);
  }

  lemma KnownCurrent(w: World, t: Jti)
    requires Inv(w) && t in Known(w.client)
    ensures |w.client.requests| + |w.client.replies| <= 1
    ensures Current(w, t) <==> IsLast(w.history, t)
    ensures Current(w, t) <==> !Overtaken(w.history, t, Unreceived(w))
    ensures Current(w, t) || forall now :: !Rotates(w.store, now, t)
  {
    var h, un := w.history, Unreceived(w);
    assert t !in un && (forall j :: j in un ==> IsLast(h, j)) && (IsLast(h, t) || Overtaken(h, t, un));
    hide Known, Unreceived, Orphaned, Tracked, IsLast, Overtaken, Chained;
    if IsLast(h, t) {
      LastNotOvertaken(w.store, h, t, un);
      LastNotReplaced(w.store, h, t);
    }
    forall now | Rotates(w.store, now, t) ensures IsLast(h, t) {
      LiveIsLast(w.store, h, now, t, un);
    }
  }

  lemma LastNotReplaced(s: Store, h: History, t: Jti)
    requires Chained(s, h) && IsLast(h, t)
    ensures t in s.rows ==> s.rows[t].replacedBy == None
  {
    if t in s.rows { LoginNamesToken(s, h, t); }
  }

  // ------------------------------------------------------------------ runs without a reload under way

  /** The page is reloaded only when no refresh is out. */
  ghost predicate Settled(w: World, evs: seq<Timing>)
    requires Possible(w, evs)
    decreases evs
  {
    evs == [] || ((evs[0].1.Reload? ==> !w.client.refreshing) && Settled(Do(w, evs[0].0, evs[0].1), evs[1..]))
  }

  /** No orphaned request, and no lost successor in a chain the page still uses. */
  ghost predicate Apart(w: World) {
    w.orphans == multiset{} && forall t :: t in Known(w.client) ==> !Overtaken(w.history, t, w.strays)
  }

  lemma StepApart(w: World, now: int, ev: Event)
    requires Inv(w) && Apart(w) && Enabled(w, ev) && Allowed(w, ev) && (ev.Reload? ==> !w.client.refreshing)
    ensures Apart(Do(w, now, ev))
  {
    var v := Do(w, now, ev);
    assert v.orphans == multiset{};
    forall t | t in Known(v.client) ensures !Overtaken(v.history, t, v.strays) {
      ApartStill(w, now, ev, t);
    }
  }

  lemma ApartStill(w: World, now: int, ev: Event, t: Jti)
    requires Inv(w) && Apart(w) && Enabled(w, ev) && Allowed(w, ev) && (ev.Reload? ==> !w.client.refreshing)
    requires t in Known(Do(w, now, ev).client)
    ensures !Overtaken(Do(w, now, ev).history, t, Do(w, now, ev).strays)
  {
    var v := Do(w, now, ev);
    StepKeeps(w, now, ev);
    if t in Known(w.client) {
      StraysStay(w, now, ev);
    } else {
      NewlyKnown(w, now, ev, t);
    }
  }

  /** Only a reload or a lost reply makes a stray, and then the page knows no token or none is out. */
  lemma StraysStay(w: World, now: int, ev: Event)
    requires Inv(w) && Apart(w) && Enabled(w, ev) && Allowed(w, ev) && (ev.Reload? ==> !w.client.refreshing)
    ensures forall t :: t in Known(w.client) && t in Known(Do(w, now, ev).client) ==>
              !Overtaken(Do(w, now, ev).history, t, Do(w, now, ev).strays)
  {
    HeldIssued(w);
    hide Tracked, Chained, SingleFlight, Record, Apply;
    if ev.Serve? || ev.SignIn? || ev.Elsewhere? {
      forall t, j | t in w.history && j in w.strays && SameChain(Do(w, now, ev).history, t, j)
        ensures SameChain(w.history, t, j)
      {
        ChainBefore(w, now, ev, t, j);
      }
    }
  }

  lemma ChainBefore(w: World, now: int, ev: Event, t: Jti, j: Jti)
    requires Enabled(w, ev) && t in w.history && j in w.history && SameChain(Do(w, now, ev).history, t, j)
    ensures SameChain(w.history, t, j)
  {
  }

  lemma NewlyKnown(w: World, now: int, ev: Event, t: Jti)
    requires Inv(w) && Enabled(w, ev) && Inv(Do(w, now, ev))
    requires t in Known(Do(w, now, ev).client) && t !in Known(w.client)
    ensures !Overtaken(Do(w, now, ev).history, t, Do(w, now, ev).strays)
  {
    var v := Do(w, now, ev);
    NewlyKnownLast(w, now, ev, t);
    assert t !in Unreceived(v) && forall j :: j in Unreceived(v) ==> IsLast(v.history, j);
    assert Chained(v.store, v.history) && v.strays <= Unreceived(v);
    hide *;
    LastNotOvertaken(v.store, v.history, t, v.strays);
  }

  /** A page comes to know a token by signing in or by taking in a reply. */
  lemma NewlyKnownLast(w: World, now: int, ev: Event, t: Jti)
    requires Inv(w) && Enabled(w, ev)
    requires t in Known(Do(w, now, ev).client) && t !in Known(w.client)
    ensures IsLast(Do(w, now, ev).history, t)
  {
    if ev.SignIn? {
      assert OnTop(w.history, ev.minted, Birth(ev.user, ev.minted, 0));
      BirthIsLast(w.history, ev.minted, Birth(ev.user, ev.minted, 0));
      hide Chained, Tracked, SingleFlight, IsLast, Apply;
    } else if ev.Receive? {
      hide Chained, IsLast, Apply, Record;
      assert t == w.client.replies[0].pair && t in Unreceived(w);
    } else {
      hide Chained, IsLast, Apply, Record, Tracked;
      PageHoldsAny(w, now, ev);
      assert false;
    }
  }

  lemma PageHoldsAny(w: World, now: int, ev: Event)
    requires SingleFlight(w.client) && Enabled(w, ev) && !ev.SignIn? && !ev.Receive?
    ensures Known(Do(w, now, ev).client) <= Known(w.client)
  {
    hide Apply, Record;
  }

  lemma {:induction false} SettledApart(w: World, evs: seq<Timing>)
    requires Inv(w) && Apart(w) && Possible(w, evs) && Settled(w, evs)
    ensures Inv(Played(w, evs)) && Apart(Played(w, evs))
    decreases evs
  {
    if evs != [] {
      hide Inv, Apart, Enabled, Allowed, Do;
      StepKeeps(w, evs[0].0, evs[0].1);
      StepApart(w, evs[0].0, evs[0].1);
      SettledApart(Do(w, evs[0].0, evs[0].1), evs[1..]);
    }
  }

  /** As long as the page is only reloaded while no refresh is out, whatever token a refresh presents
      is current: the server has never replaced it. */
  lemma RefreshPresentsHead(active: set<UserId>, evs: seq<Timing>)
    requires Possible(NewWorld(active), evs) && Settled(NewWorld(active), evs)
    ensures var w := Played(NewWorld(active), evs);
            |w.client.requests| + |w.client.replies| <= 1 && forall t :: t in w.client.requests ==> Current(w, t)
  {
    StartsInv(active);
    SettledApart(NewWorld(active), evs);
    hide Possible, Settled, Played, NewWorld;
    var w := Played(NewWorld(active), evs);
    ApartRequests(w);
    forall t | t in w.client.requests ensures Current(w, t) {
      hide *;
      KnownCurrent(w, t);
    }
  }

  lemma ApartRequests(w: World)
    requires Inv(w) && Apart(w)
    ensures |w.client.requests| + |w.client.replies| <= 1
    ensures forall t :: t in w.client.requests ==> t in Known(w.client) && !Overtaken(w.history, t, Unreceived(w))
  {
    hide Chained, Tracked, Overtaken;
    if w.client.requests != [] { assert Unreceived(w) == w.strays; }
  }

  // ------------------------------------------------------------------ a reload while a refresh is out

  lemma HeldIssued(w: World)
    requires Inv(w)
    ensures forall j :: j in Known(w.client) || j in Orphaned(w) || j in Unreceived(w) ==> j in w.history
    ensures OnItsWay(w.client) !! w.strays
  {
    hide Known, Orphaned, Unreceived, Chained;
  }

  lemma OrphanOnItsWay(w: World, t: Jti, minted: Jti, expires: int)
    ensures Enabled(w, ServeOrphan(t, minted, expires)) <==> t in Orphaned(w) && minted !in w.history
    ensures t in Orphaned(w) <==> t in w.orphans
  {
  }

  lemma MayReload(w: World)
    requires Inv(w)
    ensures SingleFlight(w.client) && Enabled(w, Reload) && Allowed(w, Reload)
  {
  }

  /** What a page finds when it is loaded again. */
  lemma ReloadFinds(w: World, now: int)
    requires SingleFlight(w.client)
    ensures var v := Do(w, now, Reload);
            && v.store == w.store && v.history == w.history && v.client.refresh == w.client.refresh
            && v.orphans == w.orphans + multiset(w.client.requests) && Unreceived(v) == Unreceived(w)
            && (w.client.refresh.Some? ==> w.client.refresh.value in Known(v.client))
  {
    ReloadHolds(w, now, Reload);
  }

  /** The successor minted for an orphaned request is the one thing that can overtake a token then. */
  lemma OvertakenByOrphan(w: World, now: int, t: Jti, minted: Jti, expires: int, u: Jti)
    requires Inv(w) && Enabled(w, ServeOrphan(t, minted, expires)) && u in Known(w.client)
    ensures var v := Do(w, now, ServeOrphan(t, minted, expires));
            Overtaken(v.history, u, Unreceived(v)) <==>
            Overtaken(w.history, u, Unreceived(w)) || (Rotates(w.store, now, t) && SameChain(w.history, t, u))
  {
    hide *;
    HeldIssued(w);
    OrphanOnItsWay(w, t, minted, expires);
    OrphanHolds(w, now, t, minted, expires);
    AdvanceHolds(w, now, Rotate(t, minted, expires));
    OvertakenThen(w.store, w.history, now, t, minted, expires, u, Unreceived(w));
  }

  lemma OvertakenThen(s: Store, h: History, now: int, t: Jti, minted: Jti, expires: int, u: Jti, unreceived: set<Jti>)
    requires u in h && t in h && minted !in h && forall j :: j in unreceived ==> j in h
    ensures Overtaken(Record(h, s, now, Rotate(t, minted, expires)), u,
                      unreceived + if Rotates(s, now, t) then {minted} else {})
            <==> Overtaken(h, u, unreceived) || (Rotates(s, now, t) && SameChain(h, t, u))
  {
    var op := Rotate(t, minted, expires);
    var h', un' := Record(h, s, now, op), unreceived + if Rotates(s, now, t) then {minted} else {};
    if Rotates(s, now, t) { assert SameChain(h', u, minted) <==> SameChain(h, t, u); }
    hide Rotates, Record;
    forall j | j in unreceived ensures SameChain(h', u, j) <==> SameChain(h, u, j) {
      ChainStays(s, h, now, op, u, j);
    }
    hide SameChain;
    if Overtaken(h, u, unreceived) {
      var j :| j in unreceived && SameChain(h, u, j);
      assert j in un' && SameChain(h', u, j);
    }
  }

  /** The server accepts a refresh, of this page or of an earlier one, of the token's chain. */
  ghost predicate Accepts(w: World, now: int, ev: Event, u: Jti)
    requires Enabled(w, ev)
  {
    match ev
    case Serve(_, _) => Rotates(w.store, now, w.client.requests[0]) && SameChain(w.history, w.client.requests[0], u)
    case ServeOrphan(t, _, _) => Rotates(w.store, now, t) && SameChain(w.history, t, u)
    case _ => false
  }

  lemma OvertakenSame(s: Store, h: History, now: int, op: Op, u: Jti, unreceived: set<Jti>)
    requires Fresh(h, op) && u in h && forall j :: j in unreceived ==> j in h
    ensures Overtaken(Record(h, s, now, op), u, unreceived) <==> Overtaken(h, u, unreceived)
  {
    hide Fresh, Record, SameChain;
    forall j | j in unreceived ensures SameChain(Record(h, s, now, op), u, j) <==> SameChain(h, u, j) {
      ChainStays(s, h, now, op, u, j);
    }
    if Overtaken(h, u, unreceived) {
      var j :| j in unreceived && SameChain(h, u, j);
      assert SameChain(Record(h, s, now, op), u, j);
    }
  }

  lemma OvertakenByServe(w: World, now: int, minted: Jti, expires: int, u: Jti)
    requires Inv(w) && Enabled(w, Serve(minted, expires)) && u in Known(w.client)
    ensures var v, t := Do(w, now, Serve(minted, expires)), w.client.requests[0];
            Overtaken(v.history, u, Unreceived(v)) <==>
            Overtaken(w.history, u, Unreceived(w)) || (Rotates(w.store, now, t) && SameChain(w.history, t, u))
  {
    var t := w.client.requests[0];
    ServeIsOut(w, minted, expires);
    hide *;
    HeldIssued(w);
    ServedHolds(w, now, minted, expires);
    AdvanceHolds(w, now, Rotate(t, minted, expires));
    OvertakenThen(w.store, w.history, now, t, minted, expires, u, Unreceived(w));
  }

  lemma ServeIsOut(w: World, minted: Jti, expires: int)
    requires Inv(w) && Enabled(w, Serve(minted, expires))
    ensures |w.client.requests| == 1 && w.client.replies == [] && SingleFlight(w.client)
    ensures w.client.requests[0] in Known(w.client) && minted !in w.history && minted !in Unreceived(w)
  {
    HeldIssued(w);
  }

  lemma OvertakenElsewhere(w: World, now: int, op: Op, u: Jti)
    requires Inv(w) && Fresh(w.history, op) && u in Known(w.client)
    ensures var v := Advance(w, now, op);
            Overtaken(v.history, u, Unreceived(v)) <==> Overtaken(w.history, u, Unreceived(w))
  {
    HeldIssued(w);
    AdvanceHolds(w, now, op);
    hide *;
    OvertakenSame(w.store, w.history, now, op, u, Unreceived(w));
  }

  /** Taking in a reply or a new login changes the stored token. */
  lemma StoredChanges(w: World, now: int, ev: Event, u: Jti)
    requires Inv(w) && Enabled(w, ev) && w.client.refresh == Some(u) == Do(w, now, ev).client.refresh
    ensures !ev.Receive? && !ev.SignOut?
    ensures ev.SignIn? ==> ev.user !in w.store.active && Do(w, now, ev) == w
  {
    hide *;
    StoredIsKnown(w, u);
    HeldIssued(w);
    HeldApart(w, u);
    FlightWaits(w);
    StoreAfter(w, now, ev);
  }

  /** What the store holds after the steps that write it. */
  lemma StoreAfter(w: World, now: int, ev: Event)
    requires Enabled(w, ev)
    ensures var c, d := w.client, Do(w, now, ev).client;
            && (ev.SignOut? ==> d.refresh == None)
            && (ev.SignIn? ==> ev.minted !in w.history)
            && (ev.SignIn? && ev.user in w.store.active ==> d.refresh == Some(ev.minted))
            && (ev.SignIn? && ev.user !in w.store.active ==> Do(w, now, ev) == w)
            && (ev.Receive? ==> c.replies != [])
            && (ev.Receive? && SomeoneWaits(c) && !c.replies[0].Tokens? ==> d.refresh == None)
            && (ev.Receive? && c.replies[0].Tokens? ==>
                  d.refresh == Some(c.replies[0].pair) && c.replies[0].pair in Unreceived(w))
  {
    if ev.Receive? { assert SomeoneWaits(w.client) ==> SomeoneWaits(w.client.(replies := w.client.replies[1..])); }
  }

  lemma HeldApart(w: World, u: Jti)
    requires Inv(w) && u in Known(w.client)
    ensures u !in Unreceived(w)
  {
    hide Known, Unreceived, Chained, SingleFlight;
  }

  lemma FlightWaits(w: World)
    requires Inv(w)
    ensures w.client.replies != [] ==> SomeoneWaits(w.client)
  {
    hide Chained, Tracked;
  }

  /** One step of a page that keeps its token. */
  lemma StepOvertakes(w: World, now: int, ev: Event, u: Jti)
    requires Inv(w) && Enabled(w, ev) && w.client.refresh == Some(u) == Do(w, now, ev).client.refresh
    ensures var v := Do(w, now, ev);
            Overtaken(v.history, u, Unreceived(v)) <==>
            Overtaken(w.history, u, Unreceived(w)) || Accepts(w, now, ev, u)
  {
    StoredChanges(w, now, ev, u);
    assert u in Known(w.client) && SingleFlight(w.client);
    hide Inv, Overtaken, Unreceived, Known, Record, Apply, Rotates, SameChain, SingleFlight;
    match ev
    case Serve(minted, expires) => OvertakenByServe(w, now, minted, expires, u);
    case ServeOrphan(t, minted, expires) => OvertakenByOrphan(w, now, t, minted, expires, u);
    case Elsewhere(op) => OvertakenElsewhere(w, now, op, u);
    case SignIn(_, _, _) =>
    case Reload => ReloadHolds(w, now, ev);
    case DropOrphan(_) => ReloadHolds(w, now, ev);
    case _ => QuietStep(w, now, ev);
  }

  lemma QuietStep(w: World, now: int, ev: Event)
    requires SingleFlight(w.client) && Enabled(w, ev) && (ev.Begin? || ev.Answer? || ev.DropRequest? || ev.DropReply?)
    ensures Do(w, now, ev).history == w.history && Unreceived(Do(w, now, ev)) == Unreceived(w)
  {
    PageHolds(w, now, ev);
  }

  lemma StepCurrent(w: World, now: int, ev: Event, u: Jti)
    requires Inv(w) && Enabled(w, ev) && Allowed(w, ev)
    requires w.client.refresh == Some(u) == Do(w, now, ev).client.refresh
    ensures Current(Do(w, now, ev), u) <==> Current(w, u) && !Accepts(w, now, ev, u)
  {
    StepKeeps(w, now, ev);
    StoredIsKnown(w, u);
    StoredIsKnown(Do(w, now, ev), u);
    hide *;
    KnownCurrent(w, u);
    KnownCurrent(Do(w, now, ev), u);
    StepOvertakes(w, now, ev, u);
  }

  lemma StoredIsKnown(w: World, u: Jti)
    requires w.client.refresh == Some(u)
    ensures u in Known(w.client)
  {
  }

  /** The page keeps this token through the whole run, and presents no other. */
  ghost predicate Keeping(w: World, evs: seq<Timing>, u: Jti)
    requires Possible(w, evs)
    decreases evs
  {
    w.client.refresh == Some(u) && (evs == [] || Keeping(Do(w, evs[0].0, evs[0].1), evs[1..], u))
  }

  /** Some refresh of the token's chain is accepted on the way. */
  ghost predicate Accepted(w: World, evs: seq<Timing>, u: Jti)
    requires Possible(w, evs)
    decreases evs
  {
    evs != [] && (Accepts(w, evs[0].0, evs[0].1, u) || Accepted(Do(w, evs[0].0, evs[0].1), evs[1..], u))
  }

  lemma {:induction false} KeepingCurrent(w: World, evs: seq<Timing>, u: Jti)
    requires Inv(w) && Possible(w, evs) && Keeping(w, evs, u)
    ensures Inv(Played(w, evs)) && Played(w, evs).client.refresh == Some(u)
    ensures Current(Played(w, evs), u) <==> Current(w, u) && !Accepted(w, evs, u)
    decreases evs
  {
    if evs != [] {
      var v := Do(w, evs[0].0, evs[0].1);
      assert v.client.refresh == Some(u);
      hide Inv, Enabled, Allowed, Do, Current, Accepts;
      StepKeeps(w, evs[0].0, evs[0].1);
      StepCurrent(w, evs[0].0, evs[0].1, u);
      KeepingCurrent(v, evs[1..], u);
    }
  }

  lemma {:induction false} KeepingPresents(w: World, evs: seq<Timing>, u: Jti)
    requires Possible(w, evs) && Keeping(w, evs, u) && forall t :: t in w.client.requests ==> t == u
    ensures forall t :: t in Played(w, evs).client.requests ==> t == u
    decreases evs
  {
    if evs != [] {
      StepPresents(w, evs[0].0, evs[0].1, u);
      hide Enabled, Allowed, Do;
      KeepingPresents(Do(w, evs[0].0, evs[0].1), evs[1..], u);
    }
  }

  lemma StepPresents(w: World, now: int, ev: Event, u: Jti)
    requires Enabled(w, ev) && w.client.refresh == Some(u) && forall t :: t in w.client.requests ==> t == u
    ensures forall t :: t in Do(w, now, ev).client.requests ==> t == u
  {
    hide Apply, Record;
    var c, v := w.client, Do(w, now, ev);
    forall t | t in v.client.requests ensures t == u {
      if ev.Serve? || ev.DropRequest? { assert t in c.requests by { InTail(c.requests, t); } }
    }
  }

  lemma InTail(s: seq<Jti>, t: Jti)
    requires s != [] && t in s[1..]
    ensures t in s
  {
    var i :| 0 <= i < |s[1..]| && s[1..][i] == t;
    assert s[i + 1] == t;
  }

  /** A page reloaded at any moment leaves its unhandled refresh to the server. However the run goes on
      while the page keeps its token, the next refresh it sends presents that token, and the token is
      current exactly when it was at the reload and no refresh of its chain, the orphaned one above
      all, has been accepted since. */
  lemma ReloadKeepsCurrentExactly(w: World, now: int, evs: seq<Timing>)
    requires Inv(w) && w.client.refresh.Some?
    requires Possible(Do(w, now, Reload), evs) && Keeping(Do(w, now, Reload), evs, w.client.refresh.value)
    ensures var u, v := w.client.refresh.value, Do(w, now, Reload);
            && v.orphans == w.orphans + multiset(w.client.requests)
            && (forall t :: t in Played(v, evs).client.requests ==> t == u)
            && (Current(Played(v, evs), u) <==>
                  !Overtaken(w.history, u, Unreceived(w)) && !Accepted(v, evs, u))
  {
    var u, v := w.client.refresh.value, Do(w, now, Reload);
    assert v.client.requests == [] && v.client.refresh == Some(u);
    MayReload(w);
    hide *;
    StepKeeps(w, now, Reload);
    ReloadFinds(w, now);
    KnownCurrent(v, u);
    KeepingCurrent(v, evs, u);
    KeepingPresents(v, evs, u);
  }

  /** Whenever the server then handles a refresh an earlier page had sent, a token the page stores or
      presents stays current exactly when that refresh is refused or is of another chain. */
  lemma OrphanKeepsCurrentExactly(w: World, now: int, t: Jti, minted: Jti, expires: int, u: Jti)
    requires Inv(w) && Enabled(w, ServeOrphan(t, minted, expires)) && u in Known(w.client)
    ensures var v := Do(w, now, ServeOrphan(t, minted, expires));
            && Inv(v) && v.client == w.client
            && (Current(v, u) <==> Current(w, u) && !(Rotates(w.store, now, t) && SameChain(w.history, t, u)))
  {
    hide *;
    HeldIssued(w);
    OrphanOnItsWay(w, t, minted, expires);
    ServeOrphanKeeps(w, now, t, minted, expires);
    OrphanHolds(w, now, t, minted, expires);
    KnownCurrent(w, u);
    KnownCurrent(Do(w, now, ServeOrphan(t, minted, expires)), u);
    OvertakenByOrphan(w, now, t, minted, expires, u);
  }

  lemma PossibleStep(w: World, e: Timing, rest: seq<Timing>)
    requires Enabled(w, e.1) && Allowed(w, e.1) && Possible(Do(w, e.0, e.1), rest)
    ensures Possible(w, [e] + rest) && Played(w, [e] + rest) == Played(Do(w, e.0, e.1), rest)
  {
    assert ([e] + rest)[1..] == rest;
  }

  const ISSUED := Store(map[1 := Row(0, 100, false, None)], {0})

  const REPLACED := Store(map[1 := Row(0, 100, true, Some(2)), 2 := Row(0, 200, false, None)], {0})

  /** The page over a server that has issued token 1, or has replaced it by token 2. */
  function Page(replaced: bool, c: Client, orphans: multiset<Jti>): World {
    if replaced then World(REPLACED, map[1 := Birth(0, 1, 0), 2 := Birth(0, 1, 1)], c, orphans, {2})
    else World(ISSUED, map[1 := Birth(0, 1, 0)], c, orphans, {})
  }

  function Holding(access: Option<Jti>, calls: map<nat, Call>): Client {
    Client(access, Some(1), false, [], [], calls)
  }

  function Asking(access: Option<Jti>): Client {
    Client(access, Some(1), true, [1], [], map[0 := Waiting])
  }

  /** A request meets a 401 and its refresh is sent. */
  lemma AsksFor(replaced: bool, access: Option<Jti>, now: int)
    ensures var w := Page(replaced, Holding(access, map[]), multiset{});
            var evs := [(now, Begin(0)), (now + 1, Answer(0, true))];
            Possible(w, evs) && Played(w, evs) == Page(replaced, Asking(access), multiset{})
  {
    var w, x := Page(replaced, Holding(access, map[]), multiset{}),
      Page(replaced, Holding(access, map[0 := Trying]), multiset{});
    assert Do(w, now, Begin(0)) == x;
    assert Do(x, now + 1, Answer(0, true)) == Page(replaced, Asking(access), multiset{}) by {
      assert map[0 := Trying][0 := Waiting] == map[0 := Waiting];
    }
    PossibleStep(x, (now + 1, Answer(0, true)), []);
    PossibleStep(w, (now, Begin(0)), [(now + 1, Answer(0, true))]);
    assert [(now, Begin(0))] + [(now + 1, Answer(0, true))] == [(now, Begin(0)), (now + 1, Answer(0, true))];
  }

  lemma SignsIn()
    ensures Enabled(NewWorld({0}), SignIn(0, 1, 100)) && Allowed(NewWorld({0}), SignIn(0, 1, 100))
    ensures Do(NewWorld({0}), 0, SignIn(0, 1, 100)) == Page(false, Holding(Some(1), map[]), multiset{})
  {
  }

  /** The reload orphans the refresh, and the server then replaces the token for nobody. */
  lemma ReloadsThenServed()
    ensures var w, evs := Page(false, Asking(Some(1)), multiset{}), [(3, Reload), (4, ServeOrphan(1, 2, 200))];
            Possible(w, evs) && Played(w, evs) == Page(true, Holding(None, map[]), multiset{})
  {
    var w, x := Page(false, Asking(Some(1)), multiset{}), Page(false, Holding(None, map[]), multiset{1});
    var y := Page(true, Holding(None, map[]), multiset{});
    assert Do(w, 3, Reload) == x by { assert multiset{} + multiset([1]) == multiset{1}; }
    var op := Rotate(1, 2, 200);
    assert Record(x.history, x.store, 4, op) == map[1 := Birth(0, 1, 0), 2 := Birth(0, 1, 1)];
    assert Rotates(x.store, 4, 1) && x.store.rows == map[1 := Row(0, 100, false, None)];
    assert REPLACED.rows == x.store.rows[1 := Row(0, 100, true, Some(2))][2 := Row(0, 200, false, None)];
    assert Apply(x.store, 4, op) == (REPLACED, Pair(2));
    assert Do(x, 4, ServeOrphan(1, 2, 200)) == y;
    hide Do, Record, Apply;
    PossibleStep(x, (4, ServeOrphan(1, 2, 200)), []);
    PossibleStep(w, (3, Reload), [(4, ServeOrphan(1, 2, 200))]);
    assert [(3, Reload)] + [(4, ServeOrphan(1, 2, 200))] == [(3, Reload), (4, ServeOrphan(1, 2, 200))];
  }

  lemma {:induction false} PlayedThen(w: World, a: seq<Timing>, b: seq<Timing>)
    requires Possible(w, a) && Possible(Played(w, a), b)
    ensures Possible(w, a + b) && Played(w, a + b) == Played(Played(w, a), b)
    decreases a
  {
    if a == [] {
      assert a + b == b;
    } else {
      assert (a + b)[1..] == a[1..] + b;
      hide Do, Enabled, Allowed;
      PlayedThen(Do(w, a[0].0, a[0].1), a[1..], b);
    }
  }

  /** Sign in, send a request, meet a 401, reload while the refresh is on its way, let the server
      handle it, and send a request again. */
  function Unlucky(): seq<Timing> {
    [(0, SignIn(0, 1, 100))] + [(1, Begin(0)), (2, Answer(0, true))]
    + [(3, Reload), (4, ServeOrphan(1, 2, 200))] + [(5, Begin(0)), (6, Answer(0, true))]
  }

  /** A user reloads while the silent refresh is out. The page comes back with a token the server has
      replaced, its next refresh presents it, and the server will refuse it at any time. */
  lemma ReloadLosesToken()
    ensures Possible(NewWorld({0}), Unlucky())
    ensures var w := Played(NewWorld({0}), Unlucky());
            && w.client.refresh == Some(1) && w.client.requests == [1]
            && 1 in w.store.rows && w.store.rows[1].replacedBy == Some(2)
            && (forall now :: !Rotates(w.store, now, 1))
  {
    var w := NewWorld({0});
    SignsIn();
    AsksFor(false, Some(1), 1);
    ReloadsThenServed();
    AsksFor(true, None, 5);
    hide Do, Enabled, Allowed, NewWorld, Page;
    var e1, e2, e3 := [(0, SignIn(0, 1, 100))], [(1, Begin(0)), (2, Answer(0, true))],
      [(3, Reload), (4, ServeOrphan(1, 2, 200))];
    PossibleStep(w, (0, SignIn(0, 1, 100)), []);
    assert e1 + [] == e1;
    hide Possible, Played;
    PlayedThen(w, e1, e2);
    PlayedThen(w, e1 + e2, e3);
    PlayedThen(w, e1 + e2 + e3, [(5, Begin(0)), (6, Answer(0, true))]);
    PageLost();
  }

  lemma PageLost()
    ensures var w := Page(true, Asking(None), multiset{});
            && w.client.refresh == Some(1) && w.client.requests == [1]
            && 1 in w.store.rows && w.store.rows[1].replacedBy == Some(2)
            && (forall now :: !Rotates(w.store, now, 1))
  {
  }
}
