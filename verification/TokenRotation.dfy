/** The refresh-token table: logins start chains, rotation extends them, logout, password reset and
    pruning end them. Transactions are atomic. */
module TokenRotation {
  import opened Prelude

  type Jti = nat
  type UserId = nat

  datatype Row = Row(user: UserId, expires: int, revoked: bool, replacedBy: Option<Jti>)

  datatype Store = Store(rows: map<Jti, Row>, active: set<UserId>)

  datatype Op =
    | Login(user: UserId, minted: Jti, expires: int)
    | Rotate(token: Jti, minted: Jti, expires: int)
    | Resolve(user: UserId, sid: Jti)
    | Logout(sid: Jti)
    | Reset(user: UserId)
    | Prune
    | SetActive(user: UserId, on: bool)

  datatype Outcome = Pair(refresh: Jti) | Principal(user: UserId) | Denied | Quiet

  /** Neither revoked nor expired. */
  predicate Live(s: Store, now: int, j: Jti) {
    j in s.rows && !s.rows[j].revoked && s.rows[j].expires > now
  }

  function Issue(s: Store, user: UserId, minted: Jti, expires: int): Store {
    s.(rows := s.rows[minted := Row(user, expires, false, None)])
  }

  predicate Rotates(s: Store, now: int, token: Jti) {
    Live(s, now, token) && s.rows[token].user in s.active
  }

  predicate Resolves(s: Store, now: int, user: UserId, sid: Jti) {
    Live(s, now, sid) && s.rows[sid].user == user && user in s.active
  }

  function Revoke(s: Store, j: Jti): Store {
    if j in s.rows then s.(rows := s.rows[j := s.rows[j].(revoked := true)]) else s
  }

  function RevokeAll(s: Store, user: UserId): Store {
    s.(rows := map j | j in s.rows :: if s.rows[j].user == user then s.rows[j].(revoked := true) else s.rows[j])
  }

  function Pruned(s: Store, now: int): Store {
    s.(rows := map j | j in s.rows && s.rows[j].expires >= now :: s.rows[j])
  }

  function Apply(s: Store, now: int, op: Op): (Store, Outcome) {
    match op
    case Login(user, minted, expires) =>
      if user in s.active then (Issue(s, user, minted, expires), Pair(minted)) else (s, Denied)
    case Rotate(token, minted, expires) =>
      if !Rotates(s, now, token) then (s, Denied)
      else
        var row := s.rows[token];
        var replaced := s.(rows := s.rows[token := row.(revoked := true, replacedBy := Some(minted))]);
        (Issue(replaced, row.user, minted, expires), Pair(minted))
    case Resolve(user, sid) => (s, if Resolves(s, now, user, sid) then Principal(user) else Denied)
    case Logout(sid) => (Revoke(s, sid), Quiet)
    case Reset(user) => (if user in s.active then RevokeAll(s, user) else s, if user in s.active then Quiet else Denied)
    case Prune => (Pruned(s, now), Quiet)
    case SetActive(user, on) => (s.(active := if on then s.active + {user} else s.active - {user}), Quiet)
  }

  // ------------------------------------------------------------------ the service

  class AuthService {
    var rows: map<Jti, Row>
    var active: set<UserId>

    ghost function View(): Store reads this { Store(rows, active) }

    constructor ()
      ensures View() == Store(map[], {})
    {
      rows, active := map[], {};
    }

    method Authenticate(now: int, user: UserId, minted: Jti, expires: int) returns (r: Outcome)
      modifies this`rows
      ensures (View(), r) == Apply(old(View()), now, Login(user, minted, expires))
      ensures user in active ==> r == Pair(minted) && rows == old(rows)[minted := Row(user, expires, false, None)]
      ensures user !in active ==> r == Denied && rows == old(rows)
    {
      if user !in active { return Denied; }
      rows := rows[minted := Row(user, expires, false, None)];
      r := Pair(minted);
    }

    method RotateRefresh(now: int, token: Jti, minted: Jti, expires: int) returns (r: Outcome)
      modifies this`rows
      ensures (View(), r) == Apply(old(View()), now, Rotate(token, minted, expires))
      ensures r.Pair? <==> token in old(rows) && !old(rows)[token].revoked && now < old(rows)[token].expires
                           && old(rows)[token].user in active
      ensures r.Pair? ==>
                && r.refresh == minted
                && rows == old(rows)[token := old(rows)[token].(revoked := true, replacedBy := Some(minted))]
                                    [minted := Row(old(rows)[token].user, expires, false, None)]
      ensures !r.Pair? ==> r == Denied && rows == old(rows)
    {
      if token !in rows || rows[token].revoked || rows[token].expires <= now { return Denied; }
      var row := rows[token];
      if row.user !in active { return Denied; }
      rows := rows[token := row.(revoked := true, replacedBy := Some(minted))];
      rows := rows[minted := Row(row.user, expires, false, None)];
      r := Pair(minted);
    }

    method ResolveJwt(now: int, user: UserId, sid: Jti) returns (r: Outcome)
      ensures (View(), r) == Apply(View(), now, Resolve(user, sid))
      ensures r == Principal(user) || r == Denied
      ensures r == Principal(user) <==>
              sid in rows && !rows[sid].revoked && now < rows[sid].expires && rows[sid].user == user && user in active
    {
      r := if sid in rows && !rows[sid].revoked && rows[sid].expires > now && rows[sid].user == user && user in active
           then Principal(user) else Denied;
    }

    method RevokeFamily(now: int, sid: Jti)
      modifies this`rows
      ensures View() == Apply(old(View()), now, Logout(sid)).0
      ensures rows == if sid in old(rows) then old(rows)[sid := old(rows)[sid].(revoked := true)] else old(rows)
    {
      if sid in rows && !rows[sid].revoked {
        rows := rows[sid := rows[sid].(revoked := true)];
      } else if sid in rows {
        assert rows[sid := rows[sid].(revoked := true)] == rows;
      }
    }

    method ResetPassword(now: int, user: UserId) returns (r: Outcome)
      modifies this`rows
      ensures (View(), r) == Apply(old(View()), now, Reset(user))
      ensures user !in active ==> r == Denied && rows == old(rows)
      ensures user in active ==> r == Quiet && rows.Keys == old(rows).Keys
      ensures user in active ==> forall j :: j in rows ==>
                if rows[j].user == user then rows[j].revoked && rows[j] == old(rows)[j].(revoked := true)
                else rows[j] == old(rows)[j]
    {
      if user !in active { return Denied; }
      rows := map j | j in rows ::
        if rows[j].user == user && !rows[j].revoked then rows[j].(revoked := true) else rows[j];
      assert rows == RevokeAll(old(View()), user).rows;
      r := Quiet;
    }

    method PruneExpired(now: int)
      modifies this`rows
      ensures View() == Apply(old(View()), now, Prune).0
      ensures forall j :: j in rows <==> j in old(rows) && now <= old(rows)[j].expires
      ensures forall j :: j in rows ==> rows[j] == old(rows)[j]
    {
      rows := map j | j in rows && rows[j].expires >= now :: rows[j];
    }
  }

  // ------------------------------------------------------------------ chains

  /** Where a token stands: the login that started its chain, and its generation. History only. */
  datatype Birth = Birth(user: UserId, login: Jti, generation: nat)

  type History = map<Jti, Birth>

  function Record(h: History, s: Store, now: int, op: Op): History {
    match op
    case Login(user, minted, _) => if user in s.active then h[minted := Birth(user, minted, 0)] else h
    case Rotate(token, minted, _) =>
      if Rotates(s, now, token) && token in h
      then h[minted := Birth(h[token].user, h[token].login, h[token].generation + 1)] else h
    case _ => h
  }

  /** A minted id has never been issued before. */
  predicate Fresh(h: History, op: Op) {
    match op
    case Login(_, minted, _) => minted !in h
    case Rotate(_, minted, _) => minted !in h
    case _ => true
  }

  predicate SameChain(h: History, a: Jti, b: Jti) {
    a in h && b in h && h[a].login == h[b].login
  }

  ghost predicate IsLast(h: History, j: Jti) {
    j in h && forall k :: SameChain(h, j, k) ==> h[k].generation <= h[j].generation
  }

  /** Within a chain generations are distinct and the user is one. */
  ghost predicate Generations(h: History) {
    && (forall a, b :: SameChain(h, a, b) ==> h[a].user == h[b].user && (h[a].generation == h[b].generation ==> a == b))
    && (forall j :: j in h ==> h[j].login in h)
  }

  /** An unrevoked row is its chain's last token; a replaced one is revoked and points one generation up. */
  ghost predicate RowChained(row: Row, h: History, j: Jti) {
    && j in h && row.user == h[j].user
    && (!row.revoked ==> IsLast(h, j))
    && (row.replacedBy.Some? ==>
          row.revoked && SameChain(h, j, row.replacedBy.value)
          && h[row.replacedBy.value].generation == h[j].generation + 1)
  }

  ghost predicate Chained(s: Store, h: History) {
    Generations(h) && forall j :: j in s.rows ==> RowChained(s.rows[j], h, j)
  }

  /** The id is new, and the birth goes above everything in its chain. */
  ghost predicate OnTop(h: History, minted: Jti, birth: Birth) {
    && minted !in h && (birth.login in h || birth.login == minted)
    && forall k :: k in h && h[k].login == birth.login ==> h[k].generation < birth.generation && h[k].user == birth.user
  }

  lemma BirthGenerations(h: History, minted: Jti, birth: Birth)
    requires Generations(h) && OnTop(h, minted, birth)
    ensures Generations(h[minted := birth])
  {
    var h2 := h[minted := birth];
    forall a, b | SameChain(h2, a, b)
      ensures h2[a].user == h2[b].user && (h2[a].generation == h2[b].generation ==> a == b)
    {
      if a != minted && b != minted { assert SameChain(h, a, b); }
    }
  }

  lemma BirthIsLast(h: History, minted: Jti, birth: Birth)
    requires OnTop(h, minted, birth)
    ensures IsLast(h[minted := birth], minted)
  {
  }

  lemma BirthElsewhere(h: History, minted: Jti, birth: Birth, j: Jti)
    requires minted !in h && IsLast(h, j) && h[j].login != birth.login
    ensures IsLast(h[minted := birth], j)
  {
    var h2 := h[minted := birth];
    forall k: Jti | SameChain(h2, j, k) ensures h2[k].generation <= h2[j].generation {
      assert SameChain(h, j, k);
    }
  }

  /** Rows stay chained when a token is born into another chain, or into theirs once they are revoked. */
  lemma RowKeeps(row: Row, h: History, j: Jti, minted: Jti, birth: Birth)
    requires RowChained(row, h, j) && minted !in h && (row.revoked || h[j].login != birth.login)
    ensures RowChained(row, h[minted := birth], j)
  {
    if !row.revoked { BirthElsewhere(h, minted, birth, j); }
    hide IsLast;
  }

  lemma LoginChains(s: Store, h: History, user: UserId, minted: Jti, expires: int)
    requires Chained(s, h) && minted !in h
    ensures Chained(Issue(s, user, minted, expires), h[minted := Birth(user, minted, 0)])
  {
    var birth, t := Birth(user, minted, 0), Issue(s, user, minted, expires);
    assert OnTop(h, minted, birth);
    hide IsLast, Generations, RowChained, OnTop;
    BirthGenerations(h, minted, birth);
    BirthIsLast(h, minted, birth);
    forall j | j in t.rows ensures RowChained(t.rows[j], h[minted := birth], j) {
      if j == minted {
        NewRowChained(h[minted := birth], minted, Row(user, expires, false, None));
      } else {
        LoginNamesToken(s, h, j);
        RowKeeps(s.rows[j], h, j, minted, birth);
      }
    }
  }

  lemma NewRowChained(h: History, minted: Jti, row: Row)
    requires IsLast(h, minted) && row.user == h[minted].user && row.replacedBy == None
    ensures RowChained(row, h, minted)
  {
  }

  lemma LoginNamesToken(s: Store, h: History, j: Jti)
    requires Chained(s, h) && j in s.rows
    ensures RowChained(s.rows[j], h, j) && j in h && h[j].login in h
  {
  }

  lemma OnlyLastUnrevoked(s: Store, h: History, a: Jti, b: Jti)
    requires Chained(s, h) && a in s.rows && !s.rows[a].revoked && b in s.rows && !s.rows[b].revoked
    requires a in h && b in h && h[a].login == h[b].login
    ensures a == b
  {
    assert RowChained(s.rows[a], h, a) && RowChained(s.rows[b], h, b);
    assert SameChain(h, a, b) && SameChain(h, b, a);
  }

  lemma HeirOnTop(s: Store, h: History, token: Jti, minted: Jti)
    requires Chained(s, h) && minted !in h && token in s.rows && !s.rows[token].revoked
    ensures token in h && s.rows[token].user == h[token].user
    ensures OnTop(h, minted, Birth(h[token].user, h[token].login, h[token].generation + 1))
  {
    LoginNamesToken(s, h, token);
    forall k | k in h && h[k].login == h[token].login
      ensures h[k].generation <= h[token].generation && h[k].user == h[token].user
    {
      assert SameChain(h, token, k);
    }
  }

  lemma ReplacedRowChained(row: Row, h: History, token: Jti, minted: Jti, birth: Birth)
    requires RowChained(row, h, token) && minted !in h
    requires birth == Birth(h[token].user, h[token].login, h[token].generation + 1)
    ensures RowChained(row.(revoked := true, replacedBy := Some(minted)), h[minted := birth], token)
  {
  }

  lemma RotateChains(s: Store, h: History, now: int, token: Jti, minted: Jti, expires: int)
    requires Chained(s, h) && minted !in h && Rotates(s, now, token)
    ensures var op := Rotate(token, minted, expires); Chained(Apply(s, now, op).0, Record(h, s, now, op))
  {
    var op := Rotate(token, minted, expires);
    HeirOnTop(s, h, token, minted);
    var row, birth := s.rows[token], Birth(h[token].user, h[token].login, h[token].generation + 1);
    var rows := s.rows[token := row.(revoked := true, replacedBy := Some(minted))]
                      [minted := Row(row.user, expires, false, None)];
    assert Apply(s, now, op).0 == Store(rows, s.active) && Record(h, s, now, op) == h[minted := birth];
    HeirRowsChained(s, h, token, minted, expires, birth, rows);
    BirthGenerations(h, minted, birth);
    hide IsLast, Generations, RowChained, OnTop, Apply, Record;
  }

  lemma HeirRowsChained(s: Store, h: History, token: Jti, minted: Jti, expires: int, birth: Birth, rows: map<Jti, Row>)
    requires Chained(s, h) && token in s.rows && !s.rows[token].revoked && token in h && OnTop(h, minted, birth)
    requires birth == Birth(h[token].user, h[token].login, h[token].generation + 1)
    requires s.rows[token].user == h[token].user
    requires rows == s.rows[token := s.rows[token].(revoked := true, replacedBy := Some(minted))]
                     [minted := Row(s.rows[token].user, expires, false, None)]
    ensures forall j :: j in rows ==> RowChained(rows[j], h[minted := birth], j)
  {
    BirthIsLast(h, minted, birth);
    assert minted !in h;
    hide IsLast, Generations, RowChained, OnTop, Chained;
    forall j | j in rows ensures RowChained(rows[j], h[minted := birth], j) {
      if j == minted {
        NewRowChained(h[minted := birth], minted, rows[minted]);
      } else {
        LoginNamesToken(s, h, j);
        if j == token {
          ReplacedRowChained(s.rows[token], h, token, minted, birth);
        } else {
          if !s.rows[j].revoked && h[j].login == birth.login { OnlyLastUnrevoked(s, h, j, token); }
          RowKeeps(s.rows[j], h, j, minted, birth);
        }
      }
    }
  }

  /** Revoking and deleting rows keeps every chain. */
  lemma RevokedRow(row: Row, h: History, j: Jti)
    requires RowChained(row, h, j)
    ensures RowChained(row.(revoked := true), h, j)
  {
  }

  lemma StepChains(s: Store, h: History, now: int, op: Op)
    requires Chained(s, h) && Fresh(h, op)
    ensures Chained(Apply(s, now, op).0, Record(h, s, now, op))
  {
    match op
    case Login(user, minted, expires) => if user in s.active { LoginChains(s, h, user, minted, expires); }
    case Rotate(token, minted, expires) =>
      if Rotates(s, now, token) { RotateChains(s, h, now, token, minted, expires); }
    case _ =>
      var t := Apply(s, now, op).0;
      forall j | j in t.rows ensures RowChained(t.rows[j], h, j) {
        assert RowChained(s.rows[j], h, j);
        RevokedRow(s.rows[j], h, j);
        hide RowChained, Generations;
      }
  }

  // ------------------------------------------------------------------ runs

  type Timed = (int, Op)

  function RunFrom(s: Store, ops: seq<Timed>): Store
    decreases ops
  {
    if ops == [] then s else RunFrom(Apply(s, ops[0].0, ops[0].1).0, ops[1..])
  }

  function HistoryFrom(h: History, s: Store, ops: seq<Timed>): History
    decreases ops
  {
    if ops == [] then h
    else HistoryFrom(Record(h, s, ops[0].0, ops[0].1), Apply(s, ops[0].0, ops[0].1).0, ops[1..])
  }

  predicate AllFresh(h: History, s: Store, ops: seq<Timed>)
    decreases ops
  {
    ops == [] ||
    (Fresh(h, ops[0].1) && AllFresh(Record(h, s, ops[0].0, ops[0].1), Apply(s, ops[0].0, ops[0].1).0, ops[1..]))
  }

  predicate Onward(now: int, ops: seq<Timed>)
    decreases ops
  {
    ops == [] || (now <= ops[0].0 && Onward(ops[0].0, ops[1..]))
  }

  lemma {:induction false} RunChains(s: Store, h: History, ops: seq<Timed>)
    requires Chained(s, h) && AllFresh(h, s, ops)
    ensures Chained(RunFrom(s, ops), HistoryFrom(h, s, ops))
    decreases ops
  {
    if ops != [] {
      StepChains(s, h, ops[0].0, ops[0].1);
      RunChains(Apply(s, ops[0].0, ops[0].1).0, Record(h, s, ops[0].0, ops[0].1), ops[1..]);
    }
  }

  /** From an empty table, in every reachable state: each chain has at most one live token, it is the
      chain's last, rotation pointers climb by one generation and so never cycle, and access tokens
      of at most one generation of a chain resolve. */
  lemma ChainsHold(active: set<UserId>, ops: seq<Timed>, now: int, a: Jti, b: Jti)
    requires AllFresh(map[], Store(map[], active), ops)
    ensures var s, h := RunFrom(Store(map[], active), ops), HistoryFrom(map[], Store(map[], active), ops);
            && (Live(s, now, a) ==> IsLast(h, a))
            && (Live(s, now, a) && Live(s, now, b) && SameChain(h, a, b) ==> a == b)
            && (a in s.rows && s.rows[a].replacedBy == Some(b) ==>
                  SameChain(h, a, b) && h[b].generation == h[a].generation + 1 && !Live(s, now, a))
            && (forall u, v :: Resolves(s, now, u, a) && Resolves(s, now, v, b) && SameChain(h, a, b) ==>
                a == b && u == v)
  {
    var s0 := Store(map[], active);
    RunChains(s0, map[], ops);
    var s, h := RunFrom(s0, ops), HistoryFrom(map[], s0, ops);
    hide RunFrom, HistoryFrom, AllFresh;
    if Live(s, now, a) { LoginNamesToken(s, h, a); }
    if a in s.rows { LoginNamesToken(s, h, a); }
    if Live(s, now, a) && Live(s, now, b) && SameChain(h, a, b) { OnlyLastUnrevoked(s, h, a, b); }
    hide Chained, IsLast;
  }

  /** Issued once, and not usable any more. */
  predicate Spent(s: Store, h: History, now: int, j: Jti) { j in h && !Live(s, now, j) }

  lemma StepSpent(s: Store, h: History, now: int, t: int, op: Op, j: Jti)
    requires Fresh(h, op) && now <= t && Spent(s, h, now, j)
    ensures Spent(Apply(s, t, op).0, Record(h, s, t, op), t, j)
  {
  }

  /** Revoked, expired or pruned, a token never becomes live again. */
  lemma {:induction false} SpentForever(s: Store, h: History, now: int, ops: seq<Timed>, j: Jti, later: int)
    requires AllFresh(h, s, ops) && Onward(now, ops)
    requires Spent(s, h, now, j) && now <= later && (ops != [] ==> ops[|ops| - 1].0 <= later)
    ensures !Live(RunFrom(s, ops), later, j)
    decreases ops
  {
    if ops != [] {
      var (t, op) := ops[0];
      StepSpent(s, h, now, t, op, j);
      OnwardLast(t, ops[1..]);
      if |ops| > 1 { assert ops[1..][|ops| - 2] == ops[|ops| - 1]; }
      hide Spent, Live, Apply, Record, Fresh;
      SpentForever(Apply(s, t, op).0, Record(h, s, t, op), t, ops[1..], j, later);
    }
  }

  lemma {:induction false} OnwardLast(now: int, ops: seq<Timed>)
    requires Onward(now, ops)
    ensures ops != [] ==> now <= ops[|ops| - 1].0
    decreases ops
  {
    if ops != [] {
      OnwardLast(ops[0].0, ops[1..]);
      if |ops| > 1 { assert ops[1..][|ops| - 2] == ops[|ops| - 1]; }
    }
  }

  // ------------------------------------------------------------------ password reset

  /** No row of the user can be used. */
  ghost predicate AllRevoked(s: Store, user: UserId) {
    forall j :: j in s.rows && s.rows[j].user == user ==> s.rows[j].revoked
  }

  lemma StepRevoked(s: Store, now: int, op: Op, user: UserId)
    requires AllRevoked(s, user) && !(op.Login? && op.user == user)
    ensures AllRevoked(Apply(s, now, op).0, user)
  {
  }

  lemma {:induction false} StayRevoked(s: Store, ops: seq<Timed>, user: UserId)
    requires AllRevoked(s, user) && forall i :: 0 <= i < |ops| ==> !(ops[i].1.Login? && ops[i].1.user == user)
    ensures AllRevoked(RunFrom(s, ops), user)
    decreases ops
  {
    if ops != [] {
      StepRevoked(s, ops[0].0, ops[0].1, user);
      assert forall i :: 0 <= i < |ops[1..]| ==> ops[1..][i] == ops[i + 1];
      hide Apply, AllRevoked;
      StayRevoked(Apply(s, ops[0].0, ops[0].1).0, ops[1..], user);
    }
  }

  /** A password reset ends every session of its user: until the user logs in again no refresh token
      of theirs is live and no access token resolves to them, whatever else happens. Nobody else's
      session is touched. */
  lemma ResetEndsSessions(s: Store, now: int, user: UserId, ops: seq<Timed>, later: int, j: Jti)
    requires user in s.active && forall i :: 0 <= i < |ops| ==> !(ops[i].1.Login? && ops[i].1.user == user)
    ensures var after := Apply(s, now, Reset(user)).0;
            var t := RunFrom(after, ops);
            && (Live(t, later, j) ==> t.rows[j].user != user) && !Resolves(t, later, user, j)
            && (Live(after, now, j) <==> Live(s, now, j) && s.rows[j].user != user)
  {
    var after := Apply(s, now, Reset(user)).0;
    assert AllRevoked(after, user);
    StayRevoked(after, ops, user);
    hide RunFrom;
  }

  // ------------------------------------------------------------------ pruning

  function OutcomesFrom(s: Store, ops: seq<Timed>): seq<Outcome>
    decreases ops
  {
    if ops == [] then [] else [Apply(s, ops[0].0, ops[0].1).1] + OutcomesFrom(Apply(s, ops[0].0, ops[0].1).0, ops[1..])
  }

  /** `p` lacks only rows that had expired by `now`. */
  ghost predicate Trims(p: Store, s: Store, now: int) {
    && p.active == s.active
    && (forall j :: j in p.rows ==> j in s.rows && p.rows[j] == s.rows[j])
    && (forall j :: j in s.rows && j !in p.rows ==> s.rows[j].expires <= now)
  }

  lemma StepTrims(p: Store, s: Store, now: int, op: Op)
    requires Trims(p, s, now)
    ensures Apply(p, now, op).1 == Apply(s, now, op).1 && Trims(Apply(p, now, op).0, Apply(s, now, op).0, now)
  {
  }

  lemma {:induction false} TrimmedRun(p: Store, s: Store, now: int, ops: seq<Timed>)
    requires Trims(p, s, now) && Onward(now, ops)
    ensures OutcomesFrom(p, ops) == OutcomesFrom(s, ops)
    decreases ops
  {
    if ops != [] {
      var (t, op) := ops[0];
      assert Trims(p, s, t);
      StepTrims(p, s, t, op);
      TrimmedRun(Apply(p, t, op).0, Apply(s, t, op).0, t, ops[1..]);
    }
  }

  /** Pruning is invisible: no later login, rotation or resolution comes out differently. */
  lemma PruneUnobservable(s: Store, now: int, ops: seq<Timed>)
    requires Onward(now, ops)
    ensures OutcomesFrom(Pruned(s, now), ops) == OutcomesFrom(s, ops)
  {
    TrimmedRun(Pruned(s, now), s, now, ops);
  }

  // ------------------------------------------------------------------ logout

  ghost predicate ChainLive(s: Store, h: History, now: int, login: Jti) {
    exists j :: Live(s, now, j) && j in h && h[j].login == login
  }

  /** Logging out promises to kill the whole family. It does exactly when the session named is the
      chain's live token or the chain was dead already: an access token of an earlier generation
      revokes nothing. */
  lemma LogoutKillsExactly(s: Store, h: History, now: int, sid: Jti)
    requires Chained(s, h) && sid in h
    ensures !ChainLive(Apply(s, now, Logout(sid)).0, h, now, h[sid].login) <==>
            Live(s, now, sid) || !ChainLive(s, h, now, h[sid].login)
  {
    var t := Apply(s, now, Logout(sid)).0;
    forall j ensures Live(t, now, j) <==> Live(s, now, j) && j != sid {
      LogoutRevokes(s, now, sid, j);
    }
    if Live(s, now, sid) {
      forall j | Live(s, now, j) && j in h && h[j].login == h[sid].login ensures j == sid {
        OnlyLastUnrevoked(s, h, j, sid);
      }
    }
    hide Chained, Live, Apply;
  }

  lemma LogoutRevokes(s: Store, now: int, sid: Jti, j: Jti)
    ensures Live(Apply(s, now, Logout(sid)).0, now, j) <==> Live(s, now, j) && j != sid
  {
  }

  /** A run that reaches it: log in, rotate, then log out with the first access token. */
  lemma StaleLogoutKillsNothing()
    ensures var s := RunFrom(Store(map[], {1}), [(0, Login(1, 10, 100)), (1, Rotate(10, 11, 100)), (2, Logout(10))]);
            Resolves(s, 3, 1, 11)
  {
    var s0 := Store(map[], {1});
    var a, b, c := (0, Login(1, 10, 100)), (1, Rotate(10, 11, 100)), (2, Logout(10));
    var s1 := Apply(s0, 0, a.1).0;
    var s2 := Apply(s1, 1, b.1).0;
    assert Rotates(s1, 1, 10);
    RunOne(s0, a, [b, c]);
    RunOne(s1, b, [c]);
    RunOne(s2, c, []);
    assert [a] + [b, c] == [a, b, c] && [b] + [c] == [b, c] && [c] + [] == [c];
  }

  lemma RunOne(s: Store, first: Timed, rest: seq<Timed>)
    ensures RunFrom(s, [first] + rest) == RunFrom(Apply(s, first.0, first.1).0, rest)
  {
    assert ([first] + rest)[1..] == rest;
  }
}
