/** The running token total of a session under concurrent transactions: requests, which hold a
    session object loaded earlier and flush summary columns later, and assistant write-behinds. */
module TokenLedger {
  import opened Prelude

  /** The columns of a session row that are written. */
  datatype Row = Row(total: int, summary: Option<string>, upto: Option<nat>)

  datatype Phase = Loaded | Inserted(tokens: nat) | Updated | Closed

  /** A transaction: the total its session object shows, the token counts of the messages it has
      inserted, and its own uncommitted version of the row. */
  datatype Txn = Txn(mirror: int, inserted: seq<int>, pending: Option<Row>, phase: Phase)

  /** An UPDATE takes the row lock and holds it until the transaction ends. */
  datatype State = State(row: Row, messages: seq<int>, lock: Option<nat>, txns: map<nat, Txn>)

  datatype Step =
    | LoadSession(t: nat)
    | InsertMessage(t: nat, tokens: nat)
    | AddTokens(t: nat)
    | ApplySummary(t: nat, text: string, upto: nat)
    | Commit(t: nat)
    | Rollback(t: nat)

  predicate Enabled(s: State, step: Step) {
    match step
    case LoadSession(t) => t !in s.txns
    case InsertMessage(t, _) => t in s.txns && s.txns[t].phase.Loaded?
    case AddTokens(t) => t in s.txns && s.txns[t].phase.Inserted? && s.lock == None
    case ApplySummary(t, _, _) => t in s.txns && s.txns[t].phase.Updated? && s.txns[t].pending.Some?
    case Commit(t) => t in s.txns && s.txns[t].phase.Updated? && s.txns[t].pending.Some?
    case Rollback(t) => t in s.txns && !s.txns[t].phase.Closed?
  }

  function Set(s: State, t: nat, x: Txn): State { s.(txns := s.txns[t := x]) }

  function Do(s: State, step: Step): State
    requires Enabled(s, step)
  {
    match step
    case LoadSession(t) => Set(s, t, Txn(s.row.total, [], None, Loaded))
    case InsertMessage(t, tokens) =>
      Set(s, t, s.txns[t].(inserted := s.txns[t].inserted + [tokens], phase := Inserted(tokens)))
    case AddTokens(t) =>
      // the database adds to the row it has locked; the object's attribute is set without becoming dirty
      var x := s.txns[t];
      Set(s.(lock := Some(t)), t, x.(mirror := x.mirror + x.phase.tokens, phase := Updated,
                                     pending := Some(s.row.(total := s.row.total + x.phase.tokens))))
    case ApplySummary(t, text, upto) =>
      // only the dirty columns are flushed
      Set(s, t, s.txns[t].(pending := Some(s.txns[t].pending.value.(summary := Some(text), upto := Some(upto)))))
    case Commit(t) =>
      Set(s.(row := s.txns[t].pending.value, messages := s.messages + s.txns[t].inserted, lock := None), t,
          s.txns[t].(pending := None, phase := Closed))
    case Rollback(t) =>
      Set(if s.lock == Some(t) then s.(lock := None) else s, t, s.txns[t].(pending := None, phase := Closed))
  }

  // ------------------------------------------------------------------ invariant

  predicate TxnSound(s: State, t: nat, x: Txn) {
    match x.phase
    case Loaded => x.inserted == [] && x.pending == None && x.mirror <= s.row.total
    case Inserted(tokens) => x.inserted == [tokens] && x.pending == None && x.mirror <= s.row.total
    case Updated =>
      && s.lock == Some(t) && x.pending.Some?
      && x.pending.value.total == s.row.total + Sum(x.inserted) && x.mirror <= x.pending.value.total
      && Sum(x.inserted) >= 0
    case Closed => x.pending == None
  }

  ghost predicate Balanced(s: State) {
    && s.row.total == Sum(s.messages)
    && (s.lock.Some? ==> s.lock.value in s.txns && s.txns[s.lock.value].phase.Updated?)
    && forall t :: t in s.txns ==> TxnSound(s, t, s.txns[t])
  }

  lemma SumOne(x: int)
    ensures Sum([x]) == x
  {
    SumSnoc([], x);
    assert [] + [x] == [x];
  }

  lemma StepBalanced(s: State, step: Step)
    requires Balanced(s) && Enabled(s, step)
    ensures Balanced(Do(s, step))
  {
    var v := Do(s, step);
    if step.AddTokens? { SumOne(s.txns[step.t].phase.tokens); }
    if step.Commit? { SumConcat(s.messages, s.txns[step.t].inserted); }
    hide Sum;
    forall t | t in v.txns ensures TxnSound(v, t, v.txns[t]) {
      if t in s.txns { assert TxnSound(s, t, s.txns[t]); }
    }
  }

  // ------------------------------------------------------------------ runs

  predicate Possible(s: State, steps: seq<Step>)
    decreases steps
  {
    steps == [] || (Enabled(s, steps[0]) && Possible(Do(s, steps[0]), steps[1..]))
  }

  function Ran(s: State, steps: seq<Step>): State
    requires Possible(s, steps)
    decreases steps
  {
    if steps == [] then s else Ran(Do(s, steps[0]), steps[1..])
  }

  lemma {:induction false} RunBalanced(s: State, steps: seq<Step>)
    requires Balanced(s) && Possible(s, steps)
    ensures Balanced(Ran(s, steps))
    decreases steps
  {
    if steps != [] {
      hide Balanced, Do, Enabled;
      StepBalanced(s, steps[0]);
      RunBalanced(Do(s, steps[0]), steps[1..]);
    }
  }

  const NEW_SESSION := State(Row(0, None, None), [], None, map[])

  /** In every committed state, under any interleaving, the total is the sum of the messages' token
      counts; and what a request's session object shows never runs ahead of the row it would commit. */
  lemma TotalIsSum(steps: seq<Step>, t: nat)
    requires Possible(NEW_SESSION, steps)
    ensures var s := Ran(NEW_SESSION, steps);
            && s.row.total == Sum(s.messages)
            && (t in s.txns && !s.txns[t].phase.Closed? ==>
                  s.txns[t].mirror <= if s.txns[t].pending.Some? then s.txns[t].pending.value.total else s.row.total)
  {
    assert Balanced(NEW_SESSION);
    RunBalanced(NEW_SESSION, steps);
    var s := Ran(NEW_SESSION, steps);
    hide Ran, Possible;
    if t in s.txns { assert TxnSound(s, t, s.txns[t]); }
  }

  // ------------------------------------------------------------------ why the increment is not an assignment

  /** What assigning the attribute would flush: the object's total plus the message, as a value. */
  function Assigned(s: State, t: nat): State
    requires Enabled(s, AddTokens(t))
  {
    var x := s.txns[t];
    Set(s.(lock := Some(t)), t, x.(mirror := x.mirror + x.phase.tokens, phase := Updated,
                                   pending := Some(s.row.(total := x.mirror + x.phase.tokens))))
  }

  /** Committing an assigned total keeps the books exactly when the object was not stale. */
  lemma AssignmentKeepsExactly(s: State, t: nat)
    requires Balanced(s) && Enabled(s, AddTokens(t))
    ensures var v := Do(Assigned(s, t), Commit(t));
            v.row.total == Sum(v.messages) <==> s.txns[t].mirror == s.row.total
  {
    var x := s.txns[t];
    assert TxnSound(s, t, x);
    SumOne(x.phase.tokens);
    SumConcat(s.messages, x.inserted);
    hide Sum;
  }

  /** And it can be stale: a write-behind commits between a request's load and its update. */
  lemma ObjectCanBeStale()
    ensures var steps := [LoadSession(1), LoadSession(2), InsertMessage(2, 7), AddTokens(2), Commit(2),
                          InsertMessage(1, 5)];
            && Possible(NEW_SESSION, steps)
            && var s := Ran(NEW_SESSION, steps); Enabled(s, AddTokens(1)) && s.txns[1].mirror == 0 && s.row.total == 7
  {
    var a, b, c, d, e, f := LoadSession(1), LoadSession(2), InsertMessage(2, 7), AddTokens(2), Commit(2),
      InsertMessage(1, 5);
    var s1 := Do(NEW_SESSION, a);
    var s2 := Do(s1, b);
    var s3 := Do(s2, c);
    var s4 := Do(s3, d);
    var s5 := Do(s4, e);
    var s6 := Do(s5, f);
    RanOne(s5, f, []);
    RanOne(s4, e, [f]);
    RanOne(s3, d, [e, f]);
    RanOne(s2, c, [d, e, f]);
    RanOne(s1, b, [c, d, e, f]);
    RanOne(NEW_SESSION, a, [b, c, d, e, f]);
    assert [f] + [] == [f] && [e] + [f] == [e, f] && [d] + [e, f] == [d, e, f] && [c] + [d, e, f] == [c, d, e, f];
    assert [b] + [c, d, e, f] == [b, c, d, e, f] && [a] + [b, c, d, e, f] == [a, b, c, d, e, f];
  }

  lemma RanOne(s: State, first: Step, rest: seq<Step>)
    requires Enabled(s, first) && Possible(Do(s, first), rest)
    ensures Possible(s, [first] + rest) && Ran(s, [first] + rest) == Ran(Do(s, first), rest)
  {
    assert ([first] + rest)[1..] == rest;
  }
}
