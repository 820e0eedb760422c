/** Drift between the index and the table: which steps cause it, when a run is free of it, and runs
    that are not. */
module CacheDrift {
  import opened Prelude
  import opened CacheIndex
  import opened CacheInterleaving

  /** What the index holds of a row. */
  datatype Listing = Listing(text: string, vector: Vector, manifest: string)

  function ListingOf(cfg: Config, row: Row): Listing {
    Listing(row.queryText, cfg.unit(row.embedding), row.manifest)
  }

  /** The index could not tell the two tables apart. */
  ghost predicate SameListings(cfg: Config, a: Table, b: Table) {
    && (forall id :: id in a <==> id in b)
    && (forall id :: id in a && id in b ==> ListingOf(cfg, a[id]) == ListingOf(cfg, b[id]))
  }

  /** A view of one table is a view of another exactly when the index cannot tell them apart. */
  lemma MirrorsSame(cfg: Config, ix: Index, a: Table, b: Table)
    requires Mirrors(cfg, ix, a)
    ensures Mirrors(cfg, ix, b) <==> SameListings(cfg, a, b)
  {
    if SameListings(cfg, a, b) {
      forall i | 0 <= i < |ix.ids| ensures ix.ids[i] in b && DescribesRow(cfg, ix, i, b[ix.ids[i]]) {
        assert ix.ids[i] in ix.ids && DescribesRow(cfg, ix, i, a[ix.ids[i]]);
        assert ListingOf(cfg, a[ix.ids[i]]) == ListingOf(cfg, b[ix.ids[i]]);
      }
    }
    if Mirrors(cfg, ix, b) {
      forall id | id in a && id in b ensures ListingOf(cfg, a[id]) == ListingOf(cfg, b[id]) {
        assert id in ix.ids;
        var i :| 0 <= i < |ix.ids| && ix.ids[i] == id;
        assert DescribesRow(cfg, ix, i, a[id]) && DescribesRow(cfg, ix, i, b[id]);
      }
    }
  }

  /** No drift: a loaded index is a view of the table. */
  ghost predicate Agrees(cfg: Config, s: State) {
    s.loaded ==> Mirrors(cfg, s.index, s.db)
  }

  // ------------------------------------------------------------------ what coroutines know of ids

  ghost predicate Logged(log: set<Version>, id: EntryId) { exists v :: v in log && v.id == id }

  /** Ids come from history, an entry about to be dropped is gone, and an entry about to be listed is
      what was committed unless it is gone. */
  ghost predicate Knows(cfg: Config, db: Table, log: set<Version>, pc: Pc) {
    match pc
    case EvictRead(id) => Logged(log, id)
    case EvictCommit(id) => Logged(log, id)
    case DeleteCommit(id) => Logged(log, id)
    case WriteEvict(_, _, _, victim) => Logged(log, victim)
    case EvictDrop(id) => Logged(log, id) && id !in db
    case DeleteDrop(id) => Logged(log, id) && id !in db
    case WriteEvictDrop(_, _, _, victim) => Logged(log, victim) && victim !in db
    case WriteIndex(text, embedding, _, id, manifest) =>
      id in db ==> ListingOf(cfg, db[id]) == Listing(text, cfg.unit(embedding), manifest)
    case _ => true
  }

  ghost predicate AllKnow(cfg: Config, s: State) {
    forall p :: p in s.procs ==> Knows(cfg, s.db, s.log, s.procs[p])
  }

  /** A row that is gone does not come back under its id. */
  ghost predicate NoReturn(log: set<Version>, db: Table, db': Table) {
    forall id :: id in db' && Logged(log, id) ==> id in db
  }

  ghost predicate KeepsListings(cfg: Config, db: Table, db': Table) {
    forall id :: id in db && id in db' ==> ListingOf(cfg, db'[id]) == ListingOf(cfg, db[id])
  }

  lemma KnowsStill(cfg: Config, db: Table, log: set<Version>, pc: Pc, db': Table, log': set<Version>)
    requires Knows(cfg, db, log, pc) && PcSound(cfg, pc, log) && log <= log' && NoReturn(log, db, db')
    requires pc.WriteIndex? ==> KeepsListings(cfg, db, db')
    ensures Knows(cfg, db', log', pc)
  {
    if pc.WriteIndex? { assert Version(pc.id, pc.text, pc.embedding, pc.answer, pc.manifest) in log; }
  }

  // ------------------------------------------------------------------ what a step does

  /** What a step does to the table and the index. */
  datatype Effect =
    | Quiet
    | Deletes(id: EntryId)
    | Empties
    | Commits(id: EntryId, row: Row)
    | Drops(id: EntryId)
    | Installs(rows: Table)
    | Lists(id: EntryId, text: string, embedding: Vector, manifest: string)
    | Resets

  function EffectOf(cfg: Config, s: State, pc: Pc, c: Choice): Effect {
    match pc
    case EvictCommit(id) => Deletes(id)
    case DeleteCommit(id) => Deletes(id)
    case WriteEvict(_, _, _, victim) => Deletes(victim)
    case FlushCommit => Empties
    case WriteCommit(text, embedding, answer, existing) =>
      if c.Resume? && s.manifest.Some? then
        if existing.Some? && existing.value in s.db then
          Commits(existing.value, s.db[existing.value].(queryText := text, embedding := embedding, answer := answer,
                                                        manifest := s.manifest.value))
        else Commits(c.minted, Row(cfg.hash(text), text, embedding, answer, s.manifest.value, 0, 0, None))
      else Quiet
    case EvictDrop(id) => Drops(id)
    case DeleteDrop(id) => Drops(id)
    case WriteEvictDrop(_, _, _, victim) => Drops(victim)
    case LoadInstall(_, rows) => Installs(rows)
    case WriteIndex(text, embedding, _, id, manifest) => Lists(id, text, embedding, manifest)
    case FlushReset => Resets
    case _ => Quiet
  }

  /** Only the table changes. */
  ghost predicate TableOnly(s: State, s': State) { s'.index == s.index && s'.loaded == s.loaded }

  /** Only the index changes. */
  ghost predicate IndexOnly(s: State, s': State) { s'.db == s.db && s'.log == s.log }

  ghost predicate Effected(cfg: Config, s: State, e: Effect, s': State) {
    match e
    case Quiet => TableOnly(s, s') && s'.log == s.log && SameListings(cfg, s.db, s'.db)
    case Deletes(id) => TableOnly(s, s') && s'.log == s.log && s'.db == s.db - {id}
    case Empties => TableOnly(s, s') && s'.log == s.log && s'.db == map[]
    case Commits(id, row) =>
      TableOnly(s, s') && s'.log == s.log + {VersionOf(id, row)} && s'.db == s.db[id := row]
      && (id in s.db || !Logged(s.log, id))
    case Drops(id) => IndexOnly(s, s') && s'.loaded == s.loaded && RowParallel(s.index) && s'.index == Drop(s.index, id)
    case Installs(rows) => IndexOnly(s, s') && s'.loaded && Mirrors(cfg, s'.index, rows)
    case Lists(id, text, embedding, manifest) =>
      && IndexOnly(s, s') && s'.loaded && RowParallel(s.index)
      && s'.index == Append(cfg, Drop(s.index, id), id, text, embedding, Some(manifest))
    case Resets => IndexOnly(s, s') && !s'.loaded && s'.index == EMPTY
  }

  /** A coroutine moves, and where it goes it knows what it has to. */
  ghost predicate Moves(cfg: Config, s: State, p: nat, s': State) {
    && p in s'.procs && s'.procs == s.procs[p := s'.procs[p]]
    && Knows(cfg, s'.db, s'.log, s'.procs[p])
  }

  lemma LoadingEffect(cfg: Config, s: State, p: nat, c: Choice, s': State)
    requires Inv(cfg, s) && c.Resume? && p in s.procs && ResumesLoading(cfg, s, p, c, s')
    ensures Moves(cfg, s, p, s') && Effected(cfg, s, EffectOf(cfg, s, s.procs[p], c), s')
  {
    var pc := s.procs[p];
    if pc.Ready? && s.loaded && pc.task.Lookup? {
      var next :| Scanned(cfg, s, pc.task.text, pc.task.asked, next) && s' == Move(s, p, next);
      ScanKnows(cfg, s, pc.task.text, pc.task.asked, next);
    }
    hide Inv, Mirrors, Scanned;
  }

  /** An entry found stale comes from history. */
  lemma ScanKnows(cfg: Config, s: State, text: string, asked: Vector, next: Pc)
    requires IndexSound(cfg, s.index, s.log) && Scanned(cfg, s, text, asked, next)
    ensures Knows(cfg, s.db, s.log, next)
  {
    if next.EvictRead? {
      var best: nat :| best < |s.index.ids| && next == EvictRead(s.index.ids[best]);
      assert Shown(cfg, s.index, best, s.log);
      var v :| v in s.log && Shows(cfg, s.index, best, v);
      assert v.id == next.id;
    }
  }

  lemma LookupEffect(cfg: Config, s: State, p: nat, c: Choice, s': State)
    requires AllKnow(cfg, s) && p in s.procs && RowParallel(s.index) && ResumesLookup(cfg, s, p, s')
    ensures Moves(cfg, s, p, s') && Effected(cfg, s, EffectOf(cfg, s, s.procs[p], c), s')
  {
    assert Knows(cfg, s.db, s.log, s.procs[p]);
  }

  lemma WriteStartEffect(cfg: Config, s: State, p: nat, c: Choice, s': State)
    requires AllKnow(cfg, s) && DbSound(cfg, s.db, s.log) && p in s.procs && RowParallel(s.index) && c.Resume?
    requires ResumesWriteStart(cfg, s, p, c, s')
    ensures Moves(cfg, s, p, s') && Effected(cfg, s, EffectOf(cfg, s, s.procs[p], c), s')
  {
    assert Knows(cfg, s.db, s.log, s.procs[p]);
    if s.procs[p].WriteVictim? && c.victim in s.db {
      assert VersionOf(c.victim, s.db[c.victim]) in s.log;
    }
  }

  lemma WriteEndEffect(cfg: Config, s: State, p: nat, c: Choice, s': State)
    requires LockSound(s) && p in s.procs && RowParallel(s.index) && c.Resume?
    requires ResumesWriteEnd(cfg, s, p, c, s')
    ensures Moves(cfg, s, p, s') && Effected(cfg, s, EffectOf(cfg, s, s.procs[p], c), s')
  {
  }

  lemma DeleteEffect(cfg: Config, s: State, p: nat, c: Choice, s': State)
    requires AllKnow(cfg, s) && DbSound(cfg, s.db, s.log) && p in s.procs && RowParallel(s.index)
    requires ResumesDelete(cfg, s, p, s')
    ensures Moves(cfg, s, p, s') && Effected(cfg, s, EffectOf(cfg, s, s.procs[p], c), s')
  {
    assert Knows(cfg, s.db, s.log, s.procs[p]);
    if s.procs[p].DeleteFind? && s'.procs[p].DeleteCommit? {
      assert VersionOf(s'.procs[p].id, s.db[s'.procs[p].id]) in s.log;
    }
  }

  function StepEffect(cfg: Config, s: State, p: nat, c: Choice): Effect {
    if c.Resume? && p in s.procs then EffectOf(cfg, s, s.procs[p], c) else Quiet
  }

  lemma StepHasEffect(cfg: Config, s: State, p: nat, c: Choice, s': State)
    requires Inv(cfg, s) && AllKnow(cfg, s) && Step(cfg, s, p, c, s')
    ensures Moves(cfg, s, p, s') && Effected(cfg, s, StepEffect(cfg, s, p, c), s')
  {
    hide ResumesLoading, ResumesLookup, ResumesWriteStart, ResumesWriteEnd, ResumesDelete, AllKnow, EffectOf;
    if c.Resume? {
      if ResumesLoading(cfg, s, p, c, s') { LoadingEffect(cfg, s, p, c, s'); }
      else if ResumesLookup(cfg, s, p, s') { LookupEffect(cfg, s, p, c, s'); }
      else if ResumesWriteStart(cfg, s, p, c, s') { WriteStartEffect(cfg, s, p, c, s'); }
      else if ResumesWriteEnd(cfg, s, p, c, s') { WriteEndEffect(cfg, s, p, c, s'); }
      else { DeleteEffect(cfg, s, p, c, s'); }
    }
  }

  /** What coroutines know survives every step. */
  lemma StepKnows(cfg: Config, s: State, p: nat, c: Choice, s': State)
    requires Inv(cfg, s) && AllKnow(cfg, s) && Step(cfg, s, p, c, s')
    ensures AllKnow(cfg, s')
  {
    StepHasEffect(cfg, s, p, c, s');
    assert ProcsSound(cfg, s.procs, s.log) && LockSound(s);
    hide Inv, Step, Knows, PcSound;
    forall q | q in s'.procs ensures Knows(cfg, s'.db, s'.log, s'.procs[q]) {
      if q != p {
        EffectSpares(cfg, s, p, c, s', q);
        KnowsStill(cfg, s.db, s.log, s.procs[q], s'.db, s'.log);
      }
    }
  }

  /** Only a commit changes what the index sees of a row, and then no other write is under way. */
  lemma EffectSpares(cfg: Config, s: State, p: nat, c: Choice, s': State, q: nat)
    requires LockSound(s) && Effected(cfg, s, StepEffect(cfg, s, p, c), s') && q != p && q in s.procs
    ensures s.log <= s'.log && NoReturn(s.log, s.db, s'.db)
    ensures s.procs[q].WriteIndex? ==> KeepsListings(cfg, s.db, s'.db)
  {
    hide Mirrors, RowParallel, Drop, Append;
  }

  // ------------------------------------------------------------------ which steps part index and table

  /** Deleting a row, emptying the table, committing a row the index has not got like that, installing
      rows the table has not got like that, and listing an entry that is gone or, on an index that is
      not loaded, is not the whole table. */
  ghost predicate Parts(cfg: Config, s: State, pc: Pc) {
    match pc
    case EvictCommit(id) => s.loaded && id in s.db
    case DeleteCommit(id) => s.loaded && id in s.db
    case WriteEvict(_, _, _, victim) => s.loaded && victim in s.db
    case FlushCommit => s.loaded && s.db != map[]
    case WriteCommit(text, embedding, _, existing) =>
      s.loaded && (existing.Some? && existing.value in s.db && s.manifest.Some? ==>
                     ListingOf(cfg, s.db[existing.value]) != Listing(text, cfg.unit(embedding), s.manifest.value))
    case LoadInstall(_, rows) => !SameListings(cfg, rows, s.db)
    case WriteIndex(_, _, _, id, _) => if s.loaded then id !in s.db else s.db.Keys != {id}
    case _ => false
  }

  /** In every run, a step from a state without drift leaves drift exactly when it is one of those. */
  lemma DriftExactly(cfg: Config, trace: seq<State>, n: nat, p: nat, c: Choice)
    requires HashInjective(cfg) && Run(cfg, trace) && n + 1 < |trace|
    requires Step(cfg, trace[n], p, c, trace[n + 1]) && Agrees(cfg, trace[n])
    ensures Agrees(cfg, trace[n + 1]) <==> !(c.Resume? && Parts(cfg, trace[n], trace[n].procs[p]))
  {
    RunKnows(cfg, trace, n);
    hide *;
    StepDrift(cfg, trace[n], p, c, trace[n + 1]);
  }

  lemma {:induction false} RunKnows(cfg: Config, trace: seq<State>, n: nat)
    requires HashInjective(cfg) && Run(cfg, trace) && n < |trace|
    ensures Inv(cfg, trace[n]) && AllKnow(cfg, trace[n])
  {
    if n == 0 {
      InitInv(cfg, trace[0]);
    } else {
      RunKnows(cfg, trace, n - 1);
      assert Next(cfg, trace[n - 1], trace[n - 1 + 1]);
      var p, c :| Step(cfg, trace[n - 1], p, c, trace[n]);
      hide *;
      StepInv(cfg, trace[n - 1], p, c, trace[n]);
      StepKnows(cfg, trace[n - 1], p, c, trace[n]);
    }
  }

  lemma StepDrift(cfg: Config, s: State, p: nat, c: Choice, s': State)
    requires Inv(cfg, s) && AllKnow(cfg, s) && Step(cfg, s, p, c, s') && Agrees(cfg, s)
    ensures Agrees(cfg, s') <==> !(c.Resume? && Parts(cfg, s, s.procs[p]))
  {
    StepHasEffect(cfg, s, p, c, s');
    assert !s.loaded ==> s.index == EMPTY;
    if c.Resume? {
      assert Knows(cfg, s.db, s.log, s.procs[p]);
      if s.procs[p].WriteCommit? { CommitResumes(cfg, s, p, c, s'); }
      hide Inv, Step, AllKnow, Knows, Effected, Agrees, EffectOf, Parts;
      EffectParts(cfg, s, s.procs[p], c);
    }
    hide Inv, Step, AllKnow, Effected, Agrees, EffectOf, Parts;
    BreaksExactly(cfg, s, StepEffect(cfg, s, p, c), s');
  }

  /** The same, read off the effect. */
  ghost predicate Breaks(cfg: Config, s: State, e: Effect) {
    match e
    case Quiet => false
    case Deletes(id) => s.loaded && id in s.db
    case Empties => s.loaded && s.db != map[]
    case Commits(id, row) => s.loaded && !(id in s.db && ListingOf(cfg, s.db[id]) == ListingOf(cfg, row))
    case Drops(id) => s.loaded && id in s.db
    case Installs(rows) => !SameListings(cfg, rows, s.db)
    case Lists(id, text, embedding, manifest) =>
      !(id in s.db && ListingOf(cfg, s.db[id]) == Listing(text, cfg.unit(embedding), manifest)
        && (s.loaded || s.db.Keys == {id}))
    case Resets => false
  }

  lemma EffectParts(cfg: Config, s: State, pc: Pc, c: Choice)
    requires c.Resume? && Knows(cfg, s.db, s.log, pc)
    requires pc.WriteCommit? ==>
               s.manifest.Some? && if pc.existing.Some? then pc.existing.value in s.db else c.minted !in s.db
    ensures Breaks(cfg, s, EffectOf(cfg, s, pc, c)) <==> Parts(cfg, s, pc)
  {
    hide SameListings, Logged;
  }

  /** A commit that goes through found its manifest and, for an update, its row. */
  lemma CommitResumes(cfg: Config, s: State, p: nat, c: Choice, s': State)
    requires Step(cfg, s, p, c, s') && c.Resume? && s.procs[p].WriteCommit?
    ensures s.manifest.Some?
    ensures if s.procs[p].existing.Some? then s.procs[p].existing.value in s.db else c.minted !in s.db
  {
  }

  lemma BreaksExactly(cfg: Config, s: State, e: Effect, s': State)
    requires Effected(cfg, s, e, s') && Agrees(cfg, s) && (!s.loaded ==> s.index == EMPTY)
    ensures Agrees(cfg, s') <==> !Breaks(cfg, s, e)
  {
    hide RowParallel, Drop, Append, SameListings;
    match e
    case Drops(id) => DropBreaks(cfg, s, id, s');
    case Installs(rows) => MirrorsSame(cfg, s'.index, rows, s.db);
    case Lists(id, text, embedding, manifest) => ListBreaks(cfg, s, id, text, embedding, manifest, s');
    case Resets =>
    case _ =>
      if s.loaded {
        MirrorsSame(cfg, s.index, s.db, s'.db);
        TableBreaks(cfg, s, e, s');
      }
  }

  lemma TableBreaks(cfg: Config, s: State, e: Effect, s': State)
    requires Effected(cfg, s, e, s') && s.loaded && (e.Quiet? || e.Deletes? || e.Empties? || e.Commits?)
    ensures SameListings(cfg, s.db, s'.db) <==> !Breaks(cfg, s, e)
  {
  }

  lemma DropBreaks(cfg: Config, s: State, id: EntryId, s': State)
    requires Effected(cfg, s, Drops(id), s') && Agrees(cfg, s)
    ensures Agrees(cfg, s') <==> !Breaks(cfg, s, Drops(id))
  {
    if s.loaded {
      MirrorsDrop(cfg, s.index, s.db, id);
      MirrorsSame(cfg, s'.index, s.db - {id}, s.db);
    }
  }

  lemma ListBreaks(cfg: Config, s: State, id: EntryId, text: string, embedding: Vector, manifest: string, s': State)
    requires Effected(cfg, s, Lists(id, text, embedding, manifest), s') && Agrees(cfg, s)
    requires !s.loaded ==> s.index == EMPTY
    ensures Agrees(cfg, s') <==> !Breaks(cfg, s, Lists(id, text, embedding, manifest))
  {
    var before: Table := if s.loaded then s.db else map[];
    var row := Row("", text, embedding, "", manifest, 0, 0, None);
    hide Drop, Append, SameListings;
    assert Mirrors(cfg, s.index, before);
    hide Mirrors, RowParallel;
    MirrorsListed(cfg, s.index, before, id, row);
    MirrorsSame(cfg, s'.index, before[id := row], s.db);
    ListedIsTable(cfg, s, before, id, row);
  }

  lemma ListedIsTable(cfg: Config, s: State, before: Table, id: EntryId, row: Row)
    requires before == if s.loaded then s.db else map[]
    ensures SameListings(cfg, before[id := row], s.db) <==>
            && id in s.db && ListingOf(cfg, s.db[id]) == ListingOf(cfg, row)
            && (s.loaded || s.db.Keys == {id})
  {
    if !s.loaded { assert s.db.Keys == {id} <==> (forall x :: x in s.db <==> x == id); }
  }

  // ------------------------------------------------------------------ runs without drift

  /** An index step is still to come. */
  predicate Pending(pc: Pc) {
    pc.EvictDrop? || pc.DeleteDrop? || pc.WriteEvictDrop? || pc.WriteIndex? || pc.FlushReset?
  }

  /** No other coroutine has read the row for its load or is about to list the entry. */
  ghost predicate Undisturbed(s: State, id: EntryId) {
    forall q :: q in s.procs ==>
      && (s.procs[q].LoadInstall? ==> id !in s.procs[q].rows)
      && (s.procs[q].WriteIndex? ==> s.procs[q].id != id)
  }

  /** No coroutine is lost between a commit and its index step, nothing is deleted in the gap of
      a load or of the write of the same entry, and no write lists its entry alone on an index that is
      not loaded while the table has other rows. */
  ghost predicate Careful(s: State, p: nat, c: Choice) {
    p in s.procs ==>
      match c
      case Spawn(_) => true
      case Raise => !Pending(s.procs[p])
      case Resume(_, _, _) =>
        match s.procs[p]
        case EvictCommit(id) => Undisturbed(s, id)
        case DeleteCommit(id) => Undisturbed(s, id)
        case WriteIndex(_, _, _, id, _) => s.loaded || s.db.Keys <= {id}
        case _ => true
  }

  ghost predicate Dropping(s: State, id: EntryId) {
    exists q :: q in s.procs && DropOf(s.procs[q]) == Some(id)
  }

  function DropOf(pc: Pc): Option<EntryId> {
    match pc
    case EvictDrop(id) => Some(id)
    case DeleteDrop(id) => Some(id)
    case WriteEvictDrop(_, _, _, victim) => Some(victim)
    case _ => None
  }

  ghost predicate Indexing(s: State, id: EntryId) {
    exists q :: q in s.procs && s.procs[q].WriteIndex? && s.procs[q].id == id
  }

  ghost predicate Flushing(s: State) {
    exists q :: q in s.procs && s.procs[q].FlushReset?
  }

  /** A table from which the real one differs only by what an index step will put right. */
  ghost predicate Near(cfg: Config, s: State, v: Table) {
    && (forall id :: id in v ==> id in s.db || Dropping(s, id) || Flushing(s))
    && (forall id :: id in s.db ==> id in v || Indexing(s, id))
    && (forall id :: id in v && id in s.db ==>
          ListingOf(cfg, v[id]) == ListingOf(cfg, s.db[id]) || Indexing(s, id))
  }

  /** Rows read for a load are still the table's, unless a flush came by and has yet to reset. */
  ghost predicate Fits(cfg: Config, s: State, rows: Table) {
    && (forall id :: id in s.db ==> id in rows && ListingOf(cfg, rows[id]) == ListingOf(cfg, s.db[id]))
    && (forall id :: id in rows ==> id in s.db || Flushing(s))
  }

  /** What a coroutine about to change the index brings. */
  ghost predicate Brings(cfg: Config, s: State, pc: Pc) {
    match pc
    case LoadInstall(_, rows) => Fits(cfg, s, rows)
    case WriteIndex(_, _, _, id, _) => id in s.db || Flushing(s)
    case _ => true
  }

  ghost predicate Tracks(cfg: Config, s: State) {
    && (s.loaded ==> exists v: Table :: Mirrors(cfg, s.index, v) && Near(cfg, s, v))
    && (forall q :: q in s.procs ==> Brings(cfg, s, s.procs[q]))
  }

  /** Nothing that was pending is forgotten. */
  ghost predicate Keeps(s: State, s': State) {
    && (forall id :: Dropping(s, id) ==> Dropping(s', id))
    && (forall id :: Indexing(s, id) ==> Indexing(s', id))
    && (Flushing(s) ==> Flushing(s'))
  }

  ghost predicate Moved(s: State, p: nat, s': State) {
    p in s'.procs && s'.procs == s.procs[p := s'.procs[p]]
  }

  /** Only the coroutine that moves can stop being pending. */
  lemma PendingMoves(s: State, p: nat, s': State)
    requires Moved(s, p, s')
    ensures forall id: EntryId :: Dropping(s, id) ==>
                                    Dropping(s', id) || (p in s.procs && DropOf(s.procs[p]) == Some(id))
    ensures forall id: EntryId :: Indexing(s, id) ==>
                                    Indexing(s', id) || (p in s.procs && s.procs[p].WriteIndex? && s.procs[p].id == id)
    ensures Flushing(s) ==> Flushing(s') || (p in s.procs && s.procs[p].FlushReset?)
    ensures p in s.procs ==> !Pending(s.procs[p]) ==> Keeps(s, s')
    ensures p !in s.procs ==> Keeps(s, s')
  {
    forall id: EntryId | Dropping(s, id)
      ensures Dropping(s', id) || (p in s.procs && DropOf(s.procs[p]) == Some(id))
    {
      var q :| q in s.procs && DropOf(s.procs[q]) == Some(id);
      assert q != p ==> q in s'.procs && DropOf(s'.procs[q]) == Some(id);
    }
    forall id: EntryId | Indexing(s, id)
      ensures Indexing(s', id) || (p in s.procs && s.procs[p].WriteIndex? && s.procs[p].id == id)
    {
      var q :| q in s.procs && s.procs[q].WriteIndex? && s.procs[q].id == id;
      assert q != p ==> q in s'.procs && s'.procs[q].WriteIndex? && s'.procs[q].id == id;
    }
    if Flushing(s) {
      var q :| q in s.procs && s.procs[q].FlushReset?;
      assert q != p ==> q in s'.procs && s'.procs[q].FlushReset?;
    }
  }

  lemma NearSame(cfg: Config, s: State, s': State, v: Table)
    requires Near(cfg, s, v) && Keeps(s, s') && SameListings(cfg, s.db, s'.db)
    ensures Near(cfg, s', v)
  {
    hide Dropping, Indexing, Flushing;
  }

  lemma NearDeleted(cfg: Config, s: State, s': State, v: Table, id: EntryId)
    requires Near(cfg, s, v) && Keeps(s, s') && s'.db == s.db - {id} && Dropping(s', id)
    ensures Near(cfg, s', v)
  {
    hide Dropping, Indexing, Flushing;
  }

  lemma NearEmptied(cfg: Config, s: State, s': State, v: Table)
    requires s'.db == map[] && Flushing(s')
    ensures Near(cfg, s', v)
  {
  }

  lemma NearCommitted(cfg: Config, s: State, s': State, v: Table, id: EntryId, row: Row)
    requires Near(cfg, s, v) && Keeps(s, s') && s'.db == s.db[id := row] && Indexing(s', id)
    ensures Near(cfg, s', v)
  {
    hide Dropping, Indexing, Flushing;
  }

  lemma NearDropped(cfg: Config, s: State, s': State, v: Table, id: EntryId)
    requires Near(cfg, s, v) && s'.db == s.db && id !in s.db
    requires forall x :: Dropping(s, x) ==> Dropping(s', x) || x == id
    requires forall x :: Indexing(s, x) ==> Indexing(s', x)
    requires Flushing(s) ==> Flushing(s')
    ensures Near(cfg, s', v - {id})
  {
    hide Dropping, Indexing, Flushing;
  }

  lemma NearInstalled(cfg: Config, s: State, s': State, rows: Table)
    requires Fits(cfg, s, rows) && s'.db == s.db && (Flushing(s) ==> Flushing(s'))
    ensures Near(cfg, s', rows)
  {
    hide Dropping, Indexing, Flushing;
  }

  /** Listing the written entry puts its row right. */
  lemma NearListed(cfg: Config, s: State, s': State, v: Table, id: EntryId, row: Row)
    requires Near(cfg, s, v) && s'.db == s.db && (id in s.db || Flushing(s))
    requires id in s.db ==> ListingOf(cfg, s.db[id]) == ListingOf(cfg, row)
    requires forall x :: Dropping(s, x) ==> Dropping(s', x)
    requires forall x :: Indexing(s, x) ==> x == id
    requires Flushing(s) ==> Flushing(s')
    ensures Near(cfg, s', v[id := row])
  {
    hide Dropping, Indexing, Flushing;
  }

  /** An index that is not loaded is the view of no table; listing the only row there is gives the whole. */
  lemma NearLone(cfg: Config, s: State, s': State, id: EntryId, row: Row)
    requires s'.db == s.db && (id in s.db || Flushing(s)) && s.db.Keys <= {id}
    requires id in s.db ==> ListingOf(cfg, s.db[id]) == ListingOf(cfg, row)
    requires Flushing(s) ==> Flushing(s')
    ensures Near(cfg, s', map[id := row])
  {
    hide Dropping, Indexing, Flushing;
  }

  /** Where a step on the table or a read for a load leaves its coroutine. */
  ghost predicate Continues(cfg: Config, s: State, e: Effect, pc': Pc) {
    && (e.Deletes? ==> DropOf(pc') == Some(e.id))
    && (e.Empties? ==> pc'.FlushReset?)
    && (e.Commits? ==> pc'.WriteIndex? && pc'.id == e.id)
    && (pc'.WriteIndex? ==> e.Commits? && pc'.id == e.id)
    && (pc'.LoadInstall? ==> e.Quiet? && pc'.rows == s.db)
  }

  lemma LoadingContinues(cfg: Config, s: State, p: nat, c: Choice, s': State)
    requires c.Resume? && p in s.procs && RowParallel(s.index) && ResumesLoading(cfg, s, p, c, s')
    ensures Continues(cfg, s, EffectOf(cfg, s, s.procs[p], c), s'.procs[p])
  {
    hide Mirrors, RowParallel, IsArgMax;
  }

  lemma OthersContinue(cfg: Config, s: State, p: nat, c: Choice, s': State)
    requires c.Resume? && p in s.procs && RowParallel(s.index)
    requires || ResumesLookup(cfg, s, p, s') || ResumesWriteStart(cfg, s, p, c, s')
             || ResumesWriteEnd(cfg, s, p, c, s') || ResumesDelete(cfg, s, p, s')
    ensures Continues(cfg, s, EffectOf(cfg, s, s.procs[p], c), s'.procs[p])
  {
    hide RowParallel, Drop, Append, Owner;
  }

  lemma StepContinues(cfg: Config, s: State, p: nat, c: Choice, s': State)
    requires Step(cfg, s, p, c, s') && p in s'.procs
    ensures Continues(cfg, s, StepEffect(cfg, s, p, c), s'.procs[p])
  {
    hide ResumesLoading, ResumesLookup, ResumesWriteStart, ResumesWriteEnd, ResumesDelete, EffectOf, Continues;
    if c.Resume? {
      if ResumesLoading(cfg, s, p, c, s') { LoadingContinues(cfg, s, p, c, s'); }
      else { OthersContinue(cfg, s, p, c, s'); }
    } else {
      assert Continues(cfg, s, Quiet, s'.procs[p]) by { StartsQuietly(cfg, s, s'.procs[p]); }
    }
  }

  lemma StartsQuietly(cfg: Config, s: State, pc: Pc)
    requires Starts(pc) || pc.Missed?
    ensures Continues(cfg, s, Quiet, pc)
  {
  }

  /** A reset waits for the lock. */
  lemma ResetWaits(cfg: Config, s: State, p: nat, c: Choice, s': State)
    requires Step(cfg, s, p, c, s') && c.Resume? && s.procs[p].FlushReset?
    ensures s.lock == None
  {
  }

  /** What a step leaves for the run theorem to work with. */
  ghost predicate Stepped(cfg: Config, s: State, p: nat, c: Choice, s': State) {
    && LockSound(s) && AllKnow(cfg, s) && (!s.loaded ==> s.index == EMPTY)
    && Moved(s, p, s') && Careful(s, p, c)
    && Effected(cfg, s, StepEffect(cfg, s, p, c), s')
    && Continues(cfg, s, StepEffect(cfg, s, p, c), s'.procs[p])
    && (p in s.procs ==> !c.Spawn? && (c.Resume? && s.procs[p].FlushReset? ==> s.lock == None))
  }

  lemma StepIsStepped(cfg: Config, s: State, p: nat, c: Choice, s': State)
    requires Inv(cfg, s) && AllKnow(cfg, s) && Step(cfg, s, p, c, s') && Careful(s, p, c)
    ensures Stepped(cfg, s, p, c, s')
  {
    StepHasEffect(cfg, s, p, c, s');
    assert LockSound(s) && (!s.loaded ==> s.index == EMPTY);
    StepContinues(cfg, s, p, c, s');
    if c.Resume? && p in s.procs && s.procs[p].FlushReset? { ResetWaits(cfg, s, p, c, s'); }
    hide Step, Inv, Effected, Continues, EffectOf, Careful;
  }

  // ------------------------------------------------------------------ what is about to be brought

  /** A flush under way waits for whoever holds the lock. */
  lemma FlushWaits(cfg: Config, s: State, p: nat, c: Choice, s': State)
    requires Stepped(cfg, s, p, c, s') && s.lock.Some?
    ensures Flushing(s) ==> Flushing(s')
  {
    PendingMoves(s, p, s');
    hide Effected, Continues, EffectOf, AllKnow, LockSound, Flushing;
  }

  lemma FlushStarts(cfg: Config, s: State, p: nat, c: Choice, s': State)
    requires Stepped(cfg, s, p, c, s') && StepEffect(cfg, s, p, c).Empties?
    ensures Flushing(s')
  {
    hide Effected, EffectOf, AllKnow, LockSound, Careful;
  }

  lemma HolderSpared(cfg: Config, s: State, p: nat, c: Choice, s': State, q: nat)
    requires Stepped(cfg, s, p, c, s') && q in s.procs && q != p && (s.procs[q].LoadInstall? || s.procs[q].WriteIndex?)
    ensures s.lock == Some(q)
    ensures || SameListings(cfg, s.db, s'.db)
            || StepEffect(cfg, s, p, c).Empties?
            || (StepEffect(cfg, s, p, c).Deletes? && Undisturbed(s, StepEffect(cfg, s, p, c).id))
    ensures Effected(cfg, s, StepEffect(cfg, s, p, c), s')
  {
    hide Mirrors, RowParallel, Drop, Append, AllKnow, Undisturbed, Logged, Continues;
  }

  lemma BringsStill(cfg: Config, s: State, p: nat, c: Choice, s': State, q: nat)
    requires Stepped(cfg, s, p, c, s') && q in s.procs && q != p && Brings(cfg, s, s.procs[q])
    ensures Brings(cfg, s', s.procs[q])
  {
    hide Stepped, Flushing, StepEffect;
    if s.procs[q].LoadInstall? || s.procs[q].WriteIndex? {
      HolderSpared(cfg, s, p, c, s', q);
      FlushWaits(cfg, s, p, c, s');
      if StepEffect(cfg, s, p, c).Empties? { FlushStarts(cfg, s, p, c, s'); }
    }
  }

  lemma BringsNew(cfg: Config, s: State, p: nat, c: Choice, s': State)
    requires Stepped(cfg, s, p, c, s')
    ensures Brings(cfg, s', s'.procs[p])
  {
    hide Mirrors, RowParallel, Drop, Append, AllKnow, Dropping, Indexing, Logged, Flushing, Moved, Careful, LockSound;
  }

  // ------------------------------------------------------------------ what the index shows

  ghost predicate ViewNear(cfg: Config, s: State) {
    s.loaded ==> exists v: Table :: Mirrors(cfg, s.index, v) && Near(cfg, s, v)
  }

  /** A step that leaves the index alone, or installs a load, ends nothing that was pending. */
  lemma KeepsPending(cfg: Config, s: State, p: nat, c: Choice, s': State)
    requires Stepped(cfg, s, p, c, s')
    requires var e := StepEffect(cfg, s, p, c); e.Quiet? || e.Deletes? || e.Empties? || e.Commits? || e.Installs?
    ensures Keeps(s, s')
  {
    PendingMoves(s, p, s');
    hide Keeps, Effected, Continues, AllKnow, LockSound;
  }

  lemma TableViewNear(cfg: Config, s: State, p: nat, c: Choice, s': State)
    requires Stepped(cfg, s, p, c, s') && ViewNear(cfg, s)
    requires var e := StepEffect(cfg, s, p, c); e.Quiet? || e.Deletes? || e.Empties? || e.Commits?
    ensures ViewNear(cfg, s')
  {
    var e := StepEffect(cfg, s, p, c);
    KeepsPending(cfg, s, p, c, s');
    assert s'.index == s.index && s'.loaded == s.loaded && Continues(cfg, s, e, s'.procs[p]) && Effected(cfg, s, e, s');
    assert p in s'.procs;
    hide Stepped, StepEffect, Keeps, Near, Dropping, Indexing, Flushing, Mirrors;
    if s.loaded {
      var v: Table :| Mirrors(cfg, s.index, v) && Near(cfg, s, v);
      match e
      case Deletes(id) =>
        assert Dropping(s', id) by { ProcDrops(s', p, id); }
        NearDeleted(cfg, s, s', v, id);
      case Empties => FlushStarts(cfg, s, p, c, s'); NearEmptied(cfg, s, s', v);
      case Commits(id, row) =>
        assert Indexing(s', id) by { ProcIndexes(s', p); }
        NearCommitted(cfg, s, s', v, id, row);
      case _ => NearSame(cfg, s, s', v);
    }
  }

  lemma ProcDrops(s: State, p: nat, id: EntryId)
    requires p in s.procs && DropOf(s.procs[p]) == Some(id)
    ensures Dropping(s, id)
  {
  }

  lemma ProcIndexes(s: State, p: nat)
    requires p in s.procs && s.procs[p].WriteIndex?
    ensures Indexing(s, s.procs[p].id)
  {
  }

  /** What holds when an entry is about to be dropped: it is gone, and only its drop stops pending. */
  lemma DropFacts(cfg: Config, s: State, p: nat, c: Choice, s': State)
    requires Stepped(cfg, s, p, c, s') && StepEffect(cfg, s, p, c).Drops?
    ensures var e := StepEffect(cfg, s, p, c);
            && Effected(cfg, s, e, s') && e.id !in s.db
            && (forall x :: Dropping(s, x) ==> Dropping(s', x) || x == e.id)
            && (forall x :: Indexing(s, x) ==> Indexing(s', x))
            && (Flushing(s) ==> Flushing(s'))
  {
    PendingMoves(s, p, s');
    assert Knows(cfg, s.db, s.log, s.procs[p]);
    hide Effected, Dropping, Indexing, Flushing, Continues;
  }

  lemma DropViewNear(cfg: Config, s: State, p: nat, c: Choice, s': State)
    requires Stepped(cfg, s, p, c, s') && ViewNear(cfg, s) && StepEffect(cfg, s, p, c).Drops?
    ensures ViewNear(cfg, s')
  {
    var id := StepEffect(cfg, s, p, c).id;
    DropFacts(cfg, s, p, c, s');
    hide Stepped, StepEffect, Near, Dropping, Indexing, Flushing, Mirrors, Drop;
    if s.loaded {
      var v: Table :| Mirrors(cfg, s.index, v) && Near(cfg, s, v);
      MirrorsDrop(cfg, s.index, v, id);
      NearDropped(cfg, s, s', v, id);
    }
  }

  lemma InstallViewNear(cfg: Config, s: State, p: nat, c: Choice, s': State)
    requires Stepped(cfg, s, p, c, s') && Tracks(cfg, s) && StepEffect(cfg, s, p, c).Installs?
    ensures ViewNear(cfg, s')
  {
    var rows := StepEffect(cfg, s, p, c).rows;
    KeepsPending(cfg, s, p, c, s');
    assert Brings(cfg, s, s.procs[p]) && Fits(cfg, s, rows) && Effected(cfg, s, Installs(rows), s');
    hide Stepped, StepEffect, Near, Dropping, Indexing, Flushing, Mirrors, Fits;
    NearInstalled(cfg, s, s', rows);
  }

  /** What holds when a write is about to list its entry. */
  lemma ListFacts(cfg: Config, s: State, p: nat, c: Choice, s': State)
    requires Stepped(cfg, s, p, c, s') && Tracks(cfg, s) && StepEffect(cfg, s, p, c).Lists?
    ensures var e := StepEffect(cfg, s, p, c);
            && Effected(cfg, s, e, s')
            && (e.id in s.db || Flushing(s))
            && (e.id in s.db ==> ListingOf(cfg, s.db[e.id]) == Listing(e.text, cfg.unit(e.embedding), e.manifest))
            && (forall x :: Indexing(s, x) ==> x == e.id)
            && (forall x :: Dropping(s, x) ==> Dropping(s', x))
            && (Flushing(s) ==> Flushing(s'))
            && (!s.loaded ==> s.db.Keys <= {e.id} && s.index == EMPTY)
  {
    PendingMoves(s, p, s');
    assert Brings(cfg, s, s.procs[p]) && Knows(cfg, s.db, s.log, s.procs[p]);
    hide Effected, Dropping, Flushing, Continues, Tracks;
  }

  lemma ListViewNear(cfg: Config, s: State, p: nat, c: Choice, s': State)
    requires Stepped(cfg, s, p, c, s') && Tracks(cfg, s) && StepEffect(cfg, s, p, c).Lists?
    ensures ViewNear(cfg, s')
  {
    var e := StepEffect(cfg, s, p, c);
    var row := Row("", e.text, e.embedding, "", e.manifest, 0, 0, None);
    ListFacts(cfg, s, p, c, s');
    hide Stepped, StepEffect, Near, Dropping, Indexing, Flushing, Drop, Append, Brings;
    if s.loaded {
      var v: Table :| Mirrors(cfg, s.index, v) && Near(cfg, s, v);
      hide Mirrors, RowParallel;
      MirrorsListed(cfg, s.index, v, e.id, row);
      NearListed(cfg, s, s', v, e.id, row);
    } else {
      assert Mirrors(cfg, s.index, map[]);
      hide Mirrors, RowParallel;
      MirrorsListed(cfg, s.index, map[], e.id, row);
      NearLone(cfg, s, s', e.id, row);
    }
  }

  /** Dropping an id and listing a row under it is storing the row. */
  lemma MirrorsListed(cfg: Config, ix: Index, table: Table, id: EntryId, row: Row)
    requires Mirrors(cfg, ix, table)
    ensures RowParallel(ix)
    ensures Mirrors(cfg, Append(cfg, Drop(ix, id), id, row.queryText, row.embedding, Some(row.manifest)),
                    table[id := row])
  {
    MirrorsDrop(cfg, ix, table, id);
    MirrorsStore(cfg, Drop(ix, id), table, id, row);
  }

  lemma TracksStep(cfg: Config, s: State, p: nat, c: Choice, s': State)
    requires Stepped(cfg, s, p, c, s') && Tracks(cfg, s)
    ensures Tracks(cfg, s')
  {
    assert ViewNear(cfg, s);
    forall q | q in s'.procs ensures Brings(cfg, s', s'.procs[q]) {
      if q == p { BringsNew(cfg, s, p, c, s'); } else { BringsStill(cfg, s, p, c, s', q); }
    }
    assert StepEffect(cfg, s, p, c).Resets? ==> !s'.loaded;
    hide Stepped, Brings, StepEffect, Near, Mirrors;
    match StepEffect(cfg, s, p, c)
    case Drops(_) => DropViewNear(cfg, s, p, c, s');
    case Installs(_) => InstallViewNear(cfg, s, p, c, s');
    case Lists(_, _, _, _) => ListViewNear(cfg, s, p, c, s');
    case Resets =>
    case _ => TableViewNear(cfg, s, p, c, s');
  }

  ghost predicate CarefulNext(cfg: Config, s: State, s': State) {
    exists p, c :: Step(cfg, s, p, c, s') && Careful(s, p, c)
  }

  ghost predicate CarefulRun(cfg: Config, trace: seq<State>) {
    && |trace| > 0 && Init(cfg, trace[0])
    && forall k :: 0 <= k < |trace| - 1 ==> CarefulNext(cfg, trace[k], trace[k + 1])
  }

  lemma {:induction false} CarefulTracks(cfg: Config, trace: seq<State>, n: nat)
    requires HashInjective(cfg) && CarefulRun(cfg, trace) && n < |trace|
    ensures Inv(cfg, trace[n]) && AllKnow(cfg, trace[n]) && Tracks(cfg, trace[n])
  {
    if n == 0 {
      InitInv(cfg, trace[0]);
    } else {
      CarefulTracks(cfg, trace, n - 1);
      assert CarefulNext(cfg, trace[n - 1], trace[n - 1 + 1]);
      var p, c :| Step(cfg, trace[n - 1], p, c, trace[n]) && Careful(trace[n - 1], p, c);
      hide *;
      StepInv(cfg, trace[n - 1], p, c, trace[n]);
      StepKnows(cfg, trace[n - 1], p, c, trace[n]);
      StepIsStepped(cfg, trace[n - 1], p, c, trace[n]);
      TracksStep(cfg, trace[n - 1], p, c, trace[n]);
    }
  }

  /** In a careful run a loaded index with no index step pending is a view of the table. */
  lemma CarefulRunsAgree(cfg: Config, trace: seq<State>, n: nat)
    requires HashInjective(cfg) && CarefulRun(cfg, trace) && n < |trace|
    requires trace[n].loaded && forall q :: q in trace[n].procs ==> !Pending(trace[n].procs[q])
    ensures Mirrors(cfg, trace[n].index, trace[n].db)
  {
    CarefulTracks(cfg, trace, n);
    hide *;
    SettledAgrees(cfg, trace[n]);
  }

  lemma SettledAgrees(cfg: Config, s: State)
    requires Tracks(cfg, s) && s.loaded && forall q :: q in s.procs ==> !Pending(s.procs[q])
    ensures Mirrors(cfg, s.index, s.db)
  {
    hide Mirrors, Brings, Near;
    var v: Table :| Mirrors(cfg, s.index, v) && Near(cfg, s, v);
    NearestIsSame(cfg, s, v);
    MirrorsSame(cfg, s.index, v, s.db);
  }

  lemma NearestIsSame(cfg: Config, s: State, v: Table)
    requires Near(cfg, s, v) && forall q :: q in s.procs ==> !Pending(s.procs[q])
    ensures SameListings(cfg, v, s.db)
  {
    assert forall id :: !Dropping(s, id) && !Indexing(s, id);
    assert !Flushing(s);
    hide Dropping, Indexing, Flushing;
  }

  const PLAIN := Config(v => v, v => false, (a, b) => 1.0, t => t, t => {}, 1.0, 1)

  const LONE_ROW := Row("q", "q", [], "a", "m", 0, 0, None)

  const ASKS := Lookup("q", [])

  /** A first load by coroutine 0 and a poison delete of the only row by coroutine 1. */
  function PhantomState(loader: Option<Pc>, deleter: Option<Pc>, db: Table): State {
    var procs: map<nat, Pc> := if loader.None? then map[] else if deleter.None? then map[0 := loader.value]
                               else map[0 := loader.value, 1 := deleter.value];
    State(db, EMPTY, false,
          if loader.None? || loader.value.Ready? || loader.value.LoadManifest? then None else Some("m"),
          if loader.None? || loader.value.Ready? then None else Some(0),
          procs, {VersionOf(0, LONE_ROW)})
  }

  const LONE_TABLE: Table := map[0 := LONE_ROW]

  lemma PhantomLoads()
    ensures Next(PLAIN, PhantomState(None, None, LONE_TABLE), PhantomState(Some(Ready(ASKS)), None, LONE_TABLE))
    ensures Next(PLAIN, PhantomState(Some(Ready(ASKS)), None, LONE_TABLE),
                 PhantomState(Some(LoadManifest(ASKS)), None, LONE_TABLE))
    ensures Next(PLAIN, PhantomState(Some(LoadManifest(ASKS)), None, LONE_TABLE),
                 PhantomState(Some(LoadRows(ASKS)), None, LONE_TABLE))
    ensures Next(PLAIN, PhantomState(Some(LoadRows(ASKS)), None, LONE_TABLE),
                 PhantomState(Some(LoadInstall(ASKS, LONE_TABLE)), None, LONE_TABLE))
  {
    hide ResumesLookup, ResumesWriteStart, ResumesWriteEnd, ResumesDelete;
    var go := Resume("m", 0, 0);
    var s0, s1 := PhantomState(None, None, LONE_TABLE), PhantomState(Some(Ready(ASKS)), None, LONE_TABLE);
    var s2 := PhantomState(Some(LoadManifest(ASKS)), None, LONE_TABLE);
    var s3 := PhantomState(Some(LoadRows(ASKS)), None, LONE_TABLE);
    var s4 := PhantomState(Some(LoadInstall(ASKS, LONE_TABLE)), None, LONE_TABLE);
    assert s1.procs == s0.procs[0 := Ready(ASKS)] && s2.procs == s1.procs[0 := LoadManifest(ASKS)];
    assert s3.procs == s2.procs[0 := LoadRows(ASKS)] && s4.procs == s3.procs[0 := LoadInstall(ASKS, LONE_TABLE)];
    assert Step(PLAIN, s0, 0, Spawn(Ready(ASKS)), s1);
    assert Step(PLAIN, s1, 0, go, s2) && Step(PLAIN, s2, 0, go, s3) && Step(PLAIN, s3, 0, go, s4);
  }

  lemma PhantomFinds(loader: Pc)
    requires loader == LoadInstall(ASKS, LONE_TABLE)
    ensures Next(PLAIN, PhantomState(Some(loader), None, LONE_TABLE),
                 PhantomState(Some(loader), Some(DeleteFind("q")), LONE_TABLE))
    ensures Next(PLAIN, PhantomState(Some(loader), Some(DeleteFind("q")), LONE_TABLE),
                 PhantomState(Some(loader), Some(DeleteCommit(0)), LONE_TABLE))
  {
    hide ResumesLookup, ResumesWriteStart, ResumesWriteEnd, ResumesLoading;
    var s4, s5 := PhantomState(Some(loader), None, LONE_TABLE),
      PhantomState(Some(loader), Some(DeleteFind("q")), LONE_TABLE);
    var s6 := PhantomState(Some(loader), Some(DeleteCommit(0)), LONE_TABLE);
    assert s5.procs == s4.procs[1 := DeleteFind("q")] && s6.procs == s5.procs[1 := DeleteCommit(0)];
    assert Owner(PLAIN, s5.db, "q", Some(0));
    assert Step(PLAIN, s4, 1, Spawn(DeleteFind("q")), s5);
    assert Step(PLAIN, s5, 1, Resume("m", 0, 0), s6);
  }

  lemma PhantomDeletes(loader: Pc)
    requires loader == LoadInstall(ASKS, LONE_TABLE)
    ensures Next(PLAIN, PhantomState(Some(loader), Some(DeleteCommit(0)), LONE_TABLE),
                 PhantomState(Some(loader), Some(DeleteDrop(0)), map[]))
    ensures Next(PLAIN, PhantomState(Some(loader), Some(DeleteDrop(0)), map[]),
                 PhantomState(Some(loader), Some(Missed), map[]))
  {
    hide ResumesLookup, ResumesWriteStart, ResumesWriteEnd, ResumesLoading;
    var s6, s7 := PhantomState(Some(loader), Some(DeleteCommit(0)), LONE_TABLE),
      PhantomState(Some(loader), Some(DeleteDrop(0)), map[]);
    var s8 := PhantomState(Some(loader), Some(Missed), map[]);
    assert s7.procs == s6.procs[1 := DeleteDrop(0)] && s8.procs == s7.procs[1 := Missed];
    assert s6.db - {0} == map[];
    assert Step(PLAIN, s6, 1, Resume("m", 0, 0), s7);
    assert Step(PLAIN, s7, 1, Resume("m", 0, 0), s8);
  }

  lemma PhantomInstalls(s: State, s': State)
    requires s == PhantomState(Some(LoadInstall(ASKS, LONE_TABLE)), Some(Missed), map[])
    requires s' == Move(Release(s).(index := Append(PLAIN, EMPTY, 0, "q", [], Some("m")), loaded := true), 0,
                        Ready(ASKS))
    ensures Next(PLAIN, s, s') && s'.index.ids == [0] && s'.db == map[]
    ensures s'.procs == map[0 := Ready(ASKS), 1 := Missed]
  {
    hide ResumesLookup, ResumesWriteStart, ResumesWriteEnd, ResumesDelete;
    assert Mirrors(PLAIN, s'.index, LONE_TABLE);
    assert Step(PLAIN, s, 0, Resume("m", 0, 0), s');
  }

  ghost predicate Reachable(cfg: Config, s: State) {
    exists trace :: Run(cfg, trace) && trace[|trace| - 1] == s
  }

  lemma ReachableStep(cfg: Config, s: State, s': State)
    requires Reachable(cfg, s) && Next(cfg, s, s')
    ensures Reachable(cfg, s')
  {
    var trace :| Run(cfg, trace) && trace[|trace| - 1] == s;
    var longer := trace + [s'];
    hide Next, Init;
    assert Run(cfg, longer) && longer[|longer| - 1] == s';
  }

  lemma PhantomLoadReachable()
    ensures Reachable(PLAIN, PhantomState(Some(LoadInstall(ASKS, LONE_TABLE)), None, LONE_TABLE))
  {
    var s0 := PhantomState(None, None, LONE_TABLE);
    PhantomLoads();
    assert Run(PLAIN, [s0]) && [s0][|[s0]| - 1] == s0;
    hide Next, PhantomState, Reachable;
    ReachableStep(PLAIN, s0, PhantomState(Some(Ready(ASKS)), None, LONE_TABLE));
    ReachableStep(PLAIN, PhantomState(Some(Ready(ASKS)), None, LONE_TABLE),
                  PhantomState(Some(LoadManifest(ASKS)), None, LONE_TABLE));
    ReachableStep(PLAIN, PhantomState(Some(LoadManifest(ASKS)), None, LONE_TABLE),
                  PhantomState(Some(LoadRows(ASKS)), None, LONE_TABLE));
    ReachableStep(PLAIN, PhantomState(Some(LoadRows(ASKS)), None, LONE_TABLE),
                  PhantomState(Some(LoadInstall(ASKS, LONE_TABLE)), None, LONE_TABLE));
  }

  lemma PhantomDeleteReachable(loader: Pc)
    requires loader == LoadInstall(ASKS, LONE_TABLE)
    ensures Reachable(PLAIN, PhantomState(Some(loader), Some(Missed), map[]))
  {
    PhantomLoadReachable();
    PhantomFinds(loader);
    PhantomDeletes(loader);
    hide Next, PhantomState, Reachable;
    ReachableStep(PLAIN, PhantomState(Some(loader), None, LONE_TABLE),
                  PhantomState(Some(loader), Some(DeleteFind("q")), LONE_TABLE));
    ReachableStep(PLAIN, PhantomState(Some(loader), Some(DeleteFind("q")), LONE_TABLE),
                  PhantomState(Some(loader), Some(DeleteCommit(0)), LONE_TABLE));
    ReachableStep(PLAIN, PhantomState(Some(loader), Some(DeleteCommit(0)), LONE_TABLE),
                  PhantomState(Some(loader), Some(DeleteDrop(0)), map[]));
    ReachableStep(PLAIN, PhantomState(Some(loader), Some(DeleteDrop(0)), map[]),
                  PhantomState(Some(loader), Some(Missed), map[]));
  }

  /** Drift is reachable, and no pending drop is left to repair it, even though every load starts
      from the table: a question deleted while another request's first load is between reading the
      rows and installing them stays listed. */
  lemma PhantomReachable()
    ensures HashInjective(PLAIN)
    ensures exists s :: Reachable(PLAIN, s) && s.index.ids == [0] && s.db == map[]
                        && s.procs == map[0 := Ready(ASKS), 1 := Missed] && !Agrees(PLAIN, s)
  {
    var loader := LoadInstall(ASKS, LONE_TABLE);
    var s8 := PhantomState(Some(loader), Some(Missed), map[]);
    var s9 := Move(Release(s8).(index := Append(PLAIN, EMPTY, 0, "q", [], Some("m")), loaded := true), 0, Ready(ASKS));
    PhantomDeleteReachable(loader);
    PhantomInstalls(s8, s9);
    assert !Agrees(PLAIN, s9) by { assert 0 in s9.index.ids && 0 !in s9.db; }
    hide Next, PhantomState, Reachable, Agrees;
    ReachableStep(PLAIN, s8, s9);
  }

  // ------------------------------------------------------------------ a row committed and never listed

  const SAYS := Write("q", [], "a")

  /** A first write by coroutine 0, the only one. */
  function Writer(loaded: bool, holds: bool, manifest: Option<string>, db: Table, pc: Pc): State {
    State(db, EMPTY, loaded, manifest, if holds then Some(0) else None, map[0 := pc],
          if db == map[] then {} else {VersionOf(0, LONE_ROW)})
  }

  const NOTHING := State(map[], EMPTY, false, None, None, map[], {})

  lemma WriterLoads()
    ensures Next(PLAIN, NOTHING, Writer(false, false, None, map[], Ready(SAYS)))
    ensures Next(PLAIN, Writer(false, false, None, map[], Ready(SAYS)),
                 Writer(false, true, None, map[], LoadManifest(SAYS)))
    ensures Next(PLAIN, Writer(false, true, None, map[], LoadManifest(SAYS)),
                 Writer(false, true, Some("m"), map[], LoadRows(SAYS)))
    ensures Next(PLAIN, Writer(false, true, Some("m"), map[], LoadRows(SAYS)),
                 Writer(false, true, Some("m"), map[], LoadInstall(SAYS, map[])))
    ensures Next(PLAIN, Writer(false, true, Some("m"), map[], LoadInstall(SAYS, map[])),
                 Writer(true, false, Some("m"), map[], Ready(SAYS)))
  {
    hide ResumesLookup, ResumesWriteStart, ResumesWriteEnd, ResumesDelete;
    var go := Resume("m", 0, 0);
    var s0, s1 := NOTHING, Writer(false, false, None, map[], Ready(SAYS));
    var s2 := Writer(false, true, None, map[], LoadManifest(SAYS));
    var s3 := Writer(false, true, Some("m"), map[], LoadRows(SAYS));
    var s4 := Writer(false, true, Some("m"), map[], LoadInstall(SAYS, map[]));
    var s5 := Writer(true, false, Some("m"), map[], Ready(SAYS));
    assert s1.procs == s0.procs[0 := Ready(SAYS)] && s2.procs == s1.procs[0 := LoadManifest(SAYS)];
    assert s3.procs == s2.procs[0 := LoadRows(SAYS)] && s4.procs == s3.procs[0 := LoadInstall(SAYS, map[])];
    assert s5.procs == s4.procs[0 := Ready(SAYS)] && Mirrors(PLAIN, EMPTY, map[]);
    assert Step(PLAIN, s0, 0, Spawn(Ready(SAYS)), s1);
    assert Step(PLAIN, s1, 0, go, s2) && Step(PLAIN, s2, 0, go, s3) && Step(PLAIN, s3, 0, go, s4);
    assert Step(PLAIN, s4, 0, go, s5);
  }

  lemma WriterFinds()
    ensures Next(PLAIN, Writer(true, false, Some("m"), map[], Ready(SAYS)),
                 Writer(true, false, Some("m"), map[], WriteWaiting("q", [], "a")))
    ensures Next(PLAIN, Writer(true, false, Some("m"), map[], WriteWaiting("q", [], "a")),
                 Writer(true, true, Some("m"), map[], WriteFind("q", [], "a")))
    ensures Next(PLAIN, Writer(true, true, Some("m"), map[], WriteFind("q", [], "a")),
                 Writer(true, true, Some("m"), map[], WriteCommit("q", [], "a", None)))
  {
    hide ResumesLookup, ResumesWriteEnd, ResumesDelete;
    var go := Resume("m", 0, 0);
    var s5 := Writer(true, false, Some("m"), map[], Ready(SAYS));
    var s6 := Writer(true, false, Some("m"), map[], WriteWaiting("q", [], "a"));
    var s7 := Writer(true, true, Some("m"), map[], WriteFind("q", [], "a"));
    var s8 := Writer(true, true, Some("m"), map[], WriteCommit("q", [], "a", None));
    assert s6.procs == s5.procs[0 := WriteWaiting("q", [], "a")] && s7.procs == s6.procs[0 := WriteFind("q", [], "a")];
    assert s8.procs == s7.procs[0 := WriteCommit("q", [], "a", None)] && Owner(PLAIN, map[], "q", None);
    assert Step(PLAIN, s5, 0, go, s6) && Step(PLAIN, s6, 0, go, s7) && Step(PLAIN, s7, 0, go, s8);
  }

  lemma WriterIsLost()
    ensures Next(PLAIN, Writer(true, true, Some("m"), map[], WriteCommit("q", [], "a", None)),
                 Writer(true, true, Some("m"), LONE_TABLE, WriteIndex("q", [], "a", 0, "m")))
    ensures Next(PLAIN, Writer(true, true, Some("m"), LONE_TABLE, WriteIndex("q", [], "a", 0, "m")),
                 Writer(true, false, Some("m"), LONE_TABLE, Missed))
  {
    hide ResumesLoading, ResumesLookup, ResumesWriteStart, ResumesDelete;
    var s8 := Writer(true, true, Some("m"), map[], WriteCommit("q", [], "a", None));
    var s9 := Writer(true, true, Some("m"), LONE_TABLE, WriteIndex("q", [], "a", 0, "m"));
    var s10 := Writer(true, false, Some("m"), LONE_TABLE, Missed);
    assert s9.procs == s8.procs[0 := WriteIndex("q", [], "a", 0, "m")] && s10.procs == s9.procs[0 := Missed];
    var none: Table := map[];
    assert LONE_TABLE == none[0 := LONE_ROW] && 0 in LONE_TABLE && s9.log == s8.log + {VersionOf(0, LONE_ROW)};
    assert Step(PLAIN, s8, 0, Resume("m", 0, 0), s9);
    assert Step(PLAIN, s9, 0, Raise, s10);
  }

  lemma StartReachable(cfg: Config, s: State)
    requires Init(cfg, s)
    ensures Reachable(cfg, s)
  {
    assert Run(cfg, [s]) && [s][|[s]| - 1] == s;
  }

  lemma WriterReachable()
    ensures Reachable(PLAIN, Writer(true, false, Some("m"), LONE_TABLE, Missed))
  {
    StartReachable(PLAIN, NOTHING);
    WriterLoads();
    WriterFinds();
    WriterIsLost();
    hide *;
    ReachableStep(PLAIN, NOTHING, Writer(false, false, None, map[], Ready(SAYS)));
    ReachableStep(PLAIN, Writer(false, false, None, map[], Ready(SAYS)),
                  Writer(false, true, None, map[], LoadManifest(SAYS)));
    ReachableStep(PLAIN, Writer(false, true, None, map[], LoadManifest(SAYS)),
                  Writer(false, true, Some("m"), map[], LoadRows(SAYS)));
    ReachableStep(PLAIN, Writer(false, true, Some("m"), map[], LoadRows(SAYS)),
                  Writer(false, true, Some("m"), map[], LoadInstall(SAYS, map[])));
    ReachableStep(PLAIN, Writer(false, true, Some("m"), map[], LoadInstall(SAYS, map[])),
                  Writer(true, false, Some("m"), map[], Ready(SAYS)));
    ReachableStep(PLAIN, Writer(true, false, Some("m"), map[], Ready(SAYS)),
                  Writer(true, false, Some("m"), map[], WriteWaiting("q", [], "a")));
    ReachableStep(PLAIN, Writer(true, false, Some("m"), map[], WriteWaiting("q", [], "a")),
                  Writer(true, true, Some("m"), map[], WriteFind("q", [], "a")));
    ReachableStep(PLAIN, Writer(true, true, Some("m"), map[], WriteFind("q", [], "a")),
                  Writer(true, true, Some("m"), map[], WriteCommit("q", [], "a", None)));
    ReachableStep(PLAIN, Writer(true, true, Some("m"), map[], WriteCommit("q", [], "a", None)),
                  Writer(true, true, Some("m"), LONE_TABLE, WriteIndex("q", [], "a", 0, "m")));
    ReachableStep(PLAIN, Writer(true, true, Some("m"), LONE_TABLE, WriteIndex("q", [], "a", 0, "m")),
                  Writer(true, false, Some("m"), LONE_TABLE, Missed));
  }

  /** The other kind of drift is reachable too: a write cancelled after its commit leaves a loaded index,
      with nothing pending, that does not list the row. */
  lemma UnlistedReachable()
    ensures exists s :: Reachable(PLAIN, s) && s.loaded && s.lock == None && s.index == EMPTY && s.db == LONE_TABLE
                        && s.procs == map[0 := Missed] && !Agrees(PLAIN, s)
  {
    var last := Writer(true, false, Some("m"), LONE_TABLE, Missed);
    assert !Agrees(PLAIN, last) by { assert 0 in LONE_TABLE; }
    WriterReachable();
  }
}
