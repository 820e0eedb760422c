/** The cache under concurrency: any number of coroutines over one process's index and one
    table, switching only where the code awaits. Every await may also raise. */
module CacheInterleaving {
  import opened Prelude
  import opened CacheIndex

  datatype Task =
    | Lookup(text: string, asked: Vector)
    | Write(text: string, embedding: Vector, answer: Payload)

  /** Where a coroutine stands: the await it is about to come back from. */
  datatype Pc =
    | Ready(task: Task)                                            // entering `_ensure_loaded`
    | LoadManifest(task: Task)                                     // lock held
    | LoadRows(task: Task)                                         // lock held
    | LoadInstall(task: Task, rows: Table)                         // lock held, rows already read
    | Matched(text: string, asked: Vector, id: EntryId)            // accepted, row not yet read
    | Counting(text: string, asked: Vector, id: EntryId, row: Row) // row read, counters not committed
    | EvictRead(id: EntryId)
    | EvictCommit(id: EntryId)
    | EvictDrop(id: EntryId)
    | WriteWaiting(text: string, embedding: Vector, answer: Payload)
    | WriteFind(text: string, embedding: Vector, answer: Payload)                              // lock held
    | WriteVictim(text: string, embedding: Vector, answer: Payload)                            // lock held
    | WriteEvict(text: string, embedding: Vector, answer: Payload, victim: EntryId)            // lock held
    | WriteEvictDrop(text: string, embedding: Vector, answer: Payload, victim: EntryId)        // lock held
    | WriteCommit(text: string, embedding: Vector, answer: Payload, existing: Option<EntryId>) // lock held
    | WriteIndex(text: string, embedding: Vector, answer: Payload, id: EntryId, manifest: string) // lock held
    | DeleteFind(text: string)
    | DeleteCommit(id: EntryId)
    | DeleteDrop(id: EntryId)
    | FlushCommit
    | FlushReset
    | Missed
    | Served(text: string, asked: Vector, id: EntryId, answer: Payload)

  /** One committed state of one entry. */
  datatype Version = Version(id: EntryId, text: string, embedding: Vector, answer: Payload, manifest: string)

  function VersionOf(id: EntryId, row: Row): Version {
    Version(id, row.queryText, row.embedding, row.answer, row.manifest)
  }

  /** `log` is history, never read by a step: every version ever committed. */
  datatype State = State(
    db: Table, index: Index, loaded: bool, manifest: Option<string>,
    lock: Option<nat>, procs: map<nat, Pc>, log: set<Version>)

  predicate Holds(pc: Pc) {
    || pc.LoadManifest? || pc.LoadRows? || pc.LoadInstall?
    || pc.WriteFind? || pc.WriteVictim? || pc.WriteEvict? || pc.WriteEvictDrop? || pc.WriteCommit? || pc.WriteIndex?
  }

  /** How an operation starts. */
  predicate Starts(pc: Pc) {
    pc.Ready? || pc.DeleteFind? || pc.FlushCommit? || pc.FlushReset?
  }

  predicate Finished(pc: Pc) {
    pc.Missed? || pc.Served?
  }

  /** What the environment decides in a step: the index found at load, the id the database mints,
      the coldest row it reports. */
  datatype Choice = Spawn(pc: Pc) | Raise | Resume(indexed: string, minted: EntryId, victim: EntryId)

  function Move(s: State, p: nat, pc: Pc): State {
    s.(procs := s.procs[p := pc])
  }

  function Acquire(s: State, p: nat): State { s.(lock := Some(p)) }

  function Release(s: State): State { s.(lock := None) }

  function CosineAt(cfg: Config, ix: Index, i: nat, asked: Vector): real
    requires i < |ix.vectors|
  {
    cfg.dot(ix.vectors[i], cfg.unit(asked))
  }

  /** First position of the largest similarity. */
  ghost predicate IsArgMax(cfg: Config, ix: Index, asked: Vector, best: nat)
    requires RowParallel(ix)
  {
    && best < |ix.ids|
    && (forall j :: 0 <= j < |ix.ids| ==> CosineAt(cfg, ix, j, asked) <= CosineAt(cfg, ix, best, asked))
    && (forall j :: 0 <= j < best ==> CosineAt(cfg, ix, j, asked) < CosineAt(cfg, ix, best, asked))
  }

  /** The part of a lookup that runs without awaiting, ending where the coroutine next waits. */
  ghost predicate Scanned(cfg: Config, s: State, text: string, asked: Vector, next: Pc)
    requires RowParallel(s.index)
  {
    if !s.loaded || s.index.ids == [] || cfg.isZero(asked) then next == Missed
    else exists best: nat :: IsArgMax(cfg, s.index, asked, best) &&
                        next == if CosineAt(cfg, s.index, best, asked) < cfg.threshold then Missed
                                else if cfg.disc(text) != s.index.discs[best] then Missed
                                else if s.index.manifests[best] != s.manifest then EvictRead(s.index.ids[best])
                                else Matched(text, asked, s.index.ids[best])
  }

  /** The row that owns a question's hash. */
  ghost predicate Owner(cfg: Config, db: Table, text: string, found: Option<EntryId>) {
    match found
    case Some(id) => id in db && db[id].queryHash == cfg.hash(text)
    case None => forall id :: id in db ==> db[id].queryHash != cfg.hash(text)
  }

  /** `_ensure_loaded` and, once loaded, the awaitless part of the operation. */
  ghost predicate ResumesLoading(cfg: Config, s: State, p: nat, c: Choice, s': State)
    requires p in s.procs && c.Resume? && RowParallel(s.index)
  {
    match s.procs[p]
    case Ready(task) =>
      if s.loaded then
        match task
        case Lookup(text, asked) => exists next :: Scanned(cfg, s, text, asked, next) && s' == Move(s, p, next)
        case Write(text, embedding, answer) => s' == Move(s, p, WriteWaiting(text, embedding, answer))
      else s.lock == None && s' == Move(Acquire(s, p), p, LoadManifest(task))
    case LoadManifest(task) => s' == Move(s.(manifest := Some(c.indexed)), p, LoadRows(task))
    case LoadRows(task) => s' == Move(s, p, LoadInstall(task, s.db))
    case LoadInstall(task, rows) =>
      exists ix :: Mirrors(cfg, ix, rows) &&
                   s' == Move(Release(s).(index := ix, loaded := true), p, Ready(task))
    case _ => false
  }

  /** The rest of a lookup: read and count a hit, or evict a stale entry. */
  ghost predicate ResumesLookup(cfg: Config, s: State, p: nat, s': State)
    requires p in s.procs && RowParallel(s.index)
  {
    match s.procs[p]
    case Matched(text, asked, id) =>
      s' == Move(s, p, if id in s.db then Counting(text, asked, id, s.db[id]) else Missed)
    case Counting(text, asked, id, row) =>
      && id in s.db
      && s' == Move(s.(db := s.db[id := s.db[id].(hits := row.hits + 1)]), p, Served(text, asked, id, row.answer))
    case EvictRead(id) => s' == Move(s, p, if id in s.db then EvictCommit(id) else EvictDrop(id))
    case EvictCommit(id) => s' == Move(s.(db := s.db - {id}), p, EvictDrop(id))
    case EvictDrop(id) => s' == Move(s.(index := Drop(s.index, id)), p, Missed)
    case _ => false
  }

  /** A write up to its commit: find the row, make room. */
  ghost predicate ResumesWriteStart(cfg: Config, s: State, p: nat, c: Choice, s': State)
    requires p in s.procs && c.Resume? && RowParallel(s.index)
  {
    match s.procs[p]
    case WriteWaiting(text, embedding, answer) =>
      s.lock == None && s' == Move(Acquire(s, p), p, WriteFind(text, embedding, answer))
    case WriteFind(text, embedding, answer) =>
      exists existing :: Owner(cfg, s.db, text, existing) &&
                         s' == Move(s, p, if existing.None? && |s.index.ids| >= cfg.maxEntries
                                    then WriteVictim(text, embedding, answer)
                                    else WriteCommit(text, embedding, answer, existing))
    case WriteVictim(text, embedding, answer) =>
      s' == Move(s, p, if c.victim in s.db then WriteEvict(text, embedding, answer, c.victim)
                       else WriteCommit(text, embedding, answer, None))
    case WriteEvict(text, embedding, answer, victim) =>
      s' == Move(s.(db := s.db - {victim}), p, WriteEvictDrop(text, embedding, answer, victim))
    case WriteEvictDrop(text, embedding, answer, victim) =>
      s' == Move(s.(index := Drop(s.index, victim)), p, WriteCommit(text, embedding, answer, None))
    case _ => false
  }

  /** A write's commit and the index update after it. */
  ghost predicate ResumesWriteEnd(cfg: Config, s: State, p: nat, c: Choice, s': State)
    requires p in s.procs && c.Resume? && RowParallel(s.index)
  {
    match s.procs[p]
    case WriteCommit(text, embedding, answer, existing) =>
      // `index_manifest_id` is NOT NULL, and an UPDATE needs its row
      && s.manifest.Some?
      && (existing.Some? ==> existing.value in s.db)
      && (existing.None? ==> c.minted !in s.db && forall v :: v in s.log ==> v.id != c.minted)
      && var id := if existing.Some? then existing.value else c.minted;
         var row := if existing.Some?
                    then s.db[id].(queryText := text, embedding := embedding, answer := answer,
                                   manifest := s.manifest.value)
                    else Row(cfg.hash(text), text, embedding, answer, s.manifest.value, 0, 0, None);
         s' == Move(s.(db := s.db[id := row], log := s.log + {VersionOf(id, row)}), p,
                    WriteIndex(text, embedding, answer, id, s.manifest.value))
    case WriteIndex(text, embedding, answer, id, manifest) =>
      s' == Move(Release(s).(index := Append(cfg, Drop(s.index, id), id, text, embedding, s.manifest), loaded := true),
                 p, Missed)
    case _ => false
  }

  /** Poison control, flush and reset. */
  ghost predicate ResumesDelete(cfg: Config, s: State, p: nat, s': State)
    requires p in s.procs && RowParallel(s.index)
  {
    match s.procs[p]
    case DeleteFind(text) =>
      exists found :: Owner(cfg, s.db, text, found) &&
                      s' == Move(s, p, if found.Some? then DeleteCommit(found.value) else Missed)
    case DeleteCommit(id) => s' == Move(s.(db := s.db - {id}), p, DeleteDrop(id))
    case DeleteDrop(id) => s' == Move(s.(index := Drop(s.index, id)), p, Missed)
    case FlushCommit => s' == Move(s.(db := map[]), p, FlushReset)
    case FlushReset =>
      s.lock == None && s' == Move(s.(index := EMPTY, loaded := false, manifest := None), p, Missed)
    case _ => false
  }

  ghost predicate Resumes(cfg: Config, s: State, p: nat, c: Choice, s': State)
    requires p in s.procs && c.Resume? && RowParallel(s.index)
  {
    || ResumesLoading(cfg, s, p, c, s')
    || ResumesLookup(cfg, s, p, s')
    || ResumesWriteStart(cfg, s, p, c, s')
    || ResumesWriteEnd(cfg, s, p, c, s')
    || ResumesDelete(cfg, s, p, s')
  }

  ghost predicate Step(cfg: Config, s: State, p: nat, c: Choice, s': State) {
    match c
    case Spawn(pc) => p !in s.procs && Starts(pc) && s' == Move(s, p, pc)
    case Raise =>
      && p in s.procs && !Finished(s.procs[p])
      && s' == Move(if Holds(s.procs[p]) then Release(s) else s, p, Missed)
    case Resume(_, _, _) => p in s.procs && RowParallel(s.index) && Resumes(cfg, s, p, c, s')
  }

  ghost predicate Next(cfg: Config, s: State, s': State) {
    exists p, c :: Step(cfg, s, p, c, s')
  }

  ghost predicate Init(cfg: Config, s: State) {
    && s.index == EMPTY && !s.loaded && s.manifest == None && s.lock == None && s.procs == map[]
    && s.log == (set id | id in s.db :: VersionOf(id, s.db[id]))
    && DbSound(cfg, s.db, s.log)
    && Unique(s.db)
  }

  // ------------------------------------------------------------------ invariant

  /** The text of an entry never changes, because its hash is its key. */
  ghost predicate LogSound(log: set<Version>) {
    forall v, w :: v in log && w in log && v.id == w.id ==> v.text == w.text
  }

  /** Every row is a committed version under the hash of its text. */
  ghost predicate DbSound(cfg: Config, db: Table, log: set<Version>) {
    forall id :: id in db ==> VersionOf(id, db[id]) in log && db[id].queryHash == cfg.hash(db[id].queryText)
  }

  /** Position `i` of all five containers comes from this one version. */
  ghost predicate Shows(cfg: Config, ix: Index, i: nat, v: Version)
    requires RowParallel(ix) && i < |ix.ids|
  {
    ix.ids[i] == v.id && Describes(cfg, ix, i, v.text, v.embedding, v.manifest)
  }

  ghost predicate Shown(cfg: Config, ix: Index, i: nat, log: set<Version>)
    requires RowParallel(ix) && i < |ix.ids|
  {
    exists v :: v in log && Shows(cfg, ix, i, v)
  }

  /** Equal lengths, distinct ids, and every position describes one committed version. */
  ghost predicate IndexSound(cfg: Config, ix: Index, log: set<Version>) {
    RowParallel(ix) && forall i :: 0 <= i < |ix.ids| ==> Shown(cfg, ix, i, log)
  }

  /** Some version of the entry was within the threshold and carries the question's discriminators. */
  ghost predicate Vetted(cfg: Config, text: string, asked: Vector, id: EntryId, log: set<Version>) {
    exists v :: v in log && v.id == id && cfg.disc(v.text) == cfg.disc(text)
                && cfg.dot(cfg.unit(v.embedding), cfg.unit(asked)) >= cfg.threshold
  }

  ghost predicate PcSound(cfg: Config, pc: Pc, log: set<Version>) {
    match pc
    case LoadInstall(_, rows) => forall id :: id in rows ==> VersionOf(id, rows[id]) in log
    case Matched(text, asked, id) => Vetted(cfg, text, asked, id, log)
    case Counting(text, asked, id, row) =>
      Vetted(cfg, text, asked, id, log) && VersionOf(id, row) in log
    case WriteCommit(text, _, _, existing) =>
      existing.Some? ==> exists v :: v in log && v.id == existing.value && v.text == text
    case WriteIndex(text, embedding, answer, id, manifest) => Version(id, text, embedding, answer, manifest) in log
    case Served(text, asked, id, answer) =>
      Vetted(cfg, text, asked, id, log) && exists v :: v in log && v.id == id && v.answer == answer
    case _ => true
  }

  ghost predicate ProcsSound(cfg: Config, procs: map<nat, Pc>, log: set<Version>) {
    forall p :: p in procs ==> PcSound(cfg, procs[p], log)
  }

  /** One holder at a time, and it still sees the manifest it wrote with. */
  ghost predicate LockSound(s: State) {
    && (forall p :: p in s.procs && Holds(s.procs[p]) ==> s.lock == Some(p))
    && (forall p :: p in s.procs && s.procs[p].WriteIndex? ==> s.manifest == Some(s.procs[p].manifest))
  }

  /** What the index, the log and the coroutines say of each other. */
  ghost predicate Coherent(cfg: Config, s: State) {
    && HashInjective(cfg)
    && LogSound(s.log)
    && DbSound(cfg, s.db, s.log)
    && IndexSound(cfg, s.index, s.log)
    && (!s.loaded ==> s.index == EMPTY)
    && ProcsSound(cfg, s.procs, s.log)
    && LockSound(s)
  }

  /** No two rows under one query hash. */
  ghost predicate Unique(db: Table) {
    forall i, j :: i in db && j in db && db[i].queryHash == db[j].queryHash ==> i == j
  }

  /** No row but `owner` has the hash, and with no owner none has. */
  ghost predicate OwnedBy(db: Table, hash: string, owner: Option<EntryId>) {
    forall id :: id in db && db[id].queryHash == hash ==> owner == Some(id)
  }

  /** What a write under way goes on believing about its question's hash: an insert has no row to
      collide with, an update has the only one. */
  ghost predicate Claims(cfg: Config, db: Table, pc: Pc) {
    match pc
    case WriteVictim(text, _, _) => OwnedBy(db, cfg.hash(text), None)
    case WriteEvict(text, _, _, _) => OwnedBy(db, cfg.hash(text), None)
    case WriteEvictDrop(text, _, _, _) => OwnedBy(db, cfg.hash(text), None)
    case WriteCommit(text, _, _, existing) => OwnedBy(db, cfg.hash(text), existing)
    case _ => true
  }

  ghost predicate Keyed(cfg: Config, s: State) {
    Unique(s.db) && forall p :: p in s.procs ==> Claims(cfg, s.db, s.procs[p])
  }

  ghost predicate Inv(cfg: Config, s: State) {
    Coherent(cfg, s) && Keyed(cfg, s)
  }

  lemma InitInv(cfg: Config, s: State)
    requires HashInjective(cfg) && Init(cfg, s)
    ensures Inv(cfg, s)
  {
  }

  lemma VettedGrows(cfg: Config, text: string, asked: Vector, id: EntryId, log: set<Version>, log': set<Version>)
    requires log <= log' && Vetted(cfg, text, asked, id, log)
    ensures Vetted(cfg, text, asked, id, log')
  {
  }

  /** Claims about history survive more history. */
  lemma PcSoundGrows(cfg: Config, pc: Pc, log: set<Version>, log': set<Version>)
    requires log <= log' && PcSound(cfg, pc, log)
    ensures PcSound(cfg, pc, log')
  {
    match pc
    case Matched(text, asked, id) => VettedGrows(cfg, text, asked, id, log, log');
    case Counting(text, asked, id, row) => VettedGrows(cfg, text, asked, id, log, log');
    case Served(text, asked, id, answer) => VettedGrows(cfg, text, asked, id, log, log');
    case _ =>
  }

  lemma IndexSoundGrows(cfg: Config, ix: Index, log: set<Version>, log': set<Version>)
    requires log <= log' && IndexSound(cfg, ix, log)
    ensures IndexSound(cfg, ix, log')
  {
    forall i | 0 <= i < |ix.ids| ensures Shown(cfg, ix, i, log') {
      assert Shown(cfg, ix, i, log);
      var v :| v in log && Shows(cfg, ix, i, v);
      assert v in log';
    }
  }

  lemma IndexSoundDrop(cfg: Config, ix: Index, id: EntryId, log: set<Version>)
    requires IndexSound(cfg, ix, log)
    ensures IndexSound(cfg, Drop(ix, id), log)
  {
    var r := Drop(ix, id);
    if id in ix.ids {
      forall i | 0 <= i < |r.ids| ensures Shown(cfg, r, i, log) {
        DropKeepsDescriptions(cfg, ix, id, i);
        var j := OldPosition(ix, id, i);
        assert Shown(cfg, ix, j, log);
        var v :| v in log && Shows(cfg, ix, j, v);
        assert Shows(cfg, r, i, v);
      }
    }
  }

  lemma IndexSoundAppend(cfg: Config, ix: Index, v: Version, log: set<Version>)
    requires IndexSound(cfg, ix, log) && v.id !in ix.ids && v in log
    ensures IndexSound(cfg, Append(cfg, ix, v.id, v.text, v.embedding, Some(v.manifest)), log)
  {
    var r := Append(cfg, ix, v.id, v.text, v.embedding, Some(v.manifest));
    forall i | 0 <= i < |r.ids| ensures Shown(cfg, r, i, log) {
      if i < |ix.ids| {
        assert Shown(cfg, ix, i, log);
        var w :| w in log && Shows(cfg, ix, i, w);
        assert Shows(cfg, r, i, w);
      } else {
        assert Shows(cfg, r, i, v);
      }
    }
  }

  lemma IndexSoundLoad(cfg: Config, ix: Index, rows: Table, log: set<Version>)
    requires Mirrors(cfg, ix, rows)
    requires forall id :: id in rows ==> VersionOf(id, rows[id]) in log
    ensures IndexSound(cfg, ix, log)
  {
    forall i | 0 <= i < |ix.ids| ensures Shown(cfg, ix, i, log) {
      assert DescribesRow(cfg, ix, i, rows[ix.ids[i]]);
      assert Shows(cfg, ix, i, VersionOf(ix.ids[i], rows[ix.ids[i]]));
    }
  }

  /** An accepted match points at a committed entry that passed both signals. */
  lemma ScanVets(cfg: Config, s: State, text: string, asked: Vector, next: Pc)
    requires IndexSound(cfg, s.index, s.log) && Scanned(cfg, s, text, asked, next)
    ensures PcSound(cfg, next, s.log) && !Holds(next) && !next.WriteIndex?
  {
    if next.Matched? {
      var best: nat :| IsArgMax(cfg, s.index, asked, best) && next == Matched(text, asked, s.index.ids[best])
                       && CosineAt(cfg, s.index, best, asked) >= cfg.threshold && cfg.disc(text) == s.index.discs[best];
      assert Shown(cfg, s.index, best, s.log);
      var v :| v in s.log && Shows(cfg, s.index, best, v);
      assert v.id == next.id;
    }
  }

  /** Moving one coroutine with the history and the lock's business unchanged. */
  lemma MoveKeepsProcs(cfg: Config, s: State, p: nat, pc: Pc, log': set<Version>)
    requires ProcsSound(cfg, s.procs, s.log) && s.log <= log' && PcSound(cfg, pc, log')
    ensures ProcsSound(cfg, s.procs[p := pc], log')
  {
    forall q | q in s.procs ensures PcSound(cfg, s.procs[q], log') {
      PcSoundGrows(cfg, s.procs[q], s.log, log');
    }
  }

  /** The two commits that write rows: the hit counters and the upsert. */
  lemma CommitSound(cfg: Config, db: Table, log: set<Version>, id: EntryId, row: Row)
    requires HashInjective(cfg) && LogSound(log) && DbSound(cfg, db, log) && row.queryHash == cfg.hash(row.queryText)
    requires forall v :: v in log && v.id == id ==> v.text == row.queryText
    ensures LogSound(log + {VersionOf(id, row)})
    ensures DbSound(cfg, db[id := row], log + {VersionOf(id, row)})
  {
  }

  lemma LoadingSound(cfg: Config, s: State, p: nat, c: Choice, s': State)
    requires Coherent(cfg, s) && c.Resume? && p in s.procs && ResumesLoading(cfg, s, p, c, s')
    ensures Coherent(cfg, s') && s.log <= s'.log
  {
    var pc := s.procs[p];
    if pc.Ready? && s.loaded && pc.task.Lookup? {
      var next :| Scanned(cfg, s, pc.task.text, pc.task.asked, next) && s' == Move(s, p, next);
      ScanVets(cfg, s, pc.task.text, pc.task.asked, next);
    } else if pc.LoadInstall? {
      IndexSoundLoad(cfg, s'.index, pc.rows, s.log);
    }
    MoveKeepsProcs(cfg, s, p, s'.procs[p], s.log);
  }

  lemma LookupSound(cfg: Config, s: State, p: nat, s': State)
    requires Coherent(cfg, s) && p in s.procs && ResumesLookup(cfg, s, p, s')
    ensures Coherent(cfg, s') && s.log <= s'.log
  {
    var pc := s.procs[p];
    if pc.Counting? {
      CountingSound(cfg, s, p, s');
    } else {
      if pc.EvictDrop? { IndexSoundDrop(cfg, s.index, pc.id, s.log); }
      MoveKeepsProcs(cfg, s, p, s'.procs[p], s.log);
    }
  }

  /** Committing the hit counters leaves every committed version as it was. */
  lemma CountingSound(cfg: Config, s: State, p: nat, s': State)
    requires Coherent(cfg, s) && p in s.procs && s.procs[p].Counting? && ResumesLookup(cfg, s, p, s')
    ensures Coherent(cfg, s') && s.log <= s'.log
  {
    var pc := s.procs[p];
    assert PcSound(cfg, pc, s.log);
    assert VersionOf(pc.id, s'.db[pc.id]) == VersionOf(pc.id, s.db[pc.id]);
    MoveKeepsProcs(cfg, s, p, s'.procs[p], s.log);
  }

  lemma WriteStartSound(cfg: Config, s: State, p: nat, c: Choice, s': State)
    requires Coherent(cfg, s) && c.Resume? && p in s.procs && ResumesWriteStart(cfg, s, p, c, s')
    ensures Coherent(cfg, s') && s.log <= s'.log
  {
    var pc, pc' := s.procs[p], s'.procs[p];
    if pc.WriteFind? && pc'.WriteCommit? && pc'.existing.Some? {
      var v := VersionOf(pc'.existing.value, s.db[pc'.existing.value]);
      assert v in s.log && v.text == pc'.text;
    } else if pc.WriteEvictDrop? {
      IndexSoundDrop(cfg, s.index, pc.victim, s.log);
    }
    MoveKeepsProcs(cfg, s, p, pc', s.log);
  }

  lemma WriteEndSound(cfg: Config, s: State, p: nat, c: Choice, s': State)
    requires Coherent(cfg, s) && c.Resume? && p in s.procs && ResumesWriteEnd(cfg, s, p, c, s')
    ensures Coherent(cfg, s') && s.log <= s'.log
  {
    var pc, pc' := s.procs[p], s'.procs[p];
    assert PcSound(cfg, pc, s.log);
    if pc.WriteCommit? {
      assert pc.existing.Some? ==> VersionOf(pc'.id, s.db[pc'.id]) in s.log;
      CommitSound(cfg, s.db, s.log, pc'.id, s'.db[pc'.id]);
      IndexSoundGrows(cfg, s.index, s.log, s'.log);
    } else {
      IndexSoundDrop(cfg, s.index, pc.id, s.log);
      IndexSoundAppend(cfg, Drop(s.index, pc.id), Version(pc.id, pc.text, pc.embedding, pc.answer, pc.manifest), s.log);
    }
    MoveKeepsProcs(cfg, s, p, pc', s'.log);
  }

  lemma DeleteSound(cfg: Config, s: State, p: nat, s': State)
    requires Coherent(cfg, s) && p in s.procs && ResumesDelete(cfg, s, p, s')
    ensures Coherent(cfg, s') && s.log <= s'.log
  {
    if s.procs[p].DeleteDrop? {
      IndexSoundDrop(cfg, s.index, s.procs[p].id, s.log);
    }
    MoveKeepsProcs(cfg, s, p, s'.procs[p], s.log);
  }

  lemma SpawnRaiseSound(cfg: Config, s: State, p: nat, c: Choice, s': State)
    requires Coherent(cfg, s) && !c.Resume? && Step(cfg, s, p, c, s')
    ensures Coherent(cfg, s') && s.log <= s'.log
  {
    MoveKeepsProcs(cfg, s, p, s'.procs[p], s.log);
  }

  /** Rows go away or keep their hash: what was believed of the hashes still holds. */
  lemma KeyedWithFewer(cfg: Config, s: State, p: nat, s': State)
    requires Keyed(cfg, s) && p in s'.procs && s'.procs == s.procs[p := s'.procs[p]]
    requires forall id :: id in s'.db ==> id in s.db && s'.db[id].queryHash == s.db[id].queryHash
    requires Claims(cfg, s'.db, s'.procs[p])
    ensures Keyed(cfg, s')
  {
    forall q | q in s'.procs && q != p ensures Claims(cfg, s'.db, s'.procs[q]) {
      assert Claims(cfg, s.db, s.procs[q]);
    }
  }

  lemma LoadingKeyed(cfg: Config, s: State, p: nat, c: Choice, s': State)
    requires Keyed(cfg, s) && c.Resume? && p in s.procs && RowParallel(s.index)
    requires ResumesLoading(cfg, s, p, c, s')
    ensures Keyed(cfg, s')
  {
    hide Keyed, RowParallel, IsArgMax, Mirrors;
    KeyedWithFewer(cfg, s, p, s');
  }

  lemma LookupKeyed(cfg: Config, s: State, p: nat, s': State)
    requires Coherent(cfg, s) && Keyed(cfg, s) && p in s.procs && ResumesLookup(cfg, s, p, s')
    ensures Keyed(cfg, s')
  {
    KeyedWithFewer(cfg, s, p, s');
  }

  lemma WriteStartKeyed(cfg: Config, s: State, p: nat, c: Choice, s': State)
    requires Keyed(cfg, s) && c.Resume? && p in s.procs && RowParallel(s.index)
    requires ResumesWriteStart(cfg, s, p, c, s')
    ensures Keyed(cfg, s')
  {
    assert Claims(cfg, s.db, s.procs[p]);
    KeyedWithFewer(cfg, s, p, s');
  }

  /** Only the lock's holder inserts, so no other write believes anything when a row is added. */
  lemma WriteEndKeyed(cfg: Config, s: State, p: nat, c: Choice, s': State)
    requires LockSound(s) && Keyed(cfg, s) && c.Resume? && p in s.procs && RowParallel(s.index)
    requires ResumesWriteEnd(cfg, s, p, c, s')
    ensures Keyed(cfg, s')
  {
    assert Claims(cfg, s.db, s.procs[p]);
    if s.procs[p].WriteCommit? && s.procs[p].existing.None? {
      forall q | q in s'.procs ensures Claims(cfg, s'.db, s'.procs[q]) {
        assert q != p ==> !Holds(s.procs[q]);
      }
    } else {
      KeyedWithFewer(cfg, s, p, s');
    }
  }

  lemma DeleteKeyed(cfg: Config, s: State, p: nat, s': State)
    requires Keyed(cfg, s) && p in s.procs && RowParallel(s.index) && ResumesDelete(cfg, s, p, s')
    ensures Keyed(cfg, s')
  {
    KeyedWithFewer(cfg, s, p, s');
  }

  lemma StepKeyed(cfg: Config, s: State, p: nat, c: Choice, s': State)
    requires Inv(cfg, s) && Step(cfg, s, p, c, s')
    ensures Keyed(cfg, s')
  {
    hide ResumesLoading, ResumesLookup, ResumesWriteStart, ResumesWriteEnd, ResumesDelete, Keyed;
    if !c.Resume? {
      KeyedWithFewer(cfg, s, p, s');
    } else if ResumesLoading(cfg, s, p, c, s') { LoadingKeyed(cfg, s, p, c, s'); }
    else if ResumesLookup(cfg, s, p, s') { LookupKeyed(cfg, s, p, s'); }
    else if ResumesWriteStart(cfg, s, p, c, s') { WriteStartKeyed(cfg, s, p, c, s'); }
    else if ResumesWriteEnd(cfg, s, p, c, s') { WriteEndKeyed(cfg, s, p, c, s'); }
    else { DeleteKeyed(cfg, s, p, s'); }
  }

  lemma StepCoherent(cfg: Config, s: State, p: nat, c: Choice, s': State)
    requires Coherent(cfg, s) && Step(cfg, s, p, c, s')
    ensures Coherent(cfg, s') && s.log <= s'.log
  {
    hide ResumesLoading, ResumesLookup, ResumesWriteStart, ResumesWriteEnd, ResumesDelete;
    if !c.Resume? {
      SpawnRaiseSound(cfg, s, p, c, s');
    } else {
      hide Coherent;
      if ResumesLoading(cfg, s, p, c, s') { LoadingSound(cfg, s, p, c, s'); }
      else if ResumesLookup(cfg, s, p, s') { LookupSound(cfg, s, p, s'); }
      else if ResumesWriteStart(cfg, s, p, c, s') { WriteStartSound(cfg, s, p, c, s'); }
      else if ResumesWriteEnd(cfg, s, p, c, s') { WriteEndSound(cfg, s, p, c, s'); }
      else { DeleteSound(cfg, s, p, s'); }
    }
  }

  /** No step breaks the invariant: no two rows share a query hash, the five containers stay
      row-parallel with distinct ids, each position describes one committed version, the lock has
      one holder, and a write under its lock inserts only a hash no row has. */
  lemma StepInv(cfg: Config, s: State, p: nat, c: Choice, s': State)
    requires Inv(cfg, s) && Step(cfg, s, p, c, s')
    ensures Inv(cfg, s') && s.log <= s'.log
  {
    hide Step, Coherent, Keyed;
    StepCoherent(cfg, s, p, c, s');
    StepKeyed(cfg, s, p, c, s');
  }

  // ------------------------------------------------------------------ runs

  ghost predicate Run(cfg: Config, trace: seq<State>) {
    && |trace| > 0 && Init(cfg, trace[0])
    && forall k :: 0 <= k < |trace| - 1 ==> Next(cfg, trace[k], trace[k + 1])
  }

  lemma {:induction false} RunInv(cfg: Config, trace: seq<State>, k: nat)
    requires HashInjective(cfg) && Run(cfg, trace) && k < |trace|
    ensures Inv(cfg, trace[k])
  {
    if k == 0 {
      InitInv(cfg, trace[0]);
    } else {
      RunInv(cfg, trace, k - 1);
      assert Next(cfg, trace[k - 1], trace[k - 1 + 1]);
      var p, c :| Step(cfg, trace[k - 1], p, c, trace[k]);
      StepInv(cfg, trace[k - 1], p, c, trace[k]);
    }
  }

  /** In every reachable state the query hashes are unique, and the write about to commit inserts a
      hash no row has or updates the only row that has it: the column's unique constraint
      never fires. */
  lemma HashesStayUnique(cfg: Config, trace: seq<State>, n: nat)
    requires HashInjective(cfg) && Run(cfg, trace) && n < |trace|
    ensures Unique(trace[n].db)
    ensures forall p :: p in trace[n].procs && trace[n].procs[p].WriteCommit? ==>
              OwnedBy(trace[n].db, cfg.hash(trace[n].procs[p].text), trace[n].procs[p].existing)
  {
    RunInv(cfg, trace, n);
    forall p | p in trace[n].procs && trace[n].procs[p].WriteCommit?
      ensures OwnedBy(trace[n].db, cfg.hash(trace[n].procs[p].text), trace[n].procs[p].existing)
    {
      assert Claims(cfg, trace[n].db, trace[n].procs[p]);
    }
  }

  /** The answer a coroutine has in hand: a question, the entry it came from, the payload. */
  datatype Answered = Answered(text: string, id: EntryId, answer: Payload)

  function Carried(pc: Pc): Option<Answered> {
    match pc
    case Counting(text, _, id, row) => Some(Answered(text, id, row.answer))
    case Served(text, _, id, answer) => Some(Answered(text, id, answer))
    case _ => None
  }

  /** In this state the payload's row was in the table, and it was the row of a question with the
      same discriminators. */
  ghost predicate ReadHere(cfg: Config, s: State, a: Answered) {
    a.id in s.db && s.db[a.id].answer == a.answer && cfg.disc(s.db[a.id].queryText) == cfg.disc(a.text)
  }

  ghost predicate ReadBefore(cfg: Config, trace: seq<State>, n: nat, a: Answered)
    requires n <= |trace|
  {
    exists k :: 0 <= k < n && ReadHere(cfg, trace[k], a)
  }

  /** Where an answer can come from when one coroutine resumes: it was already in hand, or it is
      the row the table holds right now. */
  ghost predicate EntersHere(cfg: Config, s: State, p: nat, s': State)
    requires p in s.procs
  {
    && p in s'.procs && s'.procs == s.procs[p := s'.procs[p]]
    && (Carried(s'.procs[p]).Some? ==>
          Carried(s.procs[p]) == Carried(s'.procs[p]) || ReadHere(cfg, s, Carried(s'.procs[p]).value))
  }

  lemma LoadingEnters(cfg: Config, s: State, p: nat, c: Choice, s': State)
    requires p in s.procs && c.Resume? && RowParallel(s.index) && ResumesLoading(cfg, s, p, c, s')
    ensures EntersHere(cfg, s, p, s')
  {
    var pc := s.procs[p];
    if pc.Ready? && s.loaded && pc.task.Lookup? {
      var next :| Scanned(cfg, s, pc.task.text, pc.task.asked, next) && s' == Move(s, p, next);
    }
  }

  lemma LookupEnters(cfg: Config, s: State, p: nat, s': State)
    requires LogSound(s.log) && DbSound(cfg, s.db, s.log) && ProcsSound(cfg, s.procs, s.log) && RowParallel(s.index)
    requires p in s.procs && ResumesLookup(cfg, s, p, s')
    ensures EntersHere(cfg, s, p, s')
  {
    var pc := s.procs[p];
    if pc.Matched? && pc.id in s.db {
      assert PcSound(cfg, pc, s.log);
      var v :| v in s.log && v.id == pc.id && cfg.disc(v.text) == cfg.disc(pc.text);
      assert VersionOf(pc.id, s.db[pc.id]) in s.log;
    }
  }

  lemma OthersEnterNothing(cfg: Config, s: State, p: nat, c: Choice, s': State)
    requires p in s.procs && c.Resume? && RowParallel(s.index)
    requires ResumesWriteStart(cfg, s, p, c, s') || ResumesWriteEnd(cfg, s, p, c, s') || ResumesDelete(cfg, s, p, s')
    ensures EntersHere(cfg, s, p, s')
  {
    hide Owner, RowParallel;
  }

  lemma AnswerEnters(cfg: Config, s: State, q: nat, c: Choice, s': State, p: nat)
    requires Inv(cfg, s) && Step(cfg, s, q, c, s') && p in s'.procs && Carried(s'.procs[p]).Some?
    ensures || (p in s.procs && Carried(s.procs[p]) == Carried(s'.procs[p]))
            || ReadHere(cfg, s, Carried(s'.procs[p]).value)
  {
    hide ResumesLoading, ResumesLookup, ResumesWriteStart, ResumesWriteEnd, ResumesDelete, ReadHere;
    if c.Resume? {
      if ResumesLoading(cfg, s, q, c, s') { LoadingEnters(cfg, s, q, c, s'); }
      else if ResumesLookup(cfg, s, q, s') { LookupEnters(cfg, s, q, s'); }
      else { OthersEnterNothing(cfg, s, q, c, s'); }
    }
  }

  /** Between the read and the reply a lookup only carries what it read. */
  lemma {:induction false} CarriedAnswerWasRead(cfg: Config, trace: seq<State>, n: nat, p: nat)
    requires HashInjective(cfg) && Run(cfg, trace) && n < |trace| && p in trace[n].procs
    requires Carried(trace[n].procs[p]).Some?
    ensures ReadBefore(cfg, trace, n, Carried(trace[n].procs[p]).value)
  {
    if n > 0 {
      RunInv(cfg, trace, n - 1);
      assert Next(cfg, trace[n - 1], trace[n - 1 + 1]);
      var q, c :| Step(cfg, trace[n - 1], q, c, trace[n]);
      AnswerEnters(cfg, trace[n - 1], q, c, trace[n], p);
      hide Step, Inv, HashInjective, ReadHere;
      if p in trace[n - 1].procs && Carried(trace[n - 1].procs[p]) == Carried(trace[n].procs[p]) {
        CarriedAnswerWasRead(cfg, trace, n - 1, p);
      }
    }
  }

  /** Whatever the interleaving, an answer served by the semantic tier is the payload of a row
      that was in the table when it was read, the row's question has the asker's discriminators,
      and some committed version of that entry was within the similarity threshold. */
  lemma HitsAreReal(cfg: Config, trace: seq<State>, n: nat, p: nat)
    requires HashInjective(cfg) && Run(cfg, trace) && n < |trace|
    requires p in trace[n].procs && trace[n].procs[p].Served?
    ensures var Served(text, asked, id, answer) := trace[n].procs[p];
            && ReadBefore(cfg, trace, n, Answered(text, id, answer))
            && Vetted(cfg, text, asked, id, trace[n].log)
  {
    CarriedAnswerWasRead(cfg, trace, n, p);
    RunInv(cfg, trace, n);
  }

  /** In every reachable state the five containers are row-parallel and each position describes
      one committed version of one entry. */
  lemma IndexAlwaysSound(cfg: Config, trace: seq<State>, n: nat)
    requires HashInjective(cfg) && Run(cfg, trace) && n < |trace|
    ensures IndexSound(cfg, trace[n].index, trace[n].log)
  {
    RunInv(cfg, trace, n);
  }
}
