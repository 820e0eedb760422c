/** The cache with its operations run one at a time: the in-memory index refines the
    `cache_entries` table, and the Redis tier only ever repeats what the table says. */
module SemanticCache {
  import opened Prelude
  import opened CacheIndex
  import opened CacheKeys

  /** Cosine similarity of a stored embedding and a question's vector. */
  function Similarity(cfg: Config, stored: Vector, asked: Vector): real {
    cfg.dot(cfg.unit(stored), cfg.unit(asked))
  }

  /** No row of the table is closer to the question. */
  ghost predicate Best(cfg: Config, table: Table, asked: Vector, id: EntryId) {
    && id in table
    && forall x :: x in table ==>
         Similarity(cfg, table[x].embedding, asked) <= Similarity(cfg, table[id].embedding, asked)
  }

  /** What a lookup owes once a best row is chosen: threshold, then discriminators, then the
      index manifest; a stale row is deleted, a hit bumps its counters. */
  ghost predicate Judged(cfg: Config, before: Table, manifest: string, text: string, asked: Vector, now: int,
                         best: EntryId, result: Option<(Payload, real)>, after: Table)
    requires best in before
  {
    var row := before[best];
    var cosine := Similarity(cfg, row.embedding, asked);
    if cosine < cfg.threshold || cfg.disc(text) != cfg.disc(row.queryText) then
      result == None && after == before
    else if row.manifest != manifest then
      result == None && after == before - {best}
    else
      result == Some((row.answer, cosine)) &&
      after == before[best := row.(hits := row.hits + 1, lastHitAt := Some(now))]
  }

  /** A linear scan of the table for a best row, then the accept rule. */
  ghost predicate ScanLookup(cfg: Config, before: Table, manifest: string, text: string, asked: Vector, now: int,
                             result: Option<(Payload, real)>, after: Table)
  {
    if before == map[] || cfg.isZero(asked) then result == None && after == before
    else
      exists best ::
        Best(cfg, before, asked, best) && Judged(cfg, before, manifest, text, asked, now, best, result, after)
  }

  /** The order evictions follow: never hit first, then hit longest ago, then oldest. */
  predicate ColderOrEqual(a: Row, b: Row) {
    if a.lastHitAt == b.lastHitAt then a.createdAt <= b.createdAt
    else a.lastHitAt.None? || (b.lastHitAt.Some? && a.lastHitAt.value < b.lastHitAt.value)
  }

  /** Nothing in the table comes before it: while it has been hit, every row has, and not longer ago,
      and among rows last hit at the same time none is older. */
  ghost predicate Coldest(table: Table, id: EntryId) {
    id in table && forall x :: x in table ==>
      && (table[id].lastHitAt.Some? ==>
            table[x].lastHitAt.Some? && table[id].lastHitAt.value <= table[x].lastHitAt.value)
      && (table[id].lastHitAt == table[x].lastHitAt ==> table[id].createdAt <= table[x].createdAt)
  }

  lemma ColderIsTotalPreorder(a: Row, b: Row, c: Row)
    ensures ColderOrEqual(a, b) || ColderOrEqual(b, a)
    ensures ColderOrEqual(a, b) && ColderOrEqual(b, c) ==> ColderOrEqual(a, c)
  {
  }

  /** The stored embedding and the question's vector, each brought to unit length, multiplied out. */
  function Cosine(cfg: Config, row: Row, asked: Vector): real {
    cfg.dot(cfg.unit(row.embedding), cfg.unit(asked))
  }

  ghost predicate Nearest(cfg: Config, table: Table, asked: Vector, id: EntryId) {
    id in table && forall x :: x in table ==> Cosine(cfg, table[x], asked) <= Cosine(cfg, table[id], asked)
  }

  /** Close enough, about the same thing, and written under the index in use. */
  predicate Serves(cfg: Config, row: Row, text: string, asked: Vector, manifest: string) {
    cfg.threshold <= Cosine(cfg, row, asked) && cfg.disc(row.queryText) == cfg.disc(text) && row.manifest == manifest
  }

  /** An answer is served only for a nearest row that serves it; nothing is served only from an empty
      table, for a vector of no length, or when a nearest row does not serve. Only a row written
      under another index leaves the table. */
  ghost predicate Served(cfg: Config, before: Table, manifest: string, text: string, asked: Vector,
                         result: Option<(Payload, real)>, after: Table)
  {
    && (result.Some? ==>
          && !cfg.isZero(asked) && after.Keys == before.Keys
          && exists id :: Nearest(cfg, before, asked, id) && Serves(cfg, before[id], text, asked, manifest)
               && result.value == (before[id].answer, Cosine(cfg, before[id], asked)))
    && (result.None? ==>
          || before == map[] || cfg.isZero(asked)
          || exists id :: Nearest(cfg, before, asked, id) && !Serves(cfg, before[id], text, asked, manifest))
    && forall x :: x in before && x !in after ==> before[x].manifest != manifest && |after| == |before| - 1
  }

  lemma ScanServes(cfg: Config, before: Table, manifest: string, text: string, asked: Vector, now: int,
                   result: Option<(Payload, real)>, after: Table)
    requires ScanLookup(cfg, before, manifest, text, asked, now, result, after)
    ensures Served(cfg, before, manifest, text, asked, result, after)
  {
    if before != map[] && !cfg.isZero(asked) {
      var best :| Best(cfg, before, asked, best)
                  && Judged(cfg, before, manifest, text, asked, now, best, result, after);
      BestIsNearest(cfg, before, asked, best);
      hide Best, Nearest;
      JudgedServes(cfg, before, manifest, text, asked, now, best, result, after);
    }
  }

  lemma BestIsNearest(cfg: Config, table: Table, asked: Vector, id: EntryId)
    requires Best(cfg, table, asked, id)
    ensures Nearest(cfg, table, asked, id)
  {
    assert forall x :: x in table ==> Cosine(cfg, table[x], asked) == Similarity(cfg, table[x].embedding, asked);
  }

  lemma JudgedServes(cfg: Config, before: Table, manifest: string, text: string, asked: Vector, now: int,
                     best: EntryId, result: Option<(Payload, real)>, after: Table)
    requires best in before && Judged(cfg, before, manifest, text, asked, now, best, result, after)
    ensures result.Some? <==> Serves(cfg, before[best], text, asked, manifest)
    ensures result.Some? ==> after.Keys == before.Keys
                             && result.value == (before[best].answer, Cosine(cfg, before[best], asked))
    ensures forall x :: x in before && x !in after ==> before[x].manifest != manifest && |after| == |before| - 1
  {
    SizeDeleted(before, best);
  }

  /** `query_hash` is the hash of the text and is unique. */
  ghost predicate KeysSound(cfg: Config, table: Table) {
    && (forall id :: id in table ==> table[id].queryHash == cfg.hash(table[id].queryText))
    && (forall a, b :: a in table && b in table && table[a].queryHash == table[b].queryHash ==> a == b)
  }

  ghost predicate Stores(table: Table, key: string, answer: Payload) {
    exists id :: id in table && table[id].queryHash == key && table[id].answer == answer
  }

  /** Every Redis value is the answer of the row that owns its key. */
  ghost predicate RedisAgrees(redis: map<string, Payload>, table: Table) {
    forall key :: key in redis ==> Stores(table, key, redis[key])
  }

  /** Deleting one row and its key keeps the agreement. */
  lemma RedisAgreesDelete(cfg: Config, redis: map<string, Payload>, table: Table, id: EntryId)
    requires KeysSound(cfg, table) && RedisAgrees(redis, table) && id in table
    ensures RedisAgrees(redis - {table[id].queryHash}, table - {id})
    ensures KeysSound(cfg, table - {id})
  {
    var r, t := redis - {table[id].queryHash}, table - {id};
    forall key | key in r ensures Stores(t, key, r[key]) {
      assert Stores(table, key, redis[key]);
      var x :| x in table && table[x].queryHash == key && table[x].answer == redis[key];
      assert x in t && t[x] == table[x];
    }
  }

  /** Changing a row's counters changes nothing Redis can see. */
  lemma RedisAgreesBump(cfg: Config, redis: map<string, Payload>, table: Table, id: EntryId, row: Row)
    requires KeysSound(cfg, table) && RedisAgrees(redis, table) && id in table
    requires row.queryHash == table[id].queryHash && row.queryText == table[id].queryText
    requires row.answer == table[id].answer
    ensures RedisAgrees(redis, table[id := row]) && KeysSound(cfg, table[id := row])
  {
    var t := table[id := row];
    forall key | key in redis ensures Stores(t, key, redis[key]) {
      assert Stores(table, key, redis[key]);
      var x :| x in table && table[x].queryHash == key && table[x].answer == redis[key];
      assert x in t && t[x].queryHash == key && t[x].answer == redis[key];
    }
  }

  /** Storing a row and then its payload under its key keeps the agreement. */
  lemma RedisAgreesStore(cfg: Config, redis: map<string, Payload>, table: Table, id: EntryId, row: Row)
    requires KeysSound(cfg, table) && RedisAgrees(redis, table)
    requires row.queryHash == cfg.hash(row.queryText)
    requires forall x :: x in table && table[x].queryHash == row.queryHash ==> x == id
    requires id in table ==> table[id].queryHash == row.queryHash
    ensures KeysSound(cfg, table[id := row])
    ensures RedisAgrees(redis[row.queryHash := row.answer], table[id := row])
  {
    var r, t := redis[row.queryHash := row.answer], table[id := row];
    forall key | key in r ensures Stores(t, key, r[key]) {
      if key == row.queryHash {
        assert t[id].queryHash == key && t[id].answer == r[key];
      } else {
        assert Stores(table, key, redis[key]);
        var x :| x in table && table[x].queryHash == key && table[x].answer == redis[key];
        assert x in t && t[x] == table[x];
      }
    }
  }

  /** The index does not hold a row's counters. */
  lemma MirrorsBump(cfg: Config, ix: Index, table: Table, id: EntryId, row: Row)
    requires Mirrors(cfg, ix, table) && id in table
    requires row.queryText == table[id].queryText && row.embedding == table[id].embedding
    requires row.manifest == table[id].manifest
    ensures Mirrors(cfg, ix, table[id := row])
  {
    forall i | 0 <= i < |ix.ids|
      ensures ix.ids[i] in table[id := row] && DescribesRow(cfg, ix, i, table[id := row][ix.ids[i]])
    {
      assert DescribesRow(cfg, ix, i, table[ix.ids[i]]);
    }
  }

  /** One index position per row, in whatever order the table yields them. */
  method IndexOf(cfg: Config, table: Table) returns (ix: Index)
    ensures Mirrors(cfg, ix, table)
  {
    ix := EMPTY;
    var rest := table.Keys;
    while rest != {}
      invariant rest <= table.Keys
      invariant Mirrors(cfg, ix, table - rest)
      decreases |rest|
    {
      var id :| id in rest;
      var row := table[id];
      ghost var next := (table - rest)[id := row];
      assert next - {id} == table - rest;
      MirrorsStore(cfg, ix, next, id, row);
      assert next[id := row] == table - (rest - {id});
      ix := Append(cfg, ix, id, row.queryText, row.embedding, Some(row.manifest));
      rest := rest - {id};
    }
    assert table - {} == table;
  }

  /** The row the eviction order puts first. */
  method PickColdest(table: Table) returns (victim: EntryId)
    requires table != map[]
    ensures Coldest(table, victim)
  {
    var seed :| seed in table;
    victim := seed;
    var rest := table.Keys - {victim};
    while rest != {}
      invariant rest <= table.Keys && victim in table
      invariant forall x :: x in table && x !in rest ==> ColderOrEqual(table[victim], table[x])
      decreases |rest|
    {
      var x :| x in rest;
      forall y | y in table && y !in rest { ColderIsTotalPreorder(table[x], table[victim], table[y]); }
      if !ColderOrEqual(table[victim], table[x]) { victim := x; }
      rest := rest - {x};
    }
  }

  /** The row owning a hash, if any. */
  method FindByHash(table: Table, key: string) returns (found: Option<EntryId>)
    ensures found.Some? ==> found.value in table && table[found.value].queryHash == key
    ensures found.None? ==> forall id :: id in table ==> table[id].queryHash != key
  {
    var rest := table.Keys;
    while rest != {}
      invariant rest <= table.Keys
      invariant forall id :: id in table && id !in rest ==> table[id].queryHash != key
      decreases |rest|
    {
      var id :| id in rest;
      if table[id].queryHash == key { return Some(id); }
      rest := rest - {id};
    }
    return None;
  }

  /** A row is found by its hash exactly when it is the row of that question. */
  lemma OwnerOf(cfg: Config, table: Table, text: string, id: EntryId)
    requires HashInjective(cfg) && KeysSound(cfg, table) && id in table
    ensures table[id].queryHash == cfg.hash(text) <==> table[id].queryText == text
    ensures table[id].queryText == text ==> forall x :: x in table && table[x].queryHash == cfg.hash(text) ==> x == id
    ensures table[id].queryText == text ==> forall x :: x in table && table[x].queryText == text ==> x == id
  {
    assert table[id].queryHash == cfg.hash(table[id].queryText);
    forall x | x in table && table[x].queryText == text ensures table[x].queryHash == cfg.hash(text) {
    }
  }

  /** What holds between any two operations: sound tiers within capacity, and an index that is
      either unloaded and empty or a view of the table. */
  ghost predicate Sound(cfg: Config, table: Table, redis: map<string, Payload>, ix: Index, loaded: bool,
                        manifest: Option<string>) {
    && HashInjective(cfg) && cfg.maxEntries >= 1
    && KeysSound(cfg, table) && RedisAgrees(redis, table)
    && |table| <= cfg.maxEntries
    && (!loaded ==> ix == EMPTY && manifest.None?)
    && (loaded ==> Mirrors(cfg, ix, table) && manifest.Some?)
  }

  lemma SoundIndex(cfg: Config, table: Table, redis: map<string, Payload>, ix: Index, loaded: bool,
                   manifest: Option<string>)
    requires Sound(cfg, table, redis, ix, loaded, manifest)
    ensures RowParallel(ix) && |table| <= cfg.maxEntries && cfg.maxEntries >= 1
    ensures HashInjective(cfg) && KeysSound(cfg, table)
    ensures loaded ==> manifest.Some? && |ix.ids| == |table| && Mirrors(cfg, ix, table)
  {
    if loaded { MirrorsSize(cfg, ix, table); }
  }

  lemma SoundParallel(cfg: Config, table: Table, redis: map<string, Payload>, ix: Index, loaded: bool,
                      manifest: Option<string>)
    requires Sound(cfg, table, redis, ix, loaded, manifest)
    ensures RowParallel(ix)
  {
  }

  lemma SoundManifest(cfg: Config, table: Table, redis: map<string, Payload>, ix: Index, manifest: Option<string>)
    requires Sound(cfg, table, redis, ix, true, manifest)
    ensures manifest.Some?
  {
  }

  lemma SoundLoad(cfg: Config, table: Table, redis: map<string, Payload>, ix: Index, loaded: bool,
                  manifest: Option<string>, ix': Index, indexed: string)
    requires Sound(cfg, table, redis, ix, loaded, manifest) && Mirrors(cfg, ix', table)
    ensures Sound(cfg, table, redis, ix', true, Some(indexed))
  {
  }

  lemma SoundReset(cfg: Config, table: Table, redis: map<string, Payload>, ix: Index, loaded: bool,
                   manifest: Option<string>)
    requires Sound(cfg, table, redis, ix, loaded, manifest)
    ensures Sound(cfg, table, redis, EMPTY, false, None) && Sound(cfg, map[], map[], EMPTY, false, None)
  {
  }

  lemma SoundEvict(cfg: Config, table: Table, redis: map<string, Payload>, ix: Index, loaded: bool,
                   manifest: Option<string>, id: EntryId)
    requires Sound(cfg, table, redis, ix, loaded, manifest) && id in table && RowParallel(ix)
    ensures Sound(cfg, table - {id}, redis - {table[id].queryHash}, Drop(ix, id), loaded, manifest)
  {
    RedisAgreesDelete(cfg, redis, table, id);
    if loaded { MirrorsDrop(cfg, ix, table, id); }
    assert table.Keys == (table - {id}).Keys + {id};
  }

  lemma SoundUnlisted(cfg: Config, table: Table, redis: map<string, Payload>, ix: Index, loaded: bool,
                      manifest: Option<string>, id: EntryId)
    requires Sound(cfg, table, redis, ix, loaded, manifest) && id !in table && RowParallel(ix)
    ensures Drop(ix, id) == ix
  {
    if loaded { assert id !in ix.ids; }
  }

  lemma SoundBump(cfg: Config, table: Table, redis: map<string, Payload>, ix: Index, manifest: Option<string>,
                  id: EntryId, row: Row)
    requires Sound(cfg, table, redis, ix, true, manifest) && id in table
    requires row == table[id].(hits := row.hits, lastHitAt := row.lastHitAt)
    ensures Sound(cfg, table[id := row], redis, ix, true, manifest)
  {
    RedisAgreesBump(cfg, redis, table, id, row);
    MirrorsBump(cfg, ix, table, id, row);
    assert table[id := row].Keys == table.Keys;
  }

  lemma SoundStore(cfg: Config, table: Table, redis: map<string, Payload>, ix: Index, id: EntryId, row: Row)
    requires Sound(cfg, table, redis, ix, true, Some(row.manifest)) && RowParallel(ix)
    requires row.queryHash == cfg.hash(row.queryText) && |table[id := row]| <= cfg.maxEntries
    requires forall x :: x in table && table[x].queryHash == row.queryHash ==> x == id
    requires id in table ==> table[id].queryHash == row.queryHash
    ensures Sound(cfg, table[id := row], redis[row.queryHash := row.answer],
                  Append(cfg, Drop(ix, id), id, row.queryText, row.embedding, Some(row.manifest)), true,
                      Some(row.manifest))
  {
    RedisAgreesStore(cfg, redis, table, id, row);
    MirrorsDrop(cfg, ix, table, id);
    MirrorsStore(cfg, Drop(ix, id), table, id, row);
  }

  lemma SoundRedisKey(cfg: Config, table: Table, redis: map<string, Payload>, ix: Index, loaded: bool,
                      manifest: Option<string>, key: string)
    requires Sound(cfg, table, redis, ix, loaded, manifest) && key in redis
    ensures exists id :: id in table && table[id].queryHash == key
  {
    assert Stores(table, key, redis[key]);
  }

  /** The question has a row, and this is its answer. */
  ghost predicate AnswerOf(table: Table, text: string, answer: Payload) {
    && (exists id :: id in table && table[id].queryText == text)
    && (forall id :: id in table && table[id].queryText == text ==> table[id].answer == answer)
  }

  /** The key a question is looked up under in Redis is the key of its row in the table. */
  lemma SoundHot(cfg: Config, table: Table, redis: map<string, Payload>, ix: Index, loaded: bool,
                 manifest: Option<string>, text: string)
    requires Sound(cfg, table, redis, ix, loaded, manifest) && cfg.hash(text) in redis
    ensures AnswerOf(table, text, redis[cfg.hash(text)])
  {
    assert Stores(table, cfg.hash(text), redis[cfg.hash(text)]);
    var own :| own in table && table[own].queryHash == cfg.hash(text) && table[own].answer == redis[cfg.hash(text)];
    OwnerOf(cfg, table, text, own);
  }

  lemma SoundExpire(cfg: Config, table: Table, redis: map<string, Payload>, ix: Index, loaded: bool,
                    manifest: Option<string>, key: string)
    requires Sound(cfg, table, redis, ix, loaded, manifest)
    ensures Sound(cfg, table, redis - {key}, ix, loaded, manifest)
  {
    var r := redis - {key};
    forall k | k in r ensures Stores(table, k, r[k]) {
      assert Stores(table, k, redis[k]);
    }
  }

  /** The vector would be accepted against itself and is closer to itself than to any other row's. */
  ghost predicate Outshines(cfg: Config, table: Table, text: string, embedding: Vector) {
    && !cfg.isZero(embedding) && Similarity(cfg, embedding, embedding) >= cfg.threshold
    && forall id :: id in table && table[id].queryText != text ==>
         Similarity(cfg, table[id].embedding, embedding) < Similarity(cfg, embedding, embedding)
  }

  /** A scan right after a write finds the written row. */
  lemma WrittenWins(before: Table, cfg: Config, text: string, embedding: Vector, answer: Payload, minted: EntryId,
                    now: int, manifest: string, after: Table, later: int, result: Option<(Payload, real)>, table: Table)
    requires HashInjective(cfg) && KeysSound(cfg, before) && minted !in before && cfg.maxEntries >= 1
    requires Outshines(cfg, before, text, embedding)
    requires Written(before, cfg, text, embedding, answer, minted, now, manifest, after)
    requires ScanLookup(cfg, after, manifest, text, embedding, later, result, table)
    ensures result == Some((answer, Similarity(cfg, embedding, embedding)))
  {
    WrittenRow(before, cfg, text, embedding, answer, minted, now, manifest, after);
    hide HashInjective, KeysSound, Written;
    var best :| Best(cfg, after, embedding, best)
        && Judged(cfg, after, manifest, text, embedding, later, best, result, table);
  }

  /** How the two tiers together answer: from Redis, from the index, not at all, or not even asked
      because the question could not be embedded. */
  datatype Found = Exact(answer: Payload) | Close(answer: Payload, cosine: real) | Missed | NotEmbedded

  /** The entry a write stores: the row found, rewritten in place, or a new one. */
  function Entry(cfg: Config, table: Table, existing: Option<EntryId>, text: string, embedding: Vector, answer: Payload,
                 minted: EntryId, now: int, manifest: string): (EntryId, Row)
    requires existing.Some? ==> existing.value in table
  {
    if existing.Some? then
      (existing.value, table[existing.value].(queryText := text, embedding := embedding, answer := answer,
                                              manifest := manifest))
    else (minted, Row(cfg.hash(text), text, embedding, answer, manifest, 0, now, None))
  }

  /** The row was looked for, and room was made if it was not there and the table was full. */
  ghost predicate Prepared(cfg: Config, before: Table, text: string, existing: Option<EntryId>, table: Table) {
    && (if existing.Some? then existing.value in before && before[existing.value].queryHash == cfg.hash(text)
        else forall id :: id in before ==> before[id].queryHash != cfg.hash(text))
    && (if existing.Some? || |before| < cfg.maxEntries then table == before
        else exists victim: EntryId :: Coldest(before, victim) && table == before - {victim})
  }

  /** The hash of a row says whether it is the question's row. */
  ghost predicate HashTells(cfg: Config, table: Table, text: string) {
    && (forall id :: id in table ==> (table[id].queryHash == cfg.hash(text) <==> table[id].queryText == text))
    && (forall a, b :: a in table && b in table && table[a].queryText == text && table[b].queryText == text ==> a == b)
  }

  lemma SoundTells(cfg: Config, table: Table, text: string)
    requires HashInjective(cfg) && KeysSound(cfg, table)
    ensures HashTells(cfg, table, text)
  {
    forall id | id in table { OwnerOf(cfg, table, text, id); }
    hide HashInjective;
  }

  /** Storing the entry then is the whole write. */
  lemma EntryIsWritten(cfg: Config, before: Table, table: Table, existing: Option<EntryId>, text: string,
                       embedding: Vector, answer: Payload, minted: EntryId, now: int, manifest: string)
    requires HashTells(cfg, before, text) && Prepared(cfg, before, text, existing, table)
    ensures existing.Some? ==> existing.value in table
    ensures var (id, row) := Entry(cfg, table, existing, text, embedding, answer, minted, now, manifest);
            Written(before, cfg, text, embedding, answer, minted, now, manifest, table[id := row])
  {
    hide Coldest;
    if existing.Some? {
      var row := before[existing.value];
      assert row.queryText == text;
      assert row.(queryText := text, embedding := embedding, answer := answer, manifest := manifest)
          == row.(embedding := embedding, answer := answer, manifest := manifest);
    }
  }

  lemma EntryFits(cfg: Config, before: Table, table: Table, existing: Option<EntryId>, text: string,
                  embedding: Vector, answer: Payload, minted: EntryId, now: int, manifest: string)
    requires HashTells(cfg, before, text) && Prepared(cfg, before, text, existing, table)
    requires minted !in before && |before| <= cfg.maxEntries && cfg.maxEntries >= 1
    ensures existing.Some? ==> existing.value in table
    ensures var (id, row) := Entry(cfg, table, existing, text, embedding, answer, minted, now, manifest);
            && row.queryHash == cfg.hash(row.queryText) && |table[id := row]| <= cfg.maxEntries
            && (forall x :: x in table && table[x].queryHash == row.queryHash ==> x == id)
            && (id in table ==> table[id].queryHash == row.queryHash)
  {
    var (id, row) := Entry(cfg, table, existing, text, embedding, answer, minted, now, manifest);
    RoomFor(cfg, before, table, existing, text, id, row);
    assert forall x :: x in table ==> x in before && table[x] == before[x];
    hide Coldest;
  }

  lemma RoomFor(cfg: Config, before: Table, table: Table, existing: Option<EntryId>, text: string, id: EntryId,
                row: Row)
    requires Prepared(cfg, before, text, existing, table) && |before| <= cfg.maxEntries && cfg.maxEntries >= 1
    requires existing.Some? ==> id == existing.value
    ensures |table[id := row]| <= cfg.maxEntries
  {
    SizeStored(table, id, row);
    if existing.None? && |before| >= cfg.maxEntries {
      var victim: EntryId :| Coldest(before, victim) && table == before - {victim};
      SizeDeleted(before, victim);
    }
  }

  lemma SizeStored<K, V>(m: map<K, V>, k: K, v: V)
    ensures |m[k := v]| == if k in m then |m| else |m| + 1
  {
    assert m[k := v].Keys == m.Keys + {k};
  }

  lemma SizeDeleted<K, V>(m: map<K, V>, k: K)
    requires k in m
    ensures |m - {k}| == |m| - 1
  {
    assert (m - {k}).Keys == m.Keys - {k};
  }

  class SemanticCache {
    const cfg: Config
    const casing: Casing

    // The two durable tiers: `cache_entries` by id and the Redis keys under the cache prefix.
    var table: Table
    var redis: map<string, Payload>

    // The loaded index. `matrix` is absent until the first load and after a reset.
    var ids: seq<EntryId>
    var queryTexts: seq<string>
    var discriminators: seq<set<string>>
    var manifests: seq<Option<string>>
    var matrix: Option<seq<Vector>>
    var currentManifest: Option<string>

    ghost function View(): Index
      reads this
    {
      Index(ids, queryTexts, discriminators, manifests, if matrix.Some? then matrix.value else [])
    }

    ghost predicate Valid()
      reads this
    {
      Sound(cfg, table, redis, View(), matrix.Some?, currentManifest)
    }

    /** A process start over whatever the two tiers hold. */
    constructor (cfg: Config, casing: Casing, table: Table, redis: map<string, Payload>)
      requires Sound(cfg, table, redis, EMPTY, false, None)
      ensures Valid() && this.cfg == cfg && this.casing == casing
      ensures this.table == table && this.redis == redis && matrix == None
    {
      this.cfg, this.casing, this.table, this.redis := cfg, casing, table, redis;
      ids, queryTexts, discriminators, manifests, matrix := [], [], [], [], None;
      currentManifest := None;
    }

    /** Rebuild the index from the table, once. `indexed` is the corpus index the process finds
        when it loads. */
    method EnsureLoaded(indexed: string)
      requires Valid()
      modifies this
      ensures Valid() && matrix.Some?
      ensures table == old(table) && redis == old(redis)
      ensures currentManifest == if old(matrix).Some? then old(currentManifest) else Some(indexed)
      ensures old(matrix).Some? ==> View() == old(View())
    {
      hide Sound, HashInjective, KeysSound, Mirrors;
      if matrix.Some? { return; }
      var ix := IndexOf(cfg, table);
      SoundLoad(cfg, table, redis, View(), false, currentManifest, ix, indexed);
      currentManifest := Some(indexed);
      ids, queryTexts, discriminators := ix.ids, ix.texts, ix.discs;
      manifests, matrix := ix.manifests, Some(ix.vectors);
    }

    /** Position of the first largest similarity. */
    method ArgMax(asked: Vector) returns (best: nat)
      requires Valid() && matrix.Some? && ids != []
      ensures best < |ids|
      ensures Best(cfg, table, asked, ids[best])
      ensures RowParallel(View()) && DescribesRow(cfg, View(), best, table[ids[best]])
      ensures cfg.dot(matrix.value[best], cfg.unit(asked)) == Similarity(cfg, table[ids[best]].embedding, asked)
    {
      hide Sound;
      SoundIndex(cfg, table, redis, View(), true, currentManifest);
      var q := cfg.unit(asked);
      best := 0;
      for i := 1 to |ids|
        invariant best < |ids|
        invariant forall j :: 0 <= j < i ==> cfg.dot(matrix.value[j], q) <= cfg.dot(matrix.value[best], q)
      {
        if cfg.dot(matrix.value[i], q) > cfg.dot(matrix.value[best], q) {
          best := i;
        }
      }
      assert forall j :: 0 <= j < |ids| ==> DescribesRow(cfg, View(), j, table[ids[j]]);
      forall x | x in table
        ensures Similarity(cfg, table[x].embedding, asked) <= Similarity(cfg, table[ids[best]].embedding, asked)
      {
        assert x in View().ids;
      }
    }

    /** The semantic tier's answer to a question, `None` on any miss. */
    method Lookup(normalized: string, asked: Vector, now: int, indexed: string)
      returns (result: Option<(Payload, real)>)
      requires Valid()
      modifies this
      ensures Valid() && matrix.Some?
      ensures currentManifest == if old(matrix).Some? then old(currentManifest) else Some(indexed)
      ensures ScanLookup(cfg, old(table), currentManifest.value, normalized, asked, now, result, table)
      ensures Served(cfg, old(table), currentManifest.value, normalized, asked, result, table)
      ensures forall key :: key in redis ==> key in old(redis) && redis[key] == old(redis)[key]
      ensures result.Some? ==> redis == old(redis)
    {
      hide Served;
      result := ScanIndex(normalized, asked, now, indexed);
      ScanServes(cfg, old(table), currentManifest.value, normalized, asked, now, result, table);
    }

    method ScanIndex(normalized: string, asked: Vector, now: int, indexed: string)
      returns (result: Option<(Payload, real)>)
      requires Valid()
      modifies this
      ensures Valid() && matrix.Some?
      ensures currentManifest == if old(matrix).Some? then old(currentManifest) else Some(indexed)
      ensures ScanLookup(cfg, old(table), currentManifest.value, normalized, asked, now, result, table)
      ensures forall key :: key in redis ==> key in old(redis) && redis[key] == old(redis)[key]
      ensures result.Some? ==> redis == old(redis)
    {
      hide Sound, HashInjective, KeysSound, Mirrors;
      EnsureLoaded(indexed);
      SoundIndex(cfg, table, redis, View(), true, currentManifest);
      if |ids| == 0 { return None; }
      if cfg.isZero(asked) { return None; }
      var best := ArgMax(asked);
      result := Accept(best, normalized, asked, now);
    }

    /** The accept rule, applied to the position the scan chose. */
    method Accept(best: nat, normalized: string, asked: Vector, now: int) returns (result: Option<(Payload, real)>)
      requires Valid() && matrix.Some? && best < |ids|
      requires RowParallel(View()) && ids[best] in table && DescribesRow(cfg, View(), best, table[ids[best]])
      modifies this
      ensures Valid() && matrix.Some? && currentManifest == old(currentManifest)
      ensures Judged(cfg, old(table), currentManifest.value, normalized, asked, now, old(ids[best]), result, table)
      ensures forall key :: key in redis ==> key in old(redis) && redis[key] == old(redis)[key]
      ensures result.Some? ==> redis == old(redis)
    {
      hide Sound;
      SoundManifest(cfg, table, redis, View(), currentManifest);
      var cosine := cfg.dot(matrix.value[best], cfg.unit(asked));
      if cosine < cfg.threshold { return None; }
      if cfg.disc(normalized) != discriminators[best] { return None; }
      if manifests[best] != currentManifest {
        Evict(ids[best]);
        return None;
      }
      result := Bump(ids[best], cosine, now);
    }

    /** Read the matched row, count the hit, hand out its payload. */
    method Bump(id: EntryId, cosine: real, now: int) returns (result: Option<(Payload, real)>)
      requires Valid() && matrix.Some?
      modifies this`table
      ensures Valid()
      ensures id !in old(table) ==> result == None && table == old(table)
      ensures id in old(table) ==>
                && result == Some((old(table)[id].answer, cosine))
                && table == old(table)[id := old(table)[id].(hits := old(table)[id].hits + 1, lastHitAt := Some(now))]
    {
      hide Sound, HashInjective, KeysSound, Mirrors;
      if id !in table { return None; }
      var row := table[id];
      var row' := row.(hits := row.hits + 1, lastHitAt := Some(now));
      SoundBump(cfg, table, redis, View(), currentManifest, id, row');
      table := table[id := row'];
      return Some((row.answer, cosine));
    }

    /** Insert the question's entry or overwrite it in place, evicting the coldest entry when an
        insert would exceed the capacity. `minted` is the id the database mints for an insert. */
    method Write(normalized: string, embedding: Vector, answer: Payload, minted: EntryId, now: int, indexed: string)
      requires Valid() && minted !in table
      modifies this
      ensures Valid() && matrix.Some?
      ensures currentManifest == if old(matrix).Some? then old(currentManifest) else Some(indexed)
      ensures Written(old(table), cfg, normalized, embedding, answer, minted, now, currentManifest.value, table)
      ensures cfg.hash(normalized) in redis && redis[cfg.hash(normalized)] == answer
    {
      hide Sound, HashInjective, KeysSound, Mirrors, HashTells, Written, Coldest;
      EnsureLoaded(indexed);
      SoundIndex(cfg, table, redis, View(), true, currentManifest);
      ghost var before := table;
      var existing := FindByHash(table, cfg.hash(normalized));
      if existing.None? && |ids| >= cfg.maxEntries {
        EvictLeastRecentlyHit();
      }
      SoundTells(cfg, before, normalized);
      EntryIsWritten(cfg, before, table, existing, normalized, embedding, answer, minted, now, currentManifest.value);
      EntryFits(cfg, before, table, existing, normalized, embedding, answer, minted, now, currentManifest.value);
      var (id, row) := Entry(cfg, table, existing, normalized, embedding, answer, minted, now, currentManifest.value);
      Store(id, row);
    }

    /** Commit a row, replace its index position, and mirror its answer to Redis. */
    method Store(id: EntryId, row: Row)
      requires Valid() && matrix.Some? && currentManifest == Some(row.manifest)
      requires row.queryHash == cfg.hash(row.queryText) && |table[id := row]| <= cfg.maxEntries
      requires forall x :: x in table && table[x].queryHash == row.queryHash ==> x == id
      requires id in table ==> table[id].queryHash == row.queryHash
      modifies this
      ensures Valid() && matrix.Some? && currentManifest == old(currentManifest)
      ensures table == old(table)[id := row] && redis == old(redis)[row.queryHash := row.answer]
    {
      hide Sound, RowParallel, Drop, Append;
      SoundParallel(cfg, table, redis, View(), true, currentManifest);
      SoundStore(cfg, table, redis, View(), id, row);
      table := table[id := row];
      DropRow(id);
      AppendRow(id, row.queryText, row.embedding, currentManifest);
      redis := redis[row.queryHash := row.answer];
    }

    method AppendRow(id: EntryId, normalized: string, embedding: Vector, manifest: Option<string>)
      requires RowParallel(View()) && id !in ids && matrix.Some?
      modifies this`ids, this`queryTexts, this`discriminators, this`manifests, this`matrix
      ensures matrix.Some?
      ensures View() == Append(cfg, old(View()), id, normalized, embedding, manifest)
    {
      ids, queryTexts := ids + [id], queryTexts + [normalized];
      discriminators, manifests := discriminators + [cfg.disc(normalized)], manifests + [manifest];
      matrix := Some(matrix.value + [cfg.unit(embedding)]);
    }

    /** Remove one entry from the five containers; nothing happens for an id they do not list. */
    method DropRow(id: EntryId)
      requires RowParallel(View())
      modifies this`ids, this`queryTexts, this`discriminators, this`manifests, this`matrix
      ensures View() == Drop(old(View()), id)
      ensures matrix.Some? == old(matrix).Some?
    {
      var i := Position(ids, id);
      if i == |ids| { return; }
      ids, queryTexts := Without(ids, i), Without(queryTexts, i);
      discriminators, manifests := Without(discriminators, i), Without(manifests, i);
      if matrix.Some? {
        matrix := Some(Without(matrix.value, i));
      }
    }

    /** Drop the coldest entry from all three places. */
    method EvictLeastRecentlyHit()
      requires Valid() && matrix.Some?
      modifies this
      ensures Valid() && matrix.Some? && currentManifest == old(currentManifest)
      ensures if old(table) == map[] then table == old(table) && redis == old(redis)
              else exists victim: EntryId :: Coldest(old(table), victim) && table == old(table) - {victim}
                                    && redis == old(redis) - {old(table)[victim].queryHash}
    {
      hide Sound, HashInjective, KeysSound, Mirrors;
      if table == map[] { return; }
      var victim := PickColdest(table);
      Evict(victim);
    }

    /** Delete one entry from the table, from Redis and from the index; an entry whose row is already
        gone is only unlisted, and is not listed while the index mirrors the table. */
    method Evict(id: EntryId)
      requires Valid()
      modifies this
      ensures Valid() && matrix.Some? == old(matrix).Some? && currentManifest == old(currentManifest)
      ensures table == old(table) - {id}
      ensures redis == old(redis) - if id in old(table) then {old(table)[id].queryHash} else {}
    {
      hide Sound, RowParallel, Drop;
      if id in table {
        EvictRow(id);
      } else {
        SoundParallel(cfg, table, redis, View(), matrix.Some?, currentManifest);
        SoundUnlisted(cfg, table, redis, View(), matrix.Some?, currentManifest, id);
        assert table - {id} == table;
        DropRow(id);
      }
    }

    method EvictRow(id: EntryId)
      requires Valid() && id in table
      modifies this
      ensures Valid() && matrix.Some? == old(matrix).Some? && currentManifest == old(currentManifest)
      ensures table == old(table) - {id} && redis == old(redis) - {old(table)[id].queryHash}
    {
      hide Sound, RowParallel, Drop;
      SoundParallel(cfg, table, redis, View(), matrix.Some?, currentManifest);
      SoundEvict(cfg, table, redis, View(), matrix.Some?, currentManifest, id);
      redis := redis - {table[id].queryHash};
      table := table - {id};
      DropRow(id);
    }

    /** Drop the loaded index so that the next operation rebuilds it. */
    method Reset()
      modifies this`ids, this`queryTexts, this`discriminators, this`manifests, this`matrix, this`currentManifest
      ensures matrix == None && currentManifest == None && View() == EMPTY
      ensures old(Valid()) ==> Valid()
    {
      hide Sound;
      if Valid() { SoundReset(cfg, table, redis, View(), matrix.Some?, currentManifest); }
      matrix, ids, queryTexts, discriminators, manifests := None, [], [], [], [];
      currentManifest := None;
    }

    /** Delete every entry from both tiers. */
    method Flush() returns (count: nat)
      requires Valid()
      modifies this
      ensures Valid() && matrix == None
      ensures count == |old(table)| && table == map[] && redis == map[]
    {
      hide Sound, HashInjective, KeysSound, Mirrors;
      count := |table|;
      SoundReset(cfg, table, redis, View(), matrix.Some?, currentManifest);
      table, redis := map[], map[];
      Reset();
    }

    /** Drop the entry a question maps to, however the question is spelled. */
    method DeleteByQuery(query: string) returns (count: nat)
      requires Valid()
      modifies this
      ensures Valid()
      ensures var gone := set id | id in old(table) && old(table)[id].queryText == Normalize(casing, query);
              && table == old(table) - gone && count == |gone| && count <= 1
      ensures cfg.hash(Normalize(casing, query)) !in redis
      ensures forall key :: key in redis <==> key in old(redis) && key != cfg.hash(Normalize(casing, query))
    {
      hide Sound, HashInjective, KeysSound, Mirrors;
      var key := cfg.hash(Normalize(casing, query));
      ghost var gone := set id | id in table && table[id].queryText == Normalize(casing, query);
      var row := FindByHash(table, key);
      SoundIndex(cfg, table, redis, View(), matrix.Some?, currentManifest);
      forall id | id in table { OwnerOf(cfg, table, Normalize(casing, query), id); }
      if row.None? {
        if key in redis { SoundRedisKey(cfg, table, redis, View(), matrix.Some?, currentManifest, key); }
        assert gone == {};
        assert table - gone == table;
        return 0;
      }
      assert gone == {row.value};
      Evict(row.value);
      return 1;
    }

    /** The Redis tier: a hit is the answer of the question's own row, whatever the spelling. */
    method HotGet(query: string) returns (answer: Option<Payload>)
      requires Valid()
      ensures answer.Some? <==> cfg.hash(Normalize(casing, query)) in redis
      ensures answer.Some? ==> answer.value == redis[cfg.hash(Normalize(casing, query))]
      ensures answer.Some? ==> AnswerOf(table, Normalize(casing, query), answer.value)
    {
      hide Sound, HashInjective, KeysSound, Mirrors;
      var key := cfg.hash(Normalize(casing, query));
      if key !in redis { return None; }
      SoundHot(cfg, table, redis, View(), matrix.Some?, currentManifest, Normalize(casing, query));
      return Some(redis[key]);
    }

    /** A key that reaches its time to live, or is lost, leaves the tiers in agreement. */
    method Expire(key: string)
      requires Valid()
      modifies this`redis
      ensures Valid() && redis == old(redis) - {key}
    {
      hide Sound;
      SoundExpire(cfg, table, redis, View(), matrix.Some?, currentManifest, key);
      redis := redis - {key};
    }

    /** Redis first, and only on a miss the embedding and the index. `embed` is the embedding
        service, which may fail. */
    method TwoTierLookup(query: string, embed: string -> Option<Vector>, now: int, indexed: string)
      returns (found: Found)
      requires Valid()
      modifies this
      ensures Valid()
      ensures var text := Normalize(casing, query);
              if cfg.hash(text) in old(redis) then
                found == Exact(old(redis)[cfg.hash(text)]) && AnswerOf(table, text, found.answer)
              else if embed(text).None? then found.NotEmbedded?
              else
                && (found.Close? || found.Missed?) && matrix.Some?
                && ScanLookup(cfg, old(table), currentManifest.value, text, embed(text).value, now,
                              if found.Close? then Some((found.answer, found.cosine)) else None, table)
      ensures currentManifest == if found.Exact? || found.NotEmbedded? || old(matrix).Some? then old(currentManifest)
                                 else Some(indexed)
      ensures found.Exact? || found.NotEmbedded? ==>
                table == old(table) && redis == old(redis) && View() == old(View())
      ensures forall key :: key in redis ==> key in old(redis) && redis[key] == old(redis)[key]
    {
      hide Sound, HashInjective, KeysSound, Mirrors, ScanLookup;
      var text := Normalize(casing, query);
      var hot := HotGet(query);
      if hot.Some? { return Exact(hot.value); }
      var asked := embed(text);
      if asked.None? { return NotEmbedded; }
      var result := Lookup(text, asked.value, now, indexed);
      return match result case Some((answer, cosine)) => Close(answer, cosine) case None => Missed;
    }

    /** After a write every spelling of the question gets what was written: from Redis, with no
        embedding at all, or, once the key is gone, from the index under the conditions of
        `WriteThenLookup`. */
    method WriteThenAsk(query: string, spelling: string, embedding: Vector, answer: Payload, minted: EntryId,
                        now: int, later: int, indexed: string, expires: bool, embed: string -> Option<Vector>)
      returns (found: Found)
      requires Valid() && minted !in table
      requires Normalize(casing, spelling) == Normalize(casing, query)
      requires expires ==>
                 embed(Normalize(casing, query)) == Some(embedding)
                 && Outshines(cfg, table, Normalize(casing, query), embedding)
      modifies this
      ensures Valid()
      ensures !expires ==> found == Exact(answer)
      ensures expires ==> found == Close(answer, Similarity(cfg, embedding, embedding))
    {
      hide Sound, HashInjective, KeysSound, Mirrors, Written, ScanLookup, Outshines, View, RowParallel, Normalize,
          Similarity;
      ghost var t0, text := table, Normalize(casing, query);
      SoundIndex(cfg, table, redis, View(), matrix.Some?, currentManifest);
      Write(Normalize(casing, query), embedding, answer, minted, now, indexed);
      ghost var t1, manifest := table, currentManifest.value;
      if expires { Expire(cfg.hash(Normalize(casing, query))); }
      found := TwoTierLookup(spelling, embed, later, indexed);
      if expires {
        WrittenWins(t0, cfg, text, embedding, answer, minted, now, manifest, t1, later,
                    if found.Close? then Some((found.answer, found.cosine)) else None, table);
      }
    }

    /** After a delete no spelling of the question hits in Redis, and what the index may still find
        for it is the answer of another question. */
    method DeleteThenAsk(query: string, spelling: string, embed: string -> Option<Vector>, now: int, indexed: string)
      returns (found: Found)
      requires Valid() && Normalize(casing, spelling) == Normalize(casing, query)
      modifies this
      ensures Valid() && !found.Exact?
      ensures found.Close? ==> exists id :: id in old(table) && old(table)[id].queryText != Normalize(casing, query)
                                            && old(table)[id].answer == found.answer
    {
      hide Sound, HashInjective, KeysSound, Mirrors;
      var count := DeleteByQuery(query);
      found := TwoTierLookup(spelling, embed, now, indexed);
    }

    /** Asking a stored question again, with the vector it was stored with, is answered by the
        payload just stored: the row beats every other row of the table whenever self-similarity
        does, and nothing else about the table matters. */
    method WriteThenLookup(normalized: string, embedding: Vector, answer: Payload, minted: EntryId, now: int,
                           later: int, indexed: string)
      returns (result: Option<(Payload, real)>)
      requires Valid() && minted !in table
      requires Outshines(cfg, table, normalized, embedding)
      modifies this
      ensures Valid()
      ensures result == Some((answer, Similarity(cfg, embedding, embedding)))
    {
      hide Sound, HashInjective, KeysSound, Mirrors, Written, ScanLookup, Outshines, Similarity;
      ghost var t0 := table;
      SoundIndex(cfg, table, redis, View(), matrix.Some?, currentManifest);
      Write(normalized, embedding, answer, minted, now, indexed);
      ghost var t1, manifest := table, currentManifest.value;
      result := Lookup(normalized, embedding, later, indexed);
      WrittenWins(t0, cfg, normalized, embedding, answer, minted, now, manifest, t1, later, result, table);
    }

    /** Below capacity, writing a new question and deleting any spelling of it restores the table. */
    method WriteThenDelete(query: string, spelling: string, embedding: Vector, answer: Payload, minted: EntryId,
                           now: int, indexed: string)
      requires Valid() && minted !in table && |table| < cfg.maxEntries
      requires Normalize(casing, spelling) == Normalize(casing, query)
      requires forall id :: id in table ==> table[id].queryText != Normalize(casing, query)
      modifies this
      ensures Valid() && table == old(table)
      ensures cfg.hash(Normalize(casing, query)) !in redis
    {
      hide Sound, HashInjective, KeysSound, Mirrors;
      Write(Normalize(casing, query), embedding, answer, minted, now, indexed);
      ghost var t1 := table;
      var count := DeleteByQuery(spelling);
      assert old(table)[minted := t1[minted]] - {minted} == old(table);
    }
  }

  /** The table after a write: one row for the question, an evicted coldest row only when the
      question was new and the table full. */
  ghost predicate Written(before: Table, cfg: Config, text: string, embedding: Vector, answer: Payload,
                          minted: EntryId, now: int, manifest: string, after: Table)
  {
    var inserted := Row(cfg.hash(text), text, embedding, answer, manifest, 0, now, None);
    if exists id :: id in before && before[id].queryText == text then
      exists id :: id in before && before[id].queryText == text &&
                   after == before[id := before[id].(embedding := embedding, answer := answer, manifest := manifest)]
    else if |before| < cfg.maxEntries then
      after == before[minted := inserted]
    else
      exists victim: EntryId :: Coldest(before, victim) && after == (before - {victim})[minted := inserted]
  }

  /** Whatever happened, the written question now owns exactly one row and every other row is an
      old one. */
  lemma WrittenRow(before: Table, cfg: Config, text: string, embedding: Vector, answer: Payload,
                   minted: EntryId, now: int, manifest: string, after: Table)
    requires HashInjective(cfg) && KeysSound(cfg, before) && minted !in before && cfg.maxEntries >= 1
    requires Written(before, cfg, text, embedding, answer, minted, now, manifest, after)
    ensures exists id :: id in after && after[id].queryText == text && after[id].embedding == embedding
                         && after[id].answer == answer && after[id].manifest == manifest
    ensures forall a, b :: a in after && b in after && after[a].queryText == text && after[b].queryText == text ==>
            a == b
    ensures forall id :: id in after && after[id].queryText != text ==> id in before && after[id] == before[id]
  {
    forall id | id in before { OwnerOf(cfg, before, text, id); }
    hide HashInjective, KeysSound, ColderOrEqual, Coldest;
    if exists id :: id in before && before[id].queryText == text {
      var id :| id in before && before[id].queryText == text &&
                after == before[id := before[id].(embedding := embedding, answer := answer, manifest := manifest)];
      assert after[id].queryText == text;
    } else {
      assert after[minted].queryText == text;
    }
  }
}
