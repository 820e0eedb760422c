/** The in-memory half of the semantic cache: five row-parallel containers and the two
    mutations every cache operation is built from. */
module CacheIndex {
  import opened Prelude

  type EntryId = nat
  type Vector = seq<real>
  type Payload = string

  /** What the cache takes from elsewhere: the vector arithmetic, the key hash, the
      discriminator scan and the deployment settings. */
  datatype Config = Config(
    unit: Vector -> Vector,
    isZero: Vector -> bool,
    dot: (Vector, Vector) -> real,
    hash: string -> string,
    disc: string -> set<string>,
    threshold: real,
    maxEntries: nat)

  /** The hash of a question stands for the question. */
  ghost predicate HashInjective(cfg: Config) {
    forall a, b :: cfg.hash(a) == cfg.hash(b) ==> a == b
  }

  /** One row of `cache_entries`. */
  datatype Row = Row(
    queryHash: string, queryText: string, embedding: Vector, answer: Payload,
    manifest: string, hits: nat, createdAt: int, lastHitAt: Option<int>)

  type Table = map<EntryId, Row>

  datatype Index = Index(
    ids: seq<EntryId>, texts: seq<string>, discs: seq<set<string>>,
    manifests: seq<Option<string>>, vectors: seq<Vector>)

  const EMPTY := Index([], [], [], [], [])

  /** The five containers have one length and no id is listed twice. */
  ghost predicate RowParallel(ix: Index) {
    && |ix.texts| == |ix.discs| == |ix.manifests| == |ix.vectors| == |ix.ids|
    && Distinct(ix.ids)
  }

  /** Position `i` of every container describes this one question. */
  ghost predicate Describes(cfg: Config, ix: Index, i: nat, text: string, embedding: Vector, manifest: string)
    requires RowParallel(ix) && i < |ix.ids|
  {
    && ix.texts[i] == text
    && ix.discs[i] == cfg.disc(text)
    && ix.manifests[i] == Some(manifest)
    && ix.vectors[i] == cfg.unit(embedding)
  }

  ghost predicate DescribesRow(cfg: Config, ix: Index, i: nat, row: Row)
    requires RowParallel(ix) && i < |ix.ids|
  {
    Describes(cfg, ix, i, row.queryText, row.embedding, row.manifest)
  }

  /** Position of an id, or the length when it is not listed. */
  function Position(ids: seq<EntryId>, id: EntryId): (k: nat)
    ensures k <= |ids|
    ensures k < |ids| ==> ids[k] == id
    ensures k == |ids| <==> id !in ids
    ensures forall j :: 0 <= j < k ==> ids[j] != id
  {
    if ids == [] then 0
    else if ids[0] == id then 0
    else
      assert ids == [ids[0]] + ids[1..];
      1 + Position(ids[1..], id)
  }

  function Without<T>(s: seq<T>, k: nat): seq<T>
    requires k < |s|
  {
    s[..k] + s[k + 1..]
  }

  /** Remove one entry from all five containers. */
  function Drop(ix: Index, id: EntryId): (r: Index)
    requires RowParallel(ix)
    ensures RowParallel(r) && id !in r.ids
    ensures forall x :: x in r.ids <==> x in ix.ids && x != id
    ensures |r.ids| == if id in ix.ids then |ix.ids| - 1 else |ix.ids|
  {
    var k := Position(ix.ids, id);
    if k == |ix.ids| then ix
    else
      var r := Index(Without(ix.ids, k), Without(ix.texts, k), Without(ix.discs, k),
                     Without(ix.manifests, k), Without(ix.vectors, k));
      assert forall x :: x in r.ids <==> x in ix.ids && x != id by {
        forall x | x in ix.ids && x != id ensures x in r.ids {
          var j :| 0 <= j < |ix.ids| && ix.ids[j] == x;
          assert if j < k then r.ids[j] == x else r.ids[j - 1] == x;
        }
      }
      r
  }

  /** Where the entry at position `i` of the shrunk index stood before. */
  function OldPosition(ix: Index, id: EntryId, i: nat): nat {
    if i < Position(ix.ids, id) then i else i + 1
  }

  lemma DropKeepsDescriptions(cfg: Config, ix: Index, id: EntryId, i: nat)
    requires RowParallel(ix) && id in ix.ids && i < |Drop(ix, id).ids|
    ensures var r, j := Drop(ix, id), OldPosition(ix, id, i);
            && j < |ix.ids|
            && r.ids[i] == ix.ids[j] && r.texts[i] == ix.texts[j] && r.discs[i] == ix.discs[j]
            && r.manifests[i] == ix.manifests[j] && r.vectors[i] == ix.vectors[j]
  {
  }

  /** Add one entry at the end of all five containers. */
  function Append(cfg: Config, ix: Index, id: EntryId, text: string, embedding: Vector,
                  manifest: Option<string>): (r: Index)
    requires RowParallel(ix) && id !in ix.ids
    ensures RowParallel(r)
    ensures r.ids == ix.ids + [id]
    ensures manifest.Some? ==> Describes(cfg, r, |ix.ids|, text, embedding, manifest.value)
  {
    Index(ix.ids + [id], ix.texts + [text], ix.discs + [cfg.disc(text)],
          ix.manifests + [manifest], ix.vectors + [cfg.unit(embedding)])
  }

  /** The index is a view of the table: the same ids, each once, and every position describes
      its row. */
  ghost predicate Mirrors(cfg: Config, ix: Index, table: Table) {
    && RowParallel(ix)
    && (forall id :: id in ix.ids <==> id in table)
    && (forall i :: 0 <= i < |ix.ids| ==> ix.ids[i] in table && DescribesRow(cfg, ix, i, table[ix.ids[i]]))
  }

  /** Dropping an id from the view is deleting its row from the table. */
  lemma MirrorsDrop(cfg: Config, ix: Index, table: Table, id: EntryId)
    requires Mirrors(cfg, ix, table)
    ensures Mirrors(cfg, Drop(ix, id), table - {id})
  {
    var r := Drop(ix, id);
    if id in ix.ids {
      forall i | 0 <= i < |r.ids|
        ensures r.ids[i] in table - {id} && DescribesRow(cfg, r, i, (table - {id})[r.ids[i]])
      {
        DropKeepsDescriptions(cfg, ix, id, i);
        var j := OldPosition(ix, id, i);
        assert DescribesRow(cfg, ix, j, table[ix.ids[j]]);
      }
    } else {
      assert table - {id} == table;
    }
  }

  /** Dropping and re-appending an id is storing a row under it. */
  lemma MirrorsStore(cfg: Config, ix: Index, table: Table, id: EntryId, row: Row)
    requires Mirrors(cfg, ix, table - {id}) && id !in ix.ids
    ensures Mirrors(cfg, Append(cfg, ix, id, row.queryText, row.embedding, Some(row.manifest)), table[id := row])
  {
    var r, t := Append(cfg, ix, id, row.queryText, row.embedding, Some(row.manifest)), table[id := row];
    forall i | 0 <= i < |r.ids| ensures r.ids[i] in t && DescribesRow(cfg, r, i, t[r.ids[i]]) {
      if i < |ix.ids| {
        assert r.ids[i] == ix.ids[i] && DescribesRow(cfg, ix, i, (table - {id})[ix.ids[i]]);
      }
    }
  }

  /** A view of a table has exactly as many positions as the table has rows. */
  lemma MirrorsSize(cfg: Config, ix: Index, table: Table)
    requires Mirrors(cfg, ix, table)
    ensures |ix.ids| == |table|
  {
    DistinctSize(ix.ids, table.Keys);
  }

  lemma {:induction false} DistinctSize(ids: seq<EntryId>, keys: set<EntryId>)
    requires Distinct(ids)
    requires forall id :: id in ids <==> id in keys
    ensures |ids| == |keys|
  {
    if ids == [] {
      assert keys == {};
    } else {
      assert ids == [ids[0]] + ids[1..];
      assert ids[0] !in ids[1..];
      DistinctSize(ids[1..], keys - {ids[0]});
    }
  }
}
