/** The incremental document index: Sync's emit (services/api/internal/connector/
    pipeline.go) and upsertDocument (services/api/internal/catalog/ingest.go).
    Database calls may fail one by one; nothing here runs in a transaction. */
module DocumentIndex {
  type Id = nat

  /** SHA-256, taken to be free of collisions. */
  datatype Digest = Sha256(of: string)

  /** A document's content as the index sees it: its hash and its chunks. */
  datatype Version = Version(digest: Digest, pieces: seq<string>)

  datatype DocRow = DocRow(id: Id, digest: Digest)

  /** One connector's documents by source id, and the chunk table. */
  datatype Index = Index(docs: map<string, DocRow>, chunks: map<(Id, nat), string>)

  /** Which of the database calls for one document go through: looking it up,
      writing its row, deleting its chunks, writing chunk i. */
  datatype Outcomes = Outcomes(lookup: bool, row: bool, delete: bool, chunk: nat -> bool)

  predicate HasId(docs: map<string, DocRow>, id: Id) { exists s :: s in docs && docs[s].id == id }

  function DropChunks(chunks: map<(Id, nat), string>, id: Id): map<(Id, nat), string> {
    map k | k in chunks && k.0 != id :: chunks[k]
  }

  // ------------------------------------------------- connector/pipeline.go

  /** Insert or update the first n chunks; a failed write is passed over. */
  function PutChunks(chunks: map<(Id, nat), string>, id: Id, pieces: seq<string>, up: Outcomes, n: nat): map<(Id, nat), string>
    requires n <= |pieces|
    decreases n
  {
    if n == 0 then chunks
    else
      var rest := PutChunks(chunks, id, pieces, up, n - 1);
      if up.chunk(n - 1) then rest[(id, n - 1) := pieces[n - 1]] else rest
  }

  /** One document of a sync. When the lookup fails a new id is made up, but the
      row, found again by its source id, keeps its own; chunks written under the
      new id have no document and are refused. */
  function Emit(ix: Index, source: string, v: Version, minted: Id, up: Outcomes): Index {
    var known := up.lookup && source in ix.docs;
    if (known && ix.docs[source].digest == v.digest) || !up.row then ix
    else
      var id := if known then ix.docs[source].id else minted;
      var docs := ix.docs[source := DocRow(if source in ix.docs then ix.docs[source].id else id, v.digest)];
      var left := if up.delete then DropChunks(ix.chunks, id) else ix.chunks;
      Index(docs, if HasId(docs, id) then PutChunks(left, id, v.pieces, up, |v.pieces|) else left)
  }

  // ------------------------------------------------------ catalog/ingest.go

  datatype Reply = Reply(index: Index, written: nat, ok: bool)
  datatype Stored = Stored(chunks: map<(Id, nat), string>, written: nat, ok: bool)

  /** Insert the first n chunks, stopping at the first that fails. */
  function StoreChunks(chunks: map<(Id, nat), string>, id: Id, pieces: seq<string>, up: Outcomes, n: nat): Stored
    requires n <= |pieces|
    decreases n
  {
    if n == 0 then Stored(chunks, 0, true)
    else
      var rest := StoreChunks(chunks, id, pieces, up, n - 1);
      if !rest.ok then rest
      else if !up.chunk(n - 1) || (id, n - 1) in rest.chunks then Stored(rest.chunks, n - 1, false)
      else Stored(rest.chunks[(id, n - 1) := pieces[n - 1]], n, true)
  }

  function Replace(ix: Index, source: string, row: DocRow, left: map<(Id, nat), string>, pieces: seq<string>, up: Outcomes): Reply {
    var stored := StoreChunks(left, row.id, pieces, up, |pieces|);
    Reply(Index(ix.docs[source := row], stored.chunks), stored.written, stored.ok)
  }

  /** A document whose lookup fails is inserted, which the unique key refuses when
      it was there after all. */
  function Upsert(ix: Index, source: string, v: Version, minted: Id, up: Outcomes): Reply {
    if up.lookup && source in ix.docs then
      var id := ix.docs[source].id;
      if ix.docs[source].digest == v.digest then Reply(ix, 0, true)
      else if !up.row then Reply(ix, 0, false)
      else if !up.delete then Reply(Index(ix.docs[source := DocRow(id, v.digest)], ix.chunks), 0, false)
      else Replace(ix, source, DocRow(id, v.digest), DropChunks(ix.chunks, id), v.pieces, up)
    else if !up.row || source in ix.docs then Reply(ix, 0, false)
    else Replace(ix, source, DocRow(minted, v.digest), ix.chunks, v.pieces, up)
  }

  // ------------------------------------------------------- what the index means

  ghost predicate Keyed(ix: Index) {
    && (forall a, b :: a in ix.docs && b in ix.docs && ix.docs[a].id == ix.docs[b].id ==> a == b)
    && (forall k :: k in ix.chunks ==> HasId(ix.docs, k.0))
  }

  predicate SlotIs(ix: Index, id: Id, pieces: seq<string>, i: nat) {
    if i < |pieces| then (id, i) in ix.chunks && ix.chunks[(id, i)] == pieces[i] else (id, i) !in ix.chunks
  }

  /** The document's chunks are exactly `pieces`, at indices 0 .. n-1. */
  ghost predicate Right(ix: Index, source: string, pieces: seq<string>) {
    source in ix.docs && forall i: nat :: SlotIs(ix, ix.docs[source].id, pieces, i)
  }

  ghost predicate Mirrors(ix: Index, contents: map<string, Version>) {
    && Keyed(ix) && ix.docs.Keys == contents.Keys
    && (forall s :: s in contents ==> ix.docs[s].digest == contents[s].digest)
    && (forall s :: s in contents ==> Right(ix, s, contents[s].pieces))
  }

  // ------------------------------------------------------------- slot by slot

  lemma {:induction false} PutChunkAt(chunks: map<(Id, nat), string>, id: Id, pieces: seq<string>, up: Outcomes, n: nat, k: (Id, nat))
    requires n <= |pieces|
    ensures var after := PutChunks(chunks, id, pieces, up, n);
            if k.0 == id && k.1 < n && up.chunk(k.1) then k in after && after[k] == pieces[k.1]
            else (k in after <==> k in chunks) && (k in chunks ==> after[k] == chunks[k])
    decreases n
  {
    if n > 0 { PutChunkAt(chunks, id, pieces, up, n - 1, k); }
  }

  lemma {:induction false} StoreChunkAt(chunks: map<(Id, nat), string>, id: Id, pieces: seq<string>, up: Outcomes, n: nat, k: (Id, nat))
    requires n <= |pieces|
    ensures var s := StoreChunks(chunks, id, pieces, up, n);
            && s.written <= n && (s.ok ==> s.written == n)
            && (k in s.chunks <==> k in chunks || (k.0 == id && k.1 < s.written))
            && (k in s.chunks ==> s.chunks[k] == if k.0 == id && k.1 < s.written then pieces[k.1] else chunks[k])
    decreases n
  {
    if n > 0 {
      StoreChunkAt(chunks, id, pieces, up, n - 1, k);
      StoreChunkAt(chunks, id, pieces, up, n - 1, (id, n - 1));
    }
  }

  lemma {:induction false} StoreSucceeds(chunks: map<(Id, nat), string>, id: Id, pieces: seq<string>, up: Outcomes, n: nat)
    requires n <= |pieces| && forall i: nat :: (id, i) !in chunks
    ensures StoreChunks(chunks, id, pieces, up, n).ok <==> forall i: nat :: i < n ==> up.chunk(i)
    decreases n
  {
    if n > 0 {
      StoreSucceeds(chunks, id, pieces, up, n - 1);
      StoreChunkAt(chunks, id, pieces, up, n - 1, (id, n - 1));
    }
  }

  /** What chunk i of a changed document holds after one emit, whatever failed. */
  lemma EmitSlot(ix: Index, source: string, v: Version, minted: Id, up: Outcomes, i: nat)
    requires up.lookup && up.row && source in ix.docs && ix.docs[source].digest != v.digest
    ensures var after, k := Emit(ix, source, v, minted, up), (ix.docs[source].id, i);
            && after.docs == ix.docs[source := DocRow(ix.docs[source].id, v.digest)]
            && (if i < |v.pieces| && up.chunk(i) then k in after.chunks && after.chunks[k] == v.pieces[i]
                else if up.delete then k !in after.chunks
                else (k in after.chunks <==> k in ix.chunks) && (k in ix.chunks ==> after.chunks[k] == ix.chunks[k]))
  {
    var id := ix.docs[source].id;
    var docs := ix.docs[source := DocRow(id, v.digest)];
    assert docs[source].id == id;
    var left := if up.delete then DropChunks(ix.chunks, id) else ix.chunks;
    PutChunkAt(left, id, v.pieces, up, |v.pieces|, (id, i));
  }

  /** Other documents' chunks are out of an emit's reach. */
  lemma EmitElsewhere(ix: Index, source: string, v: Version, minted: Id, up: Outcomes, k: (Id, nat))
    requires Keyed(ix) && !HasId(ix.docs, minted) && (source in ix.docs ==> ix.docs[source].id != k.0)
    requires source in ix.docs || k.0 != minted
    ensures var after := Emit(ix, source, v, minted, up);
            (k in after.chunks <==> k in ix.chunks) && (k in ix.chunks ==> after.chunks[k] == ix.chunks[k])
  {
    var known := up.lookup && source in ix.docs;
    var id := if known then ix.docs[source].id else minted;
    var docs := ix.docs[source := DocRow(if source in ix.docs then ix.docs[source].id else id, v.digest)];
    PutChunkAt(if up.delete then DropChunks(ix.chunks, id) else ix.chunks, id, v.pieces, up, |v.pieces|, k);
  }

  // ------------------------------------------------------ incremental = rebuild

  /** Every call this document needs goes through. */
  ghost predicate Clean(ix: Index, source: string, v: Version, up: Outcomes) {
    && up.row && (source in ix.docs ==> up.lookup && up.delete)
    && forall i: nat :: i < |v.pieces| ==> up.chunk(i)
  }

  predicate Unchanged(ix: Index, source: string, v: Version) { source in ix.docs && ix.docs[source].digest == v.digest }

  lemma FreshHasNoChunks(ix: Index, minted: Id)
    requires Keyed(ix) && !HasId(ix.docs, minted)
    ensures forall k :: k in ix.chunks ==> k.0 != minted
  {
  }

  lemma EmitRight(ix: Index, source: string, v: Version, minted: Id, up: Outcomes)
    requires Keyed(ix) && !HasId(ix.docs, minted) && Clean(ix, source, v, up) && !Unchanged(ix, source, v)
    ensures var after := Emit(ix, source, v, minted, up);
            && after.docs == ix.docs[source := DocRow(if source in ix.docs then ix.docs[source].id else minted, v.digest)]
            && Right(after, source, v.pieces)
  {
    var id := if source in ix.docs then ix.docs[source].id else minted;
    var docs := ix.docs[source := DocRow(id, v.digest)];
    assert docs[source].id == id;
    FreshHasNoChunks(ix, minted);
    forall i: nat ensures SlotIs(Emit(ix, source, v, minted, up), id, v.pieces, i) {
      PutChunkAt(if up.delete then DropChunks(ix.chunks, id) else ix.chunks, id, v.pieces, up, |v.pieces|, (id, i));
    }
  }

  lemma OthersStayRight(ix: Index, source: string, v: Version, minted: Id, up: Outcomes, s: string, pieces: seq<string>)
    requires Keyed(ix) && !HasId(ix.docs, minted) && s != source && Right(ix, s, pieces)
    ensures var after := Emit(ix, source, v, minted, up); s in after.docs && after.docs[s] == ix.docs[s] && Right(after, s, pieces)
  {
    var id := ix.docs[s].id;
    forall i: nat ensures SlotIs(Emit(ix, source, v, minted, up), id, pieces, i) {
      assert SlotIs(ix, id, pieces, i);
      EmitElsewhere(ix, source, v, minted, up, (id, i));
    }
  }

  lemma EmitKeyed(ix: Index, source: string, v: Version, minted: Id, up: Outcomes)
    requires Keyed(ix) && !HasId(ix.docs, minted)
    ensures Keyed(Emit(ix, source, v, minted, up))
  {
    var after := Emit(ix, source, v, minted, up);
    forall k | k in after.chunks ensures HasId(after.docs, k.0) {
      EmitOwner(ix, source, v, minted, up, k);
    }
  }

  lemma EmitOwner(ix: Index, source: string, v: Version, minted: Id, up: Outcomes, k: (Id, nat))
    requires Keyed(ix) && !HasId(ix.docs, minted) && k in Emit(ix, source, v, minted, up).chunks
    ensures HasId(Emit(ix, source, v, minted, up).docs, k.0)
  {
    var after := Emit(ix, source, v, minted, up);
    if !(source in after.docs && after.docs[source].id == k.0) {
      EmitElsewhere(ix, source, v, minted, up, k);
      var s :| s in ix.docs && ix.docs[s].id == k.0;
      assert s in after.docs && after.docs[s].id == k.0;
    }
  }

  /** Equal hashes mean equal chunks. */
  ghost predicate Coherent(contents: map<string, Version>, source: string, v: Version) {
    source in contents && contents[source].digest == v.digest ==> contents[source] == v
  }

  lemma StillMirrors(ix: Index, after: Index, contents: map<string, Version>, source: string, v: Version)
    requires ix.docs.Keys == contents.Keys && after.docs.Keys == ix.docs.Keys + {source}
    requires Keyed(after) && after.docs[source].digest == v.digest && Right(after, source, v.pieces)
    requires forall s :: s in contents && s != source ==> after.docs[s].digest == contents[s].digest
    requires forall s :: s in contents && s != source ==> Right(after, s, contents[s].pieces)
    ensures Mirrors(after, contents[source := v])
  {
  }

  lemma EmitMirrors(ix: Index, contents: map<string, Version>, source: string, v: Version, minted: Id, up: Outcomes)
    requires Mirrors(ix, contents) && Coherent(contents, source, v) && !HasId(ix.docs, minted)
    requires Clean(ix, source, v, up) || (up.lookup && Unchanged(ix, source, v))
    ensures Mirrors(Emit(ix, source, v, minted, up), contents[source := v])
  {
    var after := Emit(ix, source, v, minted, up);
    if Unchanged(ix, source, v) {
      assert contents[source := v] == contents;
    } else {
      EmitRight(ix, source, v, minted, up);
      EmitKeyed(ix, source, v, minted, up);
      forall s | s in contents && s != source
        ensures after.docs[s].digest == contents[s].digest && Right(after, s, contents[s].pieces)
      {
        OthersStayRight(ix, source, v, minted, up, s, contents[s].pieces);
      }
      StillMirrors(ix, after, contents, source, v);
    }
  }

  /** Without an error, the catalog's upsert does exactly what the pipeline's emit does. */
  lemma UpsertIsEmit(ix: Index, source: string, v: Version, minted: Id, up: Outcomes)
    requires Keyed(ix) && !HasId(ix.docs, minted) && Upsert(ix, source, v, minted, up).ok
    ensures (up.lookup && Unchanged(ix, source, v)) || (Clean(ix, source, v, up) && !Unchanged(ix, source, v))
    ensures Upsert(ix, source, v, minted, up).index == Emit(ix, source, v, minted, up)
  {
    if !(up.lookup && Unchanged(ix, source, v)) {
      var id := if source in ix.docs then ix.docs[source].id else minted;
      var left := if source in ix.docs then DropChunks(ix.chunks, id) else ix.chunks;
      FreshHasNoChunks(ix, minted);
      StoreSucceeds(left, id, v.pieces, up, |v.pieces|);
      StoreIsPut(left, id, v.pieces, up, |v.pieces|);
      assert DropChunks(left, id) == left by {
        forall k | k in left ensures k.0 != id { assert (id, k.1) !in left; }
      }
      var docs := ix.docs[source := DocRow(id, v.digest)];
      assert docs[source].id == id;
    }
  }

  lemma {:induction false} StoreIsPut(chunks: map<(Id, nat), string>, id: Id, pieces: seq<string>, up: Outcomes, n: nat)
    requires n <= |pieces| && StoreChunks(chunks, id, pieces, up, n).ok
    ensures StoreChunks(chunks, id, pieces, up, n).chunks == PutChunks(chunks, id, pieces, up, n)
    decreases n
  {
    if n > 0 { StoreIsPut(chunks, id, pieces, up, n - 1); }
  }

  /** An upsert that reports no error leaves the index right, whatever went on. */
  lemma UpsertOkMirrors(ix: Index, contents: map<string, Version>, source: string, v: Version, minted: Id, up: Outcomes)
    requires Mirrors(ix, contents) && Coherent(contents, source, v) && !HasId(ix.docs, minted)
    requires Upsert(ix, source, v, minted, up).ok
    ensures Mirrors(Upsert(ix, source, v, minted, up).index, contents[source := v])
    ensures Upsert(ix, source, v, minted, up).written == if Unchanged(ix, source, v) then 0 else |v.pieces|
  {
    UpsertIsEmit(ix, source, v, minted, up);
    EmitMirrors(ix, contents, source, v, minted, up);
    if !Unchanged(ix, source, v) {
      var id := if source in ix.docs then ix.docs[source].id else minted;
      StoreChunkAt(if source in ix.docs then DropChunks(ix.chunks, id) else ix.chunks, id, v.pieces, up, |v.pieces|, (id, 0));
    }
  }

  /** The number an upsert of new content returns, with or without an error: none when the
      old chunks are all still there, and otherwise as many as are there now, the first of
      the new content. */
  lemma UpsertCounts(ix: Index, source: string, v: Version, minted: Id, up: Outcomes, i: nat)
    requires Keyed(ix) && !HasId(ix.docs, minted) && !Unchanged(ix, source, v)
    ensures var r, known := Upsert(ix, source, v, minted, up), up.lookup && source in ix.docs;
            if !up.row || (known && !up.delete) || (!known && source in ix.docs)
            then r.written == 0 && !r.ok && r.index.chunks == ix.chunks
            else
              var k := (if known then ix.docs[source].id else minted, i);
              && r.written <= |v.pieces| && (r.ok <==> r.written == |v.pieces|)
              && (k in r.index.chunks <==> i < r.written) && (i < r.written ==> r.index.chunks[k] == v.pieces[i])
  {
    if up.row && (up.lookup && source in ix.docs ==> up.delete) && (up.lookup || source !in ix.docs) {
      var known := up.lookup && source in ix.docs;
      var id, left := if known then ix.docs[source].id else minted, if known then DropChunks(ix.chunks, ix.docs[source].id) else ix.chunks;
      if !known { FreshHasNoChunks(ix, minted); }
      StoreChunkAt(left, id, v.pieces, up, |v.pieces|, (id, i));
      StoreCounts(left, id, v.pieces, up, |v.pieces|);
    }
  }

  lemma {:induction false} StoreCounts(chunks: map<(Id, nat), string>, id: Id, pieces: seq<string>, up: Outcomes, n: nat)
    requires n <= |pieces|
    ensures var s := StoreChunks(chunks, id, pieces, up, n); s.written <= n && (s.ok <==> s.written == n)
    decreases n
  {
    if n > 0 { StoreCounts(chunks, id, pieces, up, n - 1); }
  }

  // ------------------------------------------------------- what a failure leaves

  predicate SlotSurvives(before: seq<string>, after: seq<string>, up: Outcomes, i: nat) {
    if i < |after| then up.chunk(i) || (!up.delete && i < |before| && before[i] == after[i]) else up.delete || i >= |before|
  }

  /** A changed document ends up right exactly when each chunk was written, or its old
      chunk was left standing and happens to be the same, and no old chunk past the
      new end was left standing. */
  lemma RightExactly(ix: Index, source: string, before: seq<string>, v: Version, minted: Id, up: Outcomes)
    requires Right(ix, source, before) && up.lookup && up.row && !Unchanged(ix, source, v)
    ensures Right(Emit(ix, source, v, minted, up), source, v.pieces) <==>
            forall i: nat :: i < |v.pieces| || i < |before| ==> SlotSurvives(before, v.pieces, up, i)
  {
    var after, id := Emit(ix, source, v, minted, up), ix.docs[source].id;
    EmitSlot(ix, source, v, minted, up, 0);
    assert after.docs[source].id == id;
    forall i: nat ensures SlotIs(after, id, v.pieces, i) <==> SlotSurvives(before, v.pieces, up, i) {
      assert SlotIs(ix, id, before, i);
      EmitSlot(ix, source, v, minted, up, i);
    }
  }

  /** A lookup that fails on a known document records the new hash over the old chunks. */
  lemma BlindEmit(ix: Index, source: string, v: Version, minted: Id, up: Outcomes)
    requires Keyed(ix) && source in ix.docs && !up.lookup && up.row && !HasId(ix.docs, minted)
    ensures Emit(ix, source, v, minted, up) == Index(ix.docs[source := DocRow(ix.docs[source].id, v.digest)], ix.chunks)
  {
    var docs := ix.docs[source := DocRow(ix.docs[source].id, v.digest)];
    FreshHasNoChunks(ix, minted);
    assert DropChunks(ix.chunks, minted) == ix.chunks;
  }

  /** Once the hash is recorded, the same content changes nothing any more, by either
      path and with any outcome. */
  lemma HashSeals(ix: Index, source: string, v: Version, minted: Id, up: Outcomes)
    requires Keyed(ix) && Unchanged(ix, source, v) && !HasId(ix.docs, minted)
    ensures Emit(ix, source, v, minted, up) == ix
    ensures Upsert(ix, source, v, minted, up).index == ix && Upsert(ix, source, v, minted, up).written == 0
    ensures Upsert(ix, source, v, minted, up).ok == up.lookup
  {
    assert ix.docs[source := DocRow(ix.docs[source].id, v.digest)] == ix.docs;
    if !up.lookup && up.row { BlindEmit(ix, source, v, minted, up); }
  }

  /** One attempt at a document. */
  datatype Attempt = Attempt(minted: Id, up: Outcomes, catalog: bool)

  function Try(ix: Index, source: string, v: Version, a: Attempt): Index {
    if a.catalog then Upsert(ix, source, v, a.minted, a.up).index else Emit(ix, source, v, a.minted, a.up)
  }

  function Retry(ix: Index, source: string, v: Version, attempts: seq<Attempt>): Index
    decreases |attempts|
  {
    if attempts == [] then ix else Retry(Try(ix, source, v, attempts[0]), source, v, attempts[1..])
  }

  lemma {:induction false} SealedForGood(ix: Index, source: string, v: Version, attempts: seq<Attempt>)
    requires Keyed(ix) && Unchanged(ix, source, v) && forall a :: a in attempts ==> !HasId(ix.docs, a.minted)
    ensures Retry(ix, source, v, attempts) == ix
    decreases |attempts|
  {
    if attempts != [] {
      HashSeals(ix, source, v, attempts[0].minted, attempts[0].up);
      SealedForGood(ix, source, v, attempts[1..]);
    }
  }

  // ------------------------------------------- one attempt decides for good

  /** What stands in the index for the document: its old chunks, or nothing. */
  ghost predicate Stands(ix: Index, source: string, before: seq<string>) {
    if source in ix.docs then Right(ix, source, before) else before == []
  }

  /** The attempt records the new hash. */
  predicate Records(known: bool, a: Attempt) { a.up.row && !(known && a.catalog && !a.up.lookup) }

  /** The chunks after an attempt at changed content are those of the content: if no
      chunk was touched, they were so before; if the pipeline rewrote a known document,
      slot by slot; in all other cases, when every chunk was written. */
  ghost predicate EndsRight(known: bool, before: seq<string>, pieces: seq<string>, a: Attempt) {
    if !a.up.row || (known && !a.up.lookup) || (known && a.catalog && !a.up.delete) then known && before == pieces
    else if known && !a.catalog then forall i: nat :: i < |pieces| || i < |before| ==> SlotSurvives(before, pieces, a.up, i)
    else forall i: nat :: i < |pieces| ==> a.up.chunk(i)
  }

  lemma SameChunks(ix: Index, after: Index, source: string, before: seq<string>, pieces: seq<string>)
    requires Right(ix, source, before) && source in after.docs && after.docs[source].id == ix.docs[source].id
    requires forall i: nat :: SlotIs(ix, ix.docs[source].id, before, i) <==> SlotIs(after, ix.docs[source].id, before, i)
    ensures Right(after, source, pieces) <==> before == pieces
  {
    var id := ix.docs[source].id;
    if Right(after, source, pieces) {
      assert SlotIs(after, id, before, |before|) && SlotIs(after, id, pieces, |before|);
      assert SlotIs(after, id, before, |pieces|) && SlotIs(after, id, pieces, |pieces|);
      forall i | 0 <= i < |before| ensures before[i] == pieces[i] {
        assert SlotIs(after, id, before, i) && SlotIs(after, id, pieces, i);
      }
    }
  }

  lemma UntouchedExactly(ix: Index, source: string, before: seq<string>, v: Version, a: Attempt)
    requires Keyed(ix) && !HasId(ix.docs, a.minted) && Stands(ix, source, before) && !Unchanged(ix, source, v)
    requires var known := source in ix.docs; !a.up.row || (known && !a.up.lookup) || (known && a.catalog && !a.up.delete)
    ensures Right(Try(ix, source, v, a), source, v.pieces) <==> source in ix.docs && before == v.pieces
  {
    if source in ix.docs {
      if !a.catalog && a.up.row { BlindEmit(ix, source, v, a.minted, a.up); }
      SameChunks(ix, Try(ix, source, v, a), source, before, v.pieces);
    }
  }

  /** A document's chunks written from a clean slate, by either path. */
  lemma {:induction false} EmittedFresh(left: map<(Id, nat), string>, docs: map<string, DocRow>, source: string, pieces: seq<string>, up: Outcomes)
    requires source in docs && forall i: nat :: (docs[source].id, i) !in left
    ensures Right(Index(docs, PutChunks(left, docs[source].id, pieces, up, |pieces|)), source, pieces)
            <==> forall i: nat :: i < |pieces| ==> up.chunk(i)
  {
    var after, id := Index(docs, PutChunks(left, docs[source].id, pieces, up, |pieces|)), docs[source].id;
    forall i: nat ensures SlotIs(after, id, pieces, i) <==> (i < |pieces| ==> up.chunk(i)) {
      PutChunkAt(left, id, pieces, up, |pieces|, (id, i));
    }
  }

  lemma {:induction false} StoredFresh(left: map<(Id, nat), string>, docs: map<string, DocRow>, source: string, pieces: seq<string>, up: Outcomes)
    requires source in docs && forall i: nat :: (docs[source].id, i) !in left
    ensures Right(Index(docs, StoreChunks(left, docs[source].id, pieces, up, |pieces|).chunks), source, pieces)
            <==> forall i: nat :: i < |pieces| ==> up.chunk(i)
  {
    var id := docs[source].id;
    var stored := StoreChunks(left, id, pieces, up, |pieces|);
    var after := Index(docs, stored.chunks);
    StoreSucceeds(left, id, pieces, up, |pieces|);
    forall i: nat ensures SlotIs(after, id, pieces, i) <==> (i < |pieces| ==> i < stored.written) {
      StoreChunkAt(left, id, pieces, up, |pieces|, (id, i));
    }
    if !stored.ok {
      StoreShort(left, id, pieces, up, |pieces|);
      assert !SlotIs(after, id, pieces, stored.written);
    }
  }

  lemma {:induction false} StoreShort(chunks: map<(Id, nat), string>, id: Id, pieces: seq<string>, up: Outcomes, n: nat)
    requires n <= |pieces|
    ensures !StoreChunks(chunks, id, pieces, up, n).ok ==> StoreChunks(chunks, id, pieces, up, n).written < n
    decreases n
  {
    if n > 0 { StoreShort(chunks, id, pieces, up, n - 1); }
  }

  lemma NewDocumentExactly(ix: Index, source: string, v: Version, a: Attempt)
    requires Keyed(ix) && !HasId(ix.docs, a.minted) && source !in ix.docs && a.up.row
    ensures Right(Try(ix, source, v, a), source, v.pieces) <==> forall i: nat :: i < |v.pieces| ==> a.up.chunk(i)
  {
    var docs := ix.docs[source := DocRow(a.minted, v.digest)];
    assert docs[source].id == a.minted;
    FreshHasNoChunks(ix, a.minted);
    if a.catalog {
      StoredFresh(ix.chunks, docs, source, v.pieces, a.up);
    } else {
      EmittedFresh(if a.up.delete then DropChunks(ix.chunks, a.minted) else ix.chunks, docs, source, v.pieces, a.up);
    }
  }

  lemma ReplacedExactly(ix: Index, source: string, v: Version, a: Attempt)
    requires source in ix.docs && !Unchanged(ix, source, v) && a.catalog && a.up.lookup && a.up.row && a.up.delete
    ensures Right(Try(ix, source, v, a), source, v.pieces) <==> forall i: nat :: i < |v.pieces| ==> a.up.chunk(i)
  {
    var id := ix.docs[source].id;
    StoredFresh(DropChunks(ix.chunks, id), ix.docs[source := DocRow(id, v.digest)], source, v.pieces, a.up);
  }

  /** When an attempt at changed content leaves the document right: for known and new
      documents, by either path, whatever failed. */
  lemma TryRightExactly(ix: Index, source: string, before: seq<string>, v: Version, a: Attempt)
    requires Keyed(ix) && !HasId(ix.docs, a.minted) && Stands(ix, source, before) && !Unchanged(ix, source, v)
    ensures Right(Try(ix, source, v, a), source, v.pieces) <==> EndsRight(source in ix.docs, before, v.pieces, a)
  {
    var known := source in ix.docs;
    if !a.up.row || (known && !a.up.lookup) || (known && a.catalog && !a.up.delete) {
      UntouchedExactly(ix, source, before, v, a);
    } else if !known {
      NewDocumentExactly(ix, source, v, a);
    } else if a.catalog {
      ReplacedExactly(ix, source, v, a);
    } else {
      RightExactly(ix, source, before, v, a.minted, a.up);
    }
  }

  lemma TryRecordsHash(ix: Index, source: string, v: Version, a: Attempt)
    requires !Unchanged(ix, source, v) && Records(source in ix.docs, a)
    ensures Unchanged(Try(ix, source, v, a), source, v)
  {
  }

  /** An attempt that does not record the hash changes nothing. */
  lemma TryRecords(ix: Index, source: string, v: Version, a: Attempt, minted: Id)
    requires Keyed(ix) && !HasId(ix.docs, a.minted) && !Unchanged(ix, source, v)
    requires !HasId(ix.docs, minted) && minted != a.minted
    ensures var after := Try(ix, source, v, a);
            if Records(source in ix.docs, a) then Unchanged(after, source, v) && !HasId(after.docs, minted) else after == ix
  {
    if source in ix.docs { assert HasId(ix.docs, ix.docs[source].id); }
  }

  lemma TryKeyed(ix: Index, source: string, v: Version, a: Attempt)
    requires Keyed(ix) && !HasId(ix.docs, a.minted)
    ensures Keyed(Try(ix, source, v, a))
  {
    if a.catalog { UpsertKeyed(ix, source, v, a.minted, a.up); } else { EmitKeyed(ix, source, v, a.minted, a.up); }
  }

  lemma UpsertKeyed(ix: Index, source: string, v: Version, minted: Id, up: Outcomes)
    requires Keyed(ix) && !HasId(ix.docs, minted)
    ensures Keyed(Upsert(ix, source, v, minted, up).index)
  {
    var after := Upsert(ix, source, v, minted, up).index;
    var id := if source in ix.docs then ix.docs[source].id else minted;
    forall k | k in after.chunks ensures HasId(after.docs, k.0) {
      StoreChunkAt(DropChunks(ix.chunks, id), id, v.pieces, up, |v.pieces|, k);
      StoreChunkAt(ix.chunks, id, v.pieces, up, |v.pieces|, k);
      if source in after.docs && after.docs[source].id == k.0 {
        assert HasId(after.docs, k.0);
      } else {
        var s :| s in ix.docs && ix.docs[s].id == k.0;
        assert s in after.docs && after.docs[s].id == k.0;
      }
    }
  }

  /** An attempt that records the hash decides for good: no sequence of further attempts
      at the same content, by either path and with any outcomes, makes right what it left
      wrong or wrong what it left right. */
  lemma {:induction false} RightNowOrNever(ix: Index, source: string, before: seq<string>, v: Version, a: Attempt, attempts: seq<Attempt>)
    requires Keyed(ix) && !HasId(ix.docs, a.minted) && Stands(ix, source, before) && !Unchanged(ix, source, v)
    requires Records(source in ix.docs, a)
    requires forall b :: b in attempts ==> !HasId(ix.docs, b.minted) && b.minted != a.minted
    ensures Right(Retry(Try(ix, source, v, a), source, v, attempts), source, v.pieces)
            <==> EndsRight(source in ix.docs, before, v.pieces, a)
  {
    var after := Try(ix, source, v, a);
    TryRightExactly(ix, source, before, v, a);
    TryKeyed(ix, source, v, a);
    TryRecordsHash(ix, source, v, a);
    forall b | b in attempts ensures !HasId(after.docs, b.minted) { TryRecords(ix, source, v, a, b.minted); }
    SealedForGood(after, source, v, attempts);
  }

  /** A chunk that failed to be written stays missing, for new documents and changed
      ones, by either path: the row already carries the new hash. */
  lemma {:induction false} MissingChunkIsNeverRepaired(ix: Index, source: string, before: seq<string>, v: Version, a: Attempt, i: nat, attempts: seq<Attempt>)
    requires Keyed(ix) && !HasId(ix.docs, a.minted) && Stands(ix, source, before) && !Unchanged(ix, source, v)
    requires a.up.row && (source in ix.docs ==> a.up.lookup && a.up.delete) && i < |v.pieces| && !a.up.chunk(i)
    requires forall b :: b in attempts ==> !HasId(ix.docs, b.minted) && b.minted != a.minted
    ensures !Right(Retry(Try(ix, source, v, a), source, v, attempts), source, v.pieces)
  {
    RightNowOrNever(ix, source, before, v, a, attempts);
    if source in ix.docs && !a.catalog { assert !SlotSurvives(before, v.pieces, a.up, i); }
  }
}
