/** The index's own code paths, step by step, and whole runs of syncs. */
module DocumentSync {
  import opened Chunking
  import opened DocumentIndex

  const CHUNK_SIZE: nat := 2048
  const CHUNK_OVERLAP: nat := 256

  function VersionOf(content: string): Version {
    Version(Sha256(content), ChunkText(content, CHUNK_SIZE, CHUNK_OVERLAP))
  }

  class Store {
    var docs: map<string, DocRow>
    var chunks: map<(Id, nat), string>
    var found: nat
    var indexed: nat

    ghost function View(): Index
      reads this
    {
      Index(docs, chunks)
    }

    constructor ()
      ensures View() == Index(map[], map[]) && found == 0 && indexed == 0
    {
      docs, chunks, found, indexed := map[], map[], 0, 0;
    }

    /** emit: an error is logged or dropped, never returned. */
    method Emit(source: string, content: string, minted: Id, up: Outcomes)
      modifies this
      ensures View() == DocumentIndex.Emit(old(View()), source, VersionOf(content), minted, up)
      ensures var skipped := up.lookup && Unchanged(old(View()), source, VersionOf(content));
              && found == old(found) + (if skipped || up.row then 1 else 0)
              && indexed == old(indexed) + (if !skipped && up.row then 1 else 0)
    {
      var hash := Sha256(content);
      var existing := up.lookup && source in docs;
      if existing && docs[source].digest == hash {
        found := found + 1;
        return;
      }
      var id := if existing then docs[source].id else minted;
      if !up.row {
        return;
      }
      docs := docs[source := DocRow(if source in docs then docs[source].id else id, hash)];
      if up.delete {
        chunks := DropChunks(chunks, id);
      }
      var pieces := CutText(content, CHUNK_SIZE, CHUNK_OVERLAP);
      WriteAll(id, pieces, up);
      found, indexed := found + 1, indexed + 1;
    }

    method WriteAll(id: Id, pieces: seq<string>, up: Outcomes)
      modifies this`chunks
      ensures chunks == if HasId(docs, id) then PutChunks(old(chunks), id, pieces, up, |pieces|) else old(chunks)
    {
      for i := 0 to |pieces|
        invariant chunks == if HasId(docs, id) then PutChunks(old(chunks), id, pieces, up, i) else old(chunks)
      {
        if up.chunk(i) && HasId(docs, id) {
          chunks := chunks[(id, i) := pieces[i]];
        }
      }
    }

    /** upsertDocument: the first error ends the call. */
    method UpsertDocument(source: string, content: string, minted: Id, up: Outcomes) returns (written: nat, ok: bool)
      modifies this`docs, this`chunks
      ensures Reply(View(), written, ok) == Upsert(old(View()), source, VersionOf(content), minted, up)
    {
      var hash := Sha256(content);
      var existing := up.lookup && source in docs;
      if existing && docs[source].digest == hash {
        return 0, true;
      }
      var id := minted;
      if existing {
        id := docs[source].id;
        if !up.row { return 0, false; }
        docs := docs[source := DocRow(id, hash)];
        if !up.delete { return 0, false; }
        chunks := DropChunks(chunks, id);
      } else {
        if !up.row || source in docs { return 0, false; }
        docs := docs[source := DocRow(id, hash)];
      }
      var pieces := CutText(content, CHUNK_SIZE, CHUNK_OVERLAP);
      written, ok := WriteUntilError(id, pieces, up);
    }

    method WriteUntilError(id: Id, pieces: seq<string>, up: Outcomes) returns (written: nat, ok: bool)
      modifies this`chunks
      ensures Stored(chunks, written, ok) == StoreChunks(old(chunks), id, pieces, up, |pieces|)
    {
      for i := 0 to |pieces|
        invariant Stored(chunks, i, true) == StoreChunks(old(chunks), id, pieces, up, i)
      {
        StoreStops(old(chunks), id, pieces, up, i + 1, |pieces|);
        if !up.chunk(i) || (id, i) in chunks {
          return i, false;
        }
        chunks := chunks[(id, i) := pieces[i]];
      }
      return |pieces|, true;
    }
  }

  lemma {:induction false} StoreStops(chunks: map<(Id, nat), string>, id: Id, pieces: seq<string>, up: Outcomes, n: nat, m: nat)
    requires n <= m <= |pieces|
    ensures !StoreChunks(chunks, id, pieces, up, n).ok ==> StoreChunks(chunks, id, pieces, up, m) == StoreChunks(chunks, id, pieces, up, n)
    decreases m
  {
    if n < m { StoreStops(chunks, id, pieces, up, n, m - 1); }
  }

  // --------------------------------------------------------------- whole runs

  datatype Sync = Sync(source: string, content: string, attempt: Attempt)

  function Apply(ix: Index, s: Sync): Index { Try(ix, s.source, VersionOf(s.content), s.attempt) }

  function ApplyAll(ix: Index, syncs: seq<Sync>): Index
    decreases |syncs|
  {
    if syncs == [] then ix else ApplyAll(Apply(ix, syncs[0]), syncs[1..])
  }

  /** Each source's content as last synced. */
  function Latest(contents: map<string, string>, syncs: seq<Sync>): map<string, string>
    decreases |syncs|
  {
    if syncs == [] then contents else Latest(contents[syncs[0].source := syncs[0].content], syncs[1..])
  }

  function Versions(contents: map<string, string>): map<string, Version> {
    map s | s in contents :: VersionOf(contents[s])
  }

  /** Every database call is served and every made-up id is new. */
  ghost predicate Healthy(ix: Index, syncs: seq<Sync>)
    decreases |syncs|
  {
    syncs == [] ||
    (&& !HasId(ix.docs, syncs[0].attempt.minted)
     && syncs[0].attempt.up.lookup && Clean(ix, syncs[0].source, VersionOf(syncs[0].content), syncs[0].attempt.up)
     && Healthy(Apply(ix, syncs[0]), syncs[1..]))
  }

  lemma UpsertServed(ix: Index, source: string, v: Version, minted: Id, up: Outcomes)
    requires Keyed(ix) && !HasId(ix.docs, minted) && up.lookup && Clean(ix, source, v, up)
    ensures Upsert(ix, source, v, minted, up).ok
  {
    var id := if source in ix.docs then ix.docs[source].id else minted;
    FreshHasNoChunks(ix, minted);
    StoreSucceeds(if source in ix.docs then DropChunks(ix.chunks, id) else ix.chunks, id, v.pieces, up, |v.pieces|);
  }

  lemma {:induction false} SyncsMirror(ix: Index, contents: map<string, string>, syncs: seq<Sync>)
    requires Mirrors(ix, Versions(contents)) && Healthy(ix, syncs)
    ensures Mirrors(ApplyAll(ix, syncs), Versions(Latest(contents, syncs)))
    decreases |syncs|
  {
    if syncs != [] {
      var s, v := syncs[0], VersionOf(syncs[0].content);
      EmitMirrors(ix, Versions(contents), s.source, v, s.attempt.minted, s.attempt.up);
      if s.attempt.catalog {
        UpsertServed(ix, s.source, v, s.attempt.minted, s.attempt.up);
        UpsertIsEmit(ix, s.source, v, s.attempt.minted, s.attempt.up);
      }
      assert Versions(contents)[s.source := v] == Versions(contents[s.source := s.content]);
      SyncsMirror(Apply(ix, s), contents[s.source := s.content], syncs[1..]);
    }
  }

  /** After any run of syncs in which all calls succeed, each document's chunks are
      exactly the chunks of its latest content, at indices 0 .. n-1. */
  lemma {:induction false} IncrementalIsRebuild(syncs: seq<Sync>, source: string)
    requires Healthy(Index(map[], map[]), syncs)
    ensures var ix, latest := ApplyAll(Index(map[], map[]), syncs), Latest(map[], syncs);
            && (source in ix.docs <==> source in latest)
            && (source in latest ==> Right(ix, source, ChunkText(latest[source], 2048, 256)))
  {
    SyncsMirror(Index(map[], map[]), map[], syncs);
  }

  /** Two runs that end with the same contents, one of them a rebuild from scratch
      say, cannot be told apart by a reader who looks chunks up by source and index. */
  lemma {:induction false} SameContentsSameIndex(syncs: seq<Sync>, rebuild: seq<Sync>, source: string, i: nat)
    requires Healthy(Index(map[], map[]), syncs) && Healthy(Index(map[], map[]), rebuild)
    requires Latest(map[], syncs) == Latest(map[], rebuild)
    ensures var a, b := ApplyAll(Index(map[], map[]), syncs), ApplyAll(Index(map[], map[]), rebuild);
            && (source in a.docs <==> source in b.docs)
            && (source in a.docs ==>
                  var k, l := (a.docs[source].id, i), (b.docs[source].id, i);
                  (k in a.chunks <==> l in b.chunks) && (k in a.chunks ==> a.chunks[k] == b.chunks[l]))
  {
    IncrementalIsRebuild(syncs, source);
    IncrementalIsRebuild(rebuild, source);
    if source in Latest(map[], syncs) {
      var pieces := ChunkText(Latest(map[], syncs)[source], 2048, 256);
      var a, b := ApplyAll(Index(map[], map[]), syncs), ApplyAll(Index(map[], map[]), rebuild);
      assert SlotIs(a, a.docs[source].id, pieces, i) && SlotIs(b, b.docs[source].id, pieces, i);
    }
  }
}
