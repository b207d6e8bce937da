/** The repositories, over the session they share. */
module Repositories {
  import opened Identifiers
  import opened Text
  import opened Tables
  import Statements = Tables
  import opened Retrieval

  /**
   One database session: the tables as its transaction sees them. A commit publishes `tables`; a rollback
   forgets them.
   */
  class Session {
    var tables: Tables
    const now: nat

    constructor (tables: Tables, now: nat)
      ensures this.tables == tables && this.now == now
    {
      this.tables := tables;
      this.now := now;
    }
  }

  /** A live document of this user with this content. */
  predicate HasLiveContent(t: Tables, x: Uuid, hash: Hash, user: RawId<Uuid>) {
    && x in t && user.parsed == Some(t[x].row.owner)
    && !t[x].row.deleted && t[x].row.contentHash == Some(hash)
  }

  class DocumentRepository {
    const session: Session

    constructor (session: Session)
      ensures this.session == session
    {
      this.session := session;
    }

    /** `create`; false where the per-owner content index refuses the row. */
    method Create(id: Uuid, row: Document) returns (created: bool)
      requires id !in session.tables
      modifies session
      ensures created <==> UniqueContent(old(session.tables)[id := Entry(row, [], [])])
      ensures session.tables == if created then old(session.tables)[id := Entry(row, [], [])] else old(session.tables)
    {
      var grown := session.tables[id := Entry(row, [], [])];
      created := UniqueContent(grown);
      if created {
        session.tables := grown;
      }
    }

    /** `find_live_by_content_hash_for_user` */
    method FindLiveByContentHashForUser(hash: Hash, user: RawId<Uuid>) returns (found: Option<Uuid>)
      ensures found.Some? ==> HasLiveContent(session.tables, found.value, hash, user)
      ensures found.None? ==> forall x :: !HasLiveContent(session.tables, x, hash, user)
    {
      if x :| x in session.tables && HasLiveContent(session.tables, x, hash, user) {
        return Some(x);
      }
      return None;
    }

    /** `get_ingestion_target_for_user` */
    method GetIngestionTargetForUser(document: RawId<Uuid>, user: RawId<Uuid>) returns (target: Option<Document>)
      ensures target.Some? <==> Owned(session.tables, document, user)
      ensures target.Some? ==> target.value == session.tables[document.parsed.value].row
    {
      if document.parsed.None? || user.parsed.None? || document.parsed.value !in session.tables {
        return None;
      }
      var row := session.tables[document.parsed.value].row;
      if row.owner != user.parsed.value || row.deleted {
        return None;
      }
      return Some(row);
    }

    /** `live_document_exists` */
    method LiveDocumentExists(document: RawId<Uuid>) returns (exists_: bool)
      ensures exists_ == Statements.LiveDocumentExists(session.tables, document)
    {
      if document.parsed.None? || document.parsed.value !in session.tables {
        return false;
      }
      exists_ := !session.tables[document.parsed.value].row.deleted;
    }

    /** `transition_status_for_user` */
    method TransitionStatusForUser(document: RawId<Uuid>, user: RawId<Uuid>, expected: Status, next: Status,
                                   reason: Option<Reason>, chunkCount: Option<nat>) returns (moved: bool)
      modifies session
      ensures (session.tables, moved)
              == Transition(old(session.tables), session.now, document, user, expected, next, reason, chunkCount)
    {
      var target := GetIngestionTargetForUser(document, user);
      if target.None? || target.value.status != expected {
        return false;
      }
      var row := target.value.(status := next, failureReason := reason, updatedAt := session.now);
      if chunkCount.Some? {
        row := row.(chunkCount := chunkCount.value);
      }
      var id := document.parsed.value;
      session.tables := session.tables[id := session.tables[id].(row := row)];
      moved := true;
    }

    /** `fail_stale_processing` */
    method FailStaleProcessing(staleAfter: nat) returns (reaped: set<Uuid>)
      modifies session
      ensures session.tables == FailStale(old(session.tables), session.now, staleAfter)
      ensures forall x :: x in reaped <==> x in old(session.tables) && session.tables[x] != old(session.tables[x])
    {
      reaped := set x | x in session.tables && Stale(session.tables[x].row, session.now, staleAfter);
      session.tables := map x | x in session.tables ::
        if x in reaped
        then session.tables[x].(row := session.tables[x].row.(status := Failed, failureReason := Some(StaleProcessing),
                                                              updatedAt := session.now))
        else session.tables[x];
    }

    /** `soft_delete_for_user` */
    method SoftDeleteForUser(document: RawId<Uuid>, user: RawId<Uuid>) returns (found: bool)
      modifies session
      ensures (session.tables, found) == SoftDelete(old(session.tables), session.now, document, user)
    {
      var target := GetIngestionTargetForUser(document, user);
      if target.None? {
        return false;
      }
      var id := document.parsed.value;
      session.tables := session.tables[id := session.tables[id].(row := target.value.(deleted := true,
                                                                                      updatedAt := session.now))];
      found := true;
    }
  }

  class DocumentPageRepository {
    const session: Session

    constructor (session: Session)
      ensures this.session == session
    {
      this.session := session;
    }

    /** `add_for_user`; false where it raises. */
    method AddForUser(document: RawId<Uuid>, user: RawId<Uuid>, pages: seq<Page>) returns (added: bool)
      modifies session
      ensures var result := AddPages(old(session.tables), document, user, pages);
              && added == result.Some?
              && session.tables == if added then result.value else old(session.tables)
    {
      if !Owned(session.tables, document, user) {
        return false;
      }
      var id := document.parsed.value;
      var entry := session.tables[id];
      if exists i, j | 0 <= i < |entry.pages| && 0 <= j < |pages| :: entry.pages[i].number == pages[j].number {
        return false;
      }
      session.tables := session.tables[id := entry.(pages := entry.pages + pages)];
      added := true;
    }

    /** `list_for_document` */
    method ListForDocument(document: RawId<Uuid>, user: RawId<Uuid>) returns (pages: seq<Page>)
      ensures pages == ListPages(session.tables, document, user)
    {
      pages := if Owned(session.tables, document, user) then session.tables[document.parsed.value].pages else [];
    }
  }

  class DocumentChunkRepository {
    const session: Session

    constructor (session: Session)
      ensures this.session == session
    {
      this.session := session;
    }

    /** `add_many`; false where it raises. */
    method AddMany(document: RawId<Uuid>, user: RawId<Uuid>, chunks: seq<Chunk>, version: Version) returns (added: bool)
      modifies session
      ensures var result := AddChunks(old(session.tables), document, user, chunks, version);
              && added == result.Some?
              && session.tables == if added then result.value else old(session.tables)
    {
      if !Owned(session.tables, document, user) {
        return false;
      }
      var id := document.parsed.value;
      var entry := session.tables[id];
      if exists i, j | 0 <= i < |entry.chunks| && 0 <= j < |chunks| :: entry.chunks[i].chunk.index == chunks[j].index {
        return false;
      }
      var rows := seq(|chunks|, i requires 0 <= i < |chunks| => ChunkRow(chunks[i], version, None));
      session.tables := session.tables[id := entry.(chunks := entry.chunks + rows)];
      assert rows == RowsFor(chunks, version, None);
      added := true;
    }

    /** `list_for_document` */
    method ListForDocument(document: RawId<Uuid>, user: RawId<Uuid>) returns (rows: seq<ChunkRow>)
      ensures rows == ListChunks(session.tables, document, user)
    {
      rows := if Owned(session.tables, document, user) then session.tables[document.parsed.value].chunks else [];
    }

    /** `provenance_for_document` */
    method ProvenanceForDocument(document: RawId<Uuid>, user: RawId<Uuid>) returns (versions: set<Version>)
      ensures versions == Provenance(session.tables, document, user)
    {
      var rows := ListForDocument(document, user);
      versions := set i | 0 <= i < |rows| :: rows[i].version;
    }

    /** `delete_for_document` */
    method DeleteForDocument(document: RawId<Uuid>, user: RawId<Uuid>) returns (count: nat)
      modifies session
      ensures session.tables == DeleteChunks(old(session.tables), document, user)
      ensures count == |ListChunks(old(session.tables), document, user)|
    {
      if !Owned(session.tables, document, user) {
        return 0;
      }
      var id := document.parsed.value;
      count := |session.tables[id].chunks|;
      session.tables := session.tables[id := session.tables[id].(chunks := [])];
    }

    /** `mark_embedded` */
    method MarkEmbedded(document: RawId<Uuid>, user: RawId<Uuid>, embedding: Embedding) returns (count: nat)
      modifies session
      ensures session.tables == Statements.MarkEmbedded(old(session.tables), document, user, embedding)
      ensures count == |ListChunks(old(session.tables), document, user)|
    {
      if !Owned(session.tables, document, user) {
        return 0;
      }
      var id := document.parsed.value;
      var entry := session.tables[id];
      count := |entry.chunks|;
      session.tables := session.tables[id := entry.(chunks := Marked(entry.chunks, embedding))];
    }

    /** `validate_for_retrieval`: one entry for each row the join selects. */
    method ValidateForRetrieval(chunkIds: seq<RawId<ChunkId>>, user: RawId<Uuid>, embedding: Embedding)
      returns (validated: map<RawId<ChunkId>, ValidatedChunk>)
      ensures Validates(session.tables, chunkIds, user, embedding, validated)
    {
      hide Found;
      validated := map[];
      for i := 0 to |chunkIds|
        invariant Validates(session.tables, chunkIds[..i], user, embedding, validated)
      {
        ghost var before := validated;
        if chunkIds[i].parsed.Some? {
          var id := chunkIds[i].parsed.value;
          var row := Found(session.tables, id, user, embedding);
          if row.Some? {
            validated := validated[Canonical(id) := row.value];
          }
        }
        ValidatesOneMore(session.tables, chunkIds, i, user, embedding, before, validated);
      }
      assert chunkIds[..|chunkIds|] == chunkIds;
    }
  }

  lemma ValidatesOneMore(t: Tables, ids: seq<RawId<ChunkId>>, i: nat, user: RawId<Uuid>, embedding: Embedding,
                         before: map<RawId<ChunkId>, ValidatedChunk>, after: map<RawId<ChunkId>, ValidatedChunk>)
    requires i < |ids| && Validates(t, ids[..i], user, embedding, before)
    requires after == if ids[i].parsed.Some? && Found(t, ids[i].parsed.value, user, embedding).Some?
                      then before[Canonical(ids[i].parsed.value) := Found(t, ids[i].parsed.value, user, embedding).value]
                      else before
    ensures Validates(t, ids[..i + 1], user, embedding, after)
  {
    hide Found;
    forall id
      ensures Proposed(ids[..i + 1], id) <==> Proposed(ids[..i], id) || ids[i].parsed == Some(id)
    {
      var front, more := ids[..i], ids[..i + 1];
      if ids[i].parsed == Some(id) {
        assert more[i].parsed == Some(id);
      }
      if k :| 0 <= k < |front| && front[k].parsed == Some(id) {
        assert more[k].parsed == Some(id);
      }
      if k :| 0 <= k < |more| && more[k].parsed == Some(id) {
        assert k < i ==> front[k].parsed == Some(id);
      }
    }
  }
}
