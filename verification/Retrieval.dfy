/** What search returns, given what an index proposes and what the tables hold. */
module Retrieval {
  import opened Identifiers
  import opened Text
  import opened Tables
  import opened VectorIndex

  /** What the index proposes: an id, as text, and a score. Nothing else it says is looked at. */
  datatype VectorMatch = VectorMatch(id: RawId<ChunkId>, score: real)

  datatype ValidatedChunk = ValidatedChunk(id: ChunkId, chunk: Chunk, model: string)

  datatype RetrievalResult = RetrievalResult(found: ValidatedChunk, score: real)

  // --- one chunk --------------------------------------------------------------------

  predicate IsRow(row: ChunkRow, id: ChunkId, embedding: Embedding) {
    row.chunk.index == id.index && row.version == id.version && row.embedding == Some(embedding)
  }

  /** The row with this id, embedded by `embedding`. */
  function RowFor(rows: seq<ChunkRow>, id: ChunkId, embedding: Embedding): Option<ChunkRow> {
    if rows == [] then None
    else if IsRow(rows[|rows| - 1], id, embedding) then Some(rows[|rows| - 1])
    else RowFor(rows[..|rows| - 1], id, embedding)
  }

  lemma {:induction false} RowForIs(rows: seq<ChunkRow>, id: ChunkId, embedding: Embedding)
    ensures RowFor(rows, id, embedding).Some? ==>
              RowFor(rows, id, embedding).value in rows && IsRow(RowFor(rows, id, embedding).value, id, embedding)
    ensures RowFor(rows, id, embedding).None? ==> forall i | 0 <= i < |rows| :: !IsRow(rows[i], id, embedding)
  {
    if rows != [] {
      RowForIs(rows[..|rows| - 1], id, embedding);
    }
  }

  /** The document is the user's, live and ready. */
  predicate Searchable(t: Tables, x: Uuid, user: RawId<Uuid>) {
    && x in t && user.parsed == Some(t[x].row.owner)
    && !t[x].row.deleted && t[x].row.status == Ready
  }

  /** The chunk this user may retrieve under `id`. */
  function Found(t: Tables, id: ChunkId, user: RawId<Uuid>, embedding: Embedding): Option<ValidatedChunk> {
    if !Searchable(t, id.document, user) then None
    else
      match RowFor(t[id.document].chunks, id, embedding)
      case None => None
      case Some(row) => Some(ValidatedChunk(id, row.chunk, embedding.model))
  }

  // --- the answer to a batch of ids ---------------------------------------------------

  predicate Proposed(ids: seq<RawId<ChunkId>>, id: ChunkId) {
    exists i | 0 <= i < |ids| :: ids[i].parsed == Some(id)
  }

  /** One entry a chunk the user may retrieve, under the canonical text of its id, whatever text proposed it. */
  ghost predicate Validates(t: Tables, ids: seq<RawId<ChunkId>>, user: RawId<Uuid>, embedding: Embedding,
                            validated: map<RawId<ChunkId>, ValidatedChunk>)
  {
    && (forall key | key in validated ::
          && key.parsed.Some? && key == Canonical(key.parsed.value)
          && Proposed(ids, key.parsed.value)
          && Found(t, key.parsed.value, user, embedding) == Some(validated[key]))
    && (forall id | Proposed(ids, id) && Found(t, id, user, embedding).Some? :: Canonical(id) in validated)
  }

  // --- the results of a candidate list ---------------------------------------------------

  /** No candidate before `n` has this id. */
  predicate IsNew(candidates: seq<VectorMatch>, n: nat, id: RawId<ChunkId>)
    requires n <= |candidates|
  {
    forall i | 0 <= i < n :: candidates[i].id != id
  }

  /** Candidate `n` is the first with its id, spells it canonically, and the user may retrieve its chunk. */
  predicate Kept(t: Tables, candidates: seq<VectorMatch>, n: nat, user: RawId<Uuid>, embedding: Embedding)
    requires n < |candidates|
  {
    var id := candidates[n].id;
    IsNew(candidates, n, id) && id.parsed.Some? && id.spelling == 0 && Found(t, id.parsed.value, user, embedding).Some?
  }

  function ResultOf(t: Tables, candidate: VectorMatch, user: RawId<Uuid>, embedding: Embedding): RetrievalResult
    requires candidate.id.parsed.Some? && Found(t, candidate.id.parsed.value, user, embedding).Some?
  {
    RetrievalResult(Found(t, candidate.id.parsed.value, user, embedding).value, candidate.score)
  }

  /** The results of the first `n` candidates, in their order. */
  function Results(t: Tables, candidates: seq<VectorMatch>, n: nat, user: RawId<Uuid>, embedding: Embedding)
    : seq<RetrievalResult>
    requires n <= |candidates|
  {
    if n == 0 then []
    else
      Results(t, candidates, n - 1, user, embedding)
      + if Kept(t, candidates, n - 1, user, embedding)
        then [ResultOf(t, candidates[n - 1], user, embedding)] else []
  }

  /** The candidate each result comes from. */
  function Positions(t: Tables, candidates: seq<VectorMatch>, n: nat, user: RawId<Uuid>, embedding: Embedding): seq<nat>
    requires n <= |candidates|
  {
    if n == 0 then []
    else
      Positions(t, candidates, n - 1, user, embedding)
      + if Kept(t, candidates, n - 1, user, embedding) then [n - 1] else []
  }

  /** Results and kept candidates correspond one to one, in candidate order. */
  lemma {:induction false} ResultsAre(t: Tables, candidates: seq<VectorMatch>, n: nat, user: RawId<Uuid>, embedding: Embedding)
    requires n <= |candidates|
    ensures var at, results := Positions(t, candidates, n, user, embedding), Results(t, candidates, n, user, embedding);
            && |at| == |results|
            && (forall i | 0 <= i < |at| ::
                  && at[i] < n && Kept(t, candidates, at[i], user, embedding)
                  && results[i] == ResultOf(t, candidates[at[i]], user, embedding))
            && (forall i, j | 0 <= i < j < |at| :: at[i] < at[j])
            && (forall k | 0 <= k < n && Kept(t, candidates, k, user, embedding) :: k in at)
  {
    hide Kept, ResultOf, Found;
    if n > 0 {
      ResultsAre(t, candidates, n - 1, user, embedding);
      var before, at := Positions(t, candidates, n - 1, user, embedding), Positions(t, candidates, n, user, embedding);
      forall k | 0 <= k < n && Kept(t, candidates, k, user, embedding)
        ensures k in at
      {
        if k == n - 1 {
          assert at[|at| - 1] == k;
        } else {
          assert k in before;
        }
      }
    }
  }

  /** This result is exactly what the tables hold for a chunk the user may retrieve. */
  ghost predicate IsOwn(t: Tables, user: RawId<Uuid>, embedding: Embedding, r: RetrievalResult) {
    && r.found.id.document in t
    && var e := t[r.found.id.document];
    && user.parsed == Some(e.row.owner) && !e.row.deleted && e.row.status == Ready
    && r.found.model == embedding.model
    && exists i | 0 <= i < |e.chunks| ::
         && e.chunks[i].chunk == r.found.chunk && r.found.chunk.index == r.found.id.index
         && e.chunks[i].version == r.found.id.version && e.chunks[i].embedding == Some(embedding)
  }

  /**
   Isolation. Whatever the index proposes, with wrong owners, repeats, texts that are no ids and several
   texts of one id: every result is a chunk of the user's own live, ready documents under the active model
   and width, read from the tables; no chunk is returned twice; and results stand in candidate order, each
   with the score of the first candidate of its id.
   */
  lemma {:induction false} IsolatedUnderAnyIndex(t: Tables, candidates: seq<VectorMatch>, user: RawId<Uuid>, embedding: Embedding)
    ensures var results := Results(t, candidates, |candidates|, user, embedding);
            && (forall i | 0 <= i < |results| :: IsOwn(t, user, embedding, results[i]))
            && (forall i, j | 0 <= i < j < |results| :: results[i].found.id != results[j].found.id)
            && (forall i | 0 <= i < |results| :: ProposedFirst(candidates, results[i]))
  {
    hide Results, Positions, Found;
    ResultsAre(t, candidates, |candidates|, user, embedding);
    var results := Results(t, candidates, |candidates|, user, embedding);
    var at := Positions(t, candidates, |candidates|, user, embedding);
    forall i | 0 <= i < |results|
      ensures IsOwn(t, user, embedding, results[i]) && ProposedFirst(candidates, results[i])
      ensures candidates[at[i]].id == Canonical(results[i].found.id)
    {
      FoundIsOwn(t, candidates[at[i]], user, embedding);
      assert IsNew(candidates, at[i], candidates[at[i]].id);
    }
  }

  predicate ProposesAt(candidates: seq<VectorMatch>, k: nat, id: ChunkId) {
    k < |candidates| && candidates[k].id == Canonical(id)
  }

  lemma {:induction false} FirstProposal(candidates: seq<VectorMatch>, k: nat, id: ChunkId) returns (first: nat)
    requires ProposesAt(candidates, k, id)
    ensures ProposesAt(candidates, first, id) && IsNew(candidates, first, Canonical(id))
    decreases k
  {
    if j :| 0 <= j < k && candidates[j].id == Canonical(id) {
      first := FirstProposal(candidates, j, id);
    } else {
      first := k;
    }
  }

  /** A chunk is returned exactly when its canonical id is proposed and the user may retrieve it. */
  lemma {:induction false} ReturnedIffProposedAndOwn(t: Tables, candidates: seq<VectorMatch>, user: RawId<Uuid>, embedding: Embedding, id: ChunkId)
    ensures var results := Results(t, candidates, |candidates|, user, embedding);
            (exists i | 0 <= i < |results| :: results[i].found.id == id)
            <==> (exists k: nat :: ProposesAt(candidates, k, id)) && Found(t, id, user, embedding).Some?
  {
    hide Results, Positions, Found, ResultOf;
    ResultsAre(t, candidates, |candidates|, user, embedding);
    var results := Results(t, candidates, |candidates|, user, embedding);
    var at := Positions(t, candidates, |candidates|, user, embedding);
    if i :| 0 <= i < |results| && results[i].found.id == id {
      FoundIsOwn(t, candidates[at[i]], user, embedding);
      assert ProposesAt(candidates, at[i], id);
    }
    if k: nat :| ProposesAt(candidates, k, id) && Found(t, id, user, embedding).Some? {
      var first := FirstProposal(candidates, k, id);
      assert first in at;
      var i :| 0 <= i < |at| && at[i] == first;
      FoundIsOwn(t, candidates[first], user, embedding);
    }
  }

  /** The first candidate with this result's id has its score. */
  ghost predicate ProposedFirst(candidates: seq<VectorMatch>, r: RetrievalResult) {
    exists k | 0 <= k < |candidates| ::
      candidates[k] == VectorMatch(Canonical(r.found.id), r.score) && IsNew(candidates, k, candidates[k].id)
  }

  lemma FoundIsOwn(t: Tables, candidate: VectorMatch, user: RawId<Uuid>, embedding: Embedding)
    requires candidate.id.parsed.Some? && Found(t, candidate.id.parsed.value, user, embedding).Some?
    ensures var r := ResultOf(t, candidate, user, embedding);
            && IsOwn(t, user, embedding, r) && r.score == candidate.score && r.found.id == candidate.id.parsed.value
  {
    var id := candidate.id.parsed.value;
    RowForIs(t[id.document].chunks, id, embedding);
  }
}
