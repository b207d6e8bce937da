/** Search over the states the pipeline reaches. */
module SearchTheorems {
  import opened Identifiers
  import opened Text
  import opened Tables
  import opened VectorIndex
  import opened Retrieval
  import opened VectorStores
  import opened SearchServices
  import opened Pipeline
  import opened PipelineInvariant
  import opened PipelineSafety
  import opened PipelineTheorems

  function ScoreFor(env: Env, similar: Similarity, q: IndexQuery, embedding: Embedding, chunk: Chunk): real {
    similar(q.vector, env.embed(embedding, chunk.content))
  }

  /**
   The plain specification, over the tables alone: row `i` of `x` is a chunk of a live, ready document of
   the owner, embedded by the active model, in a document asked for, that scores at least the threshold.
   */
  ghost predicate Wanted(env: Env, t: Tables, similar: Similarity, q: IndexQuery, embedding: Embedding, x: Uuid, i: nat) {
    && Searchable(t, x, q.owner)
    && i < |t[x].chunks|
    && t[x].chunks[i].embedding == Some(embedding)
    && (q.documents.None? || Spelt(env, x) in q.documents.value)
    && ScoreFor(env, similar, q, embedding, t[x].chunks[i].chunk) >= q.threshold
  }

  function OwnersPoints(points: Points, owner: RawId<Uuid>): set<ChunkId> {
    set id | id in points && points[id].payload.user == owner
  }

  /** The point of a ready document's row. */
  lemma PointOfRow(env: Env, events: seq<Event>, s: State, x: Uuid, i: nat)
    requires Reached(env, events, s)
    requires x in s.tables && s.tables[x].row.status == Ready && i < |s.tables[x].chunks|
    ensures var e := s.tables[x];
            var id := IdOf(x, e.chunks[i]);
            && e.chunks[i].embedding.Some?
            && id.document == x && id.index == i
            && id in s.points
            && s.points[id].vector == env.embed(e.chunks[i].embedding.value, e.chunks[i].chunk.content)
            && s.points[id].payload.user == Canonical(e.row.owner)
            && s.points[id].payload.document == Spelt(env, x)
  {
    hide Reached;
    ReadyIsExactlyIndexed(env, events, s, x);
    var id := IdOf(x, s.tables[x].chunks[i]);
    NoOldGeneration(env, events, s);
    assert id == IdOf(x, s.tables[x].chunks[id.index]);
    RowsAreDistinct(env, x, s.tables[x].row.owner, s.tables[x].chunks, s.tables[x].chunks[0].embedding.value, s.points, i, id.index);
  }

  lemma RowsAreDistinct(env: Env, x: Uuid, owner: Uuid, rows: seq<ChunkRow>, embedding: Embedding, points: Points, i: nat, j: nat)
    requires ExactlyIndexed(env, x, owner, rows, embedding, points)
    requires i < |rows| && j < |rows| && IdOf(x, rows[i]) == IdOf(x, rows[j])
    ensures i == j
  {
  }

  /** What a result is, in the terms of the plain specification. */
  lemma ResultIsWanted(env: Env, events: seq<Event>, s: State, similar: Similarity, q: IndexQuery, embedding: Embedding,
                       candidates: seq<VectorMatch>, k: nat)
    requires Reached(env, events, s) && BestMatches(similar, q, s.points, candidates)
    requires k < |candidates| && Kept(s.tables, candidates, k, q.owner, embedding)
    ensures var r := ResultOf(s.tables, candidates[k], q.owner, embedding);
            var x, i := r.found.id.document, r.found.id.index;
            && Wanted(env, s.tables, similar, q, embedding, x, i)
            && r.found == ValidatedChunk(IdOf(x, s.tables[x].chunks[i]), s.tables[x].chunks[i].chunk, embedding.model)
            && r.score == ScoreFor(env, similar, q, embedding, r.found.chunk)
            && r.score == candidates[k].score
  {
    hide Reached, IsNew;
    var id := candidates[k].id.parsed.value;
    var x := id.document;
    RowForIs(s.tables[x].chunks, id, embedding);
    var row := RowFor(s.tables[x].chunks, id, embedding).value;
    var j :| 0 <= j < |s.tables[x].chunks| && s.tables[x].chunks[j] == row;
    PointOfRow(env, events, s, x, j);
  }

  lemma {:induction false} IdsCounted(matches: seq<VectorMatch>, n: nat) returns (ids: set<ChunkId>)
    requires n <= |matches|
    requires forall i | 0 <= i < |matches| :: matches[i].id.parsed.Some? && matches[i].id.spelling == 0
    requires forall i, j | 0 <= i < j < |matches| :: matches[i].id != matches[j].id
    ensures |ids| == n
    ensures forall id | id in ids :: exists i | 0 <= i < n :: matches[i].id == Canonical(id)
  {
    if n == 0 {
      ids := {};
    } else {
      var before := IdsCounted(matches, n - 1);
      ids := before + {matches[n - 1].id.parsed.value};
      assert matches[n - 1].id == Canonical(matches[n - 1].id.parsed.value);
    }
  }

  lemma SmallerSet(a: set<ChunkId>, b: set<ChunkId>, extra: ChunkId)
    requires a <= b && extra in b && extra !in a
    ensures |a| < |b|
  {
    assert a + {extra} <= b;
    Cardinality(a + {extra}, b);
  }

  lemma {:induction false} Cardinality(a: set<ChunkId>, b: set<ChunkId>)
    requires a <= b
    ensures |a| <= |b|
    decreases |a|
  {
    if a != {} {
      var x :| x in a;
      Cardinality(a - {x}, b - {x});
    }
  }

  /** With room for all of the owner's points, every point that passes is listed. */
  lemma NothingCutOff(similar: Similarity, q: IndexQuery, points: Points, matches: seq<VectorMatch>, id: ChunkId)
    requires BestMatches(similar, q, points, matches) && |OwnersPoints(points, q.owner)| <= q.limit
    requires Passing(similar, q, points, id)
    ensures Listed(matches, id)
  {
    hide ScoreOf;
    if !Listed(matches, id) {
      var ids := IdsCounted(matches, |matches|);
      forall other | other in ids
        ensures other in OwnersPoints(points, q.owner)
      {
        var i :| 0 <= i < |matches| && matches[i].id == Canonical(other);
      }
      SmallerSet(ids, OwnersPoints(points, q.owner), id);
      assert false;
    }
  }

  lemma WantedIsListed(env: Env, events: seq<Event>, s: State, similar: Similarity, q: IndexQuery, embedding: Embedding,
                       candidates: seq<VectorMatch>, x: Uuid, i: nat)
    requires Reached(env, events, s) && BestMatches(similar, q, s.points, candidates)
    requires q.owner.spelling == 0 && |OwnersPoints(s.points, q.owner)| <= q.limit
    requires Wanted(env, s.tables, similar, q, embedding, x, i)
    ensures var id := IdOf(x, s.tables[x].chunks[i]);
            Listed(candidates, id) && Found(s.tables, id, q.owner, embedding).Some?
  {
    hide Reached, BestMatches, Listed;
    PointOfRow(env, events, s, x, i);
    var id := IdOf(x, s.tables[x].chunks[i]);
    assert s.points[id].payload.user == q.owner;
    assert ScoreOf(similar, q, s.points[id]) == ScoreFor(env, similar, q, embedding, s.tables[x].chunks[i].chunk);
    NothingCutOff(similar, q, s.points, candidates, id);
    RowForIs(s.tables[x].chunks, id, embedding);
    assert IsRow(s.tables[x].chunks[i], id, embedding);
  }

  /** The results hold exactly the wanted chunks, each once, with its score, best first. */
  ghost predicate AgreesWithTables(env: Env, t: Tables, similar: Similarity, q: IndexQuery, embedding: Embedding,
                                   results: seq<RetrievalResult>)
  {
    && (forall k | 0 <= k < |results| ::
          && var r := results[k];
          && var x, i := r.found.id.document, r.found.id.index;
          && Wanted(env, t, similar, q, embedding, x, i)
          && r.found == ValidatedChunk(IdOf(x, t[x].chunks[i]), t[x].chunks[i].chunk, embedding.model)
          && r.score == ScoreFor(env, similar, q, embedding, r.found.chunk))
    && (forall x: Uuid, i: nat | Wanted(env, t, similar, q, embedding, x, i) :: Returns(results, IdOf(x, t[x].chunks[i])))
    && (forall k, l | 0 <= k < l < |results| ::
          results[k].found.id != results[l].found.id && results[k].score >= results[l].score)
  }

  predicate Returns(results: seq<RetrievalResult>, id: ChunkId) {
    exists k | 0 <= k < |results| :: results[k].found.id == id
  }

  /**
   Search agrees with the plain specification: in every state the pipeline reaches, with a limit of at
   least the number of the owner's points, whatever order the index gives equal scores.
   */
  lemma {:induction false} SearchAgreesWithTables(env: Env, events: seq<Event>, s: State, similar: Similarity, q: IndexQuery,
                               embedding: Embedding, candidates: seq<VectorMatch>)
    requires Reached(env, events, s) && BestMatches(similar, q, s.points, candidates)
    requires q.owner.spelling == 0 && |OwnersPoints(s.points, q.owner)| <= q.limit
    ensures AgreesWithTables(env, s.tables, similar, q, embedding,
                             Results(s.tables, candidates, |candidates|, q.owner, embedding))
  {
    hide Reached, Results, Positions, ResultOf, Found, Wanted, OwnersPoints, Kept, ScoreFor, Returns;
    var t, results := s.tables, Results(s.tables, candidates, |candidates|, q.owner, embedding);
    var at := Positions(t, candidates, |candidates|, q.owner, embedding);
    ResultsAre(t, candidates, |candidates|, q.owner, embedding);
    IsolatedUnderAnyIndex(t, candidates, q.owner, embedding);
    forall k | 0 <= k < |results|
      ensures var r := results[k];
              var x, i := r.found.id.document, r.found.id.index;
              && Wanted(env, t, similar, q, embedding, x, i)
              && x in t && i < |t[x].chunks|
              && r.found == ValidatedChunk(IdOf(x, t[x].chunks[i]), t[x].chunks[i].chunk, embedding.model)
              && r.score == ScoreFor(env, similar, q, embedding, r.found.chunk)
              && r.score == candidates[at[k]].score
    {
      ResultIsWanted(env, events, s, similar, q, embedding, candidates, at[k]);
      WantedIsRow(env, t, similar, q, embedding, results[k].found.id.document, results[k].found.id.index);
    }
    forall x: Uuid, i: nat | Wanted(env, t, similar, q, embedding, x, i)
      ensures x in t && i < |t[x].chunks| && Returns(results, IdOf(x, t[x].chunks[i]))
    {
      WantedIsRow(env, t, similar, q, embedding, x, i);
      WantedIsListed(env, events, s, similar, q, embedding, candidates, x, i);
      ListedIsReturned(t, candidates, q.owner, embedding, IdOf(x, t[x].chunks[i]));
    }
  }

  lemma WantedIsRow(env: Env, t: Tables, similar: Similarity, q: IndexQuery, embedding: Embedding, x: Uuid, i: nat)
    requires Wanted(env, t, similar, q, embedding, x, i)
    ensures x in t && i < |t[x].chunks|
  {
  }

  lemma {:induction false} ListedIsReturned(t: Tables, candidates: seq<VectorMatch>, user: RawId<Uuid>, embedding: Embedding, id: ChunkId)
    requires Listed(candidates, id) && Found(t, id, user, embedding).Some?
    ensures Returns(Results(t, candidates, |candidates|, user, embedding), id)
  {
    hide Found, Results;
    var k :| 0 <= k < |candidates| && candidates[k].id == Canonical(id);
    assert ProposesAt(candidates, k, id);
    ReturnedIffProposedAndOwn(t, candidates, user, embedding, id);
  }

  // --- the index searched first, the tables read later -----------------------------------------

  /** Rows of one version and number hold the same text at every moment of a run. */
  lemma SameText(env: Env, before: seq<Event>, after: seq<Event>, s: State, r: State, x: Uuid, i: nat, j: nat)
    requires Reached(env, before, s) && Reached(env, before + after, r) && x in s.tables && x in r.tables
    requires i < |s.tables[x].chunks| && j < |r.tables[x].chunks|
    requires s.tables[x].chunks[i].version == r.tables[x].chunks[j].version && r.tables[x].chunks[j].chunk.index == i
    ensures s.tables[x].chunks[i].chunk == r.tables[x].chunks[j].chunk && j == i
  {
    hide Inv, Run, AlikeJobs, Indexed;
    ReachedInv(env, before, s);
    ReachedInv(env, before + after, r);
    DocumentFacts(env, s, x);
    DocumentFacts(env, r, x);
    StatusesNeverGoBack(env, before, after, s, r, x);
  }

  /** What a result is when the tables are read at a later moment of the run than the index. */
  ghost predicate StillRight(env: Env, s: State, t: Tables, similar: Similarity, q: IndexQuery, embedding: Embedding,
                             r: RetrievalResult)
  {
    var id, x, i := r.found.id, r.found.id.document, r.found.id.index;
    && Searchable(t, x, q.owner) && i < |t[x].chunks| && t[x].chunks[i].embedding == Some(embedding)
    && (q.documents.None? || Spelt(env, x) in q.documents.value)
    && r.found == ValidatedChunk(IdOf(x, t[x].chunks[i]), t[x].chunks[i].chunk, embedding.model)
    && id in s.points
    && r.score == similar(q.vector, env.embed(s.points[id].payload.embedding, r.found.chunk.content)) >= q.threshold
    && x in s.tables
    && (s.tables[x].row.status == Ready ==> s.points[id].payload.embedding == embedding)
  }

  lemma LaterResult(env: Env, before: seq<Event>, after: seq<Event>, s: State, r: State, similar: Similarity,
                    q: IndexQuery, embedding: Embedding, candidates: seq<VectorMatch>, k: nat)
    requires Reached(env, before, s) && Reached(env, before + after, r)
    requires BestMatches(similar, q, s.points, candidates)
    requires k < |candidates| && Kept(r.tables, candidates, k, q.owner, embedding)
    ensures StillRight(env, s, r.tables, similar, q, embedding, ResultOf(r.tables, candidates[k], q.owner, embedding))
    ensures ResultOf(r.tables, candidates[k], q.owner, embedding).score == candidates[k].score
  {
    hide Reached, IsNew, Inv, RowFor;
    var id := candidates[k].id.parsed.value;
    var x := id.document;
    RowForIs(r.tables[x].chunks, id, embedding);
    var j :| 0 <= j < |r.tables[x].chunks| && r.tables[x].chunks[j] == RowFor(r.tables[x].chunks, id, embedding).value;
    ReachedInv(env, before, s);
    PointFacts(env, s, id);
    StatusesNeverGoBack(env, before, after, s, r, x);
    SameText(env, before, after, s, r, x, id.index, j);
    if s.tables[x].row.status == Ready {
      PointOfRow(env, before, s, x, j);
      ReadyPoint(env, before, s, x, j);
    }
  }

  /** The point of a ready document's row says what embedded it. */
  lemma ReadyPoint(env: Env, events: seq<Event>, s: State, x: Uuid, i: nat)
    requires Reached(env, events, s) && x in s.tables && s.tables[x].row.status == Ready && i < |s.tables[x].chunks|
    ensures var id := IdOf(x, s.tables[x].chunks[i]);
            && id in s.points && s.tables[x].chunks[i].embedding == Some(s.points[id].payload.embedding)
  {
    hide Reached;
    ReadyIsExactlyIndexed(env, events, s, x);
  }

  /** A wanted chunk whose document is not deleted meanwhile is still what the tables hold. */
  lemma WantedStays(env: Env, before: seq<Event>, after: seq<Event>, s: State, r: State, similar: Similarity,
                    q: IndexQuery, embedding: Embedding, x: Uuid, i: nat)
    requires Reached(env, before, s) && Reached(env, before + after, r)
    requires Wanted(env, s.tables, similar, q, embedding, x, i)
    ensures x in r.tables && r.tables[x].chunks == s.tables[x].chunks
    ensures !r.tables[x].row.deleted ==> Wanted(env, r.tables, similar, q, embedding, x, i)
  {
    hide Reached;
    StatusesNeverGoBack(env, before, after, s, r, x);
  }

  predicate ReturnsWith(results: seq<RetrievalResult>, id: ChunkId, score: real) {
    exists k | 0 <= k < |results| :: results[k].found.id == id && results[k].score == score
  }

  /**
   The service searches the index first and reads the tables in another transaction. Whatever happens in
   between, every result is right by the tables it was read from, and every chunk that was wanted when the
   index was searched is returned with its score, unless its document has been deleted since.
   */
  lemma {:induction false} LaterSearchAgrees(env: Env, before: seq<Event>, after: seq<Event>, s: State, r: State, similar: Similarity,
                          q: IndexQuery, embedding: Embedding, candidates: seq<VectorMatch>)
    requires Reached(env, before, s) && Reached(env, before + after, r)
    requires BestMatches(similar, q, s.points, candidates)
    requires q.owner.spelling == 0 && |OwnersPoints(s.points, q.owner)| <= q.limit
    ensures var results := Results(r.tables, candidates, |candidates|, q.owner, embedding);
            && (forall k | 0 <= k < |results| :: StillRight(env, s, r.tables, similar, q, embedding, results[k]))
            && (forall x: Uuid, i: nat | Wanted(env, s.tables, similar, q, embedding, x, i)
                                         && x in r.tables && !r.tables[x].row.deleted ::
                  ReturnsWith(results, IdOf(x, s.tables[x].chunks[i]),
                              ScoreFor(env, similar, q, embedding, s.tables[x].chunks[i].chunk)))
            && (forall k, l | 0 <= k < l < |results| ::
                  results[k].found.id != results[l].found.id && results[k].score >= results[l].score)
  {
    hide Reached, Results, Positions, ResultOf, Found, Wanted, OwnersPoints, Kept, ScoreFor, StillRight;
    var t, results := r.tables, Results(r.tables, candidates, |candidates|, q.owner, embedding);
    var at := Positions(t, candidates, |candidates|, q.owner, embedding);
    ResultsAre(t, candidates, |candidates|, q.owner, embedding);
    IsolatedUnderAnyIndex(t, candidates, q.owner, embedding);
    forall k | 0 <= k < |results|
      ensures StillRight(env, s, t, similar, q, embedding, results[k])
      ensures results[k].score == candidates[at[k]].score
    {
      LaterResult(env, before, after, s, r, similar, q, embedding, candidates, at[k]);
    }
    forall x: Uuid, i: nat | Wanted(env, s.tables, similar, q, embedding, x, i) && x in t && !t[x].row.deleted
      ensures x in s.tables && i < |s.tables[x].chunks|
      ensures ReturnsWith(results, IdOf(x, s.tables[x].chunks[i]),
                          ScoreFor(env, similar, q, embedding, s.tables[x].chunks[i].chunk))
    {
      WantedIsRow(env, s.tables, similar, q, embedding, x, i);
      WantedReturned(env, before, after, s, r, similar, q, embedding, candidates, x, i);
    }
  }

  lemma {:induction false} WantedReturned(env: Env, before: seq<Event>, after: seq<Event>, s: State, r: State, similar: Similarity,
                       q: IndexQuery, embedding: Embedding, candidates: seq<VectorMatch>, x: Uuid, i: nat)
    requires Reached(env, before, s) && Reached(env, before + after, r)
    requires BestMatches(similar, q, s.points, candidates)
    requires q.owner.spelling == 0 && |OwnersPoints(s.points, q.owner)| <= q.limit
    requires Wanted(env, s.tables, similar, q, embedding, x, i) && x in r.tables && !r.tables[x].row.deleted
    ensures x in s.tables && i < |s.tables[x].chunks|
    ensures ReturnsWith(Results(r.tables, candidates, |candidates|, q.owner, embedding),
                        IdOf(x, s.tables[x].chunks[i]), ScoreFor(env, similar, q, embedding, s.tables[x].chunks[i].chunk))
  {
    hide Reached, Results, OwnersPoints, BestMatches, Found, RowFor, Listed;
    WantedStays(env, before, after, s, r, similar, q, embedding, x, i);
    WantedIsListed(env, before, s, similar, q, embedding, candidates, x, i);
    var id, results := IdOf(x, s.tables[x].chunks[i]), Results(r.tables, candidates, |candidates|, q.owner, embedding);
    RowIsFound(r.tables, x, i, q.owner, embedding);
    ListedIsReturned(r.tables, candidates, q.owner, embedding, id);
    var k :| 0 <= k < |results| && results[k].found.id == id;
    IsolatedUnderAnyIndex(r.tables, candidates, q.owner, embedding);
    PointOfRow(env, before, s, x, i);
    ProposedScore(similar, q, s.points, candidates, results[k]);
  }

  lemma RowIsFound(t: Tables, x: Uuid, i: nat, user: RawId<Uuid>, embedding: Embedding)
    requires Searchable(t, x, user) && i < |t[x].chunks| && t[x].chunks[i].embedding == Some(embedding)
    ensures Found(t, IdOf(x, t[x].chunks[i]), user, embedding).Some?
  {
    hide RowFor;
    RowForIs(t[x].chunks, IdOf(x, t[x].chunks[i]), embedding);
    assert IsRow(t[x].chunks[i], IdOf(x, t[x].chunks[i]), embedding);
  }

  /** A proposed score is that of the point. */
  lemma ProposedScore(similar: Similarity, q: IndexQuery, points: Points, candidates: seq<VectorMatch>, r: RetrievalResult)
    requires BestMatches(similar, q, points, candidates) && ProposedFirst(candidates, r)
    ensures r.found.id in points && r.score == ScoreOf(similar, q, points[r.found.id])
  {
  }

  // --- a user's query, from its own fields to the tables ------------------------------------------

  /**
   Chunk `i` of `x` answers the query: the document is the user's, not deleted, ready, and one the query asks
   for; the chunk is embedded by the service's model; and it is at least as like the query as asked.
   */
  ghost predicate Matching(env: Env, t: Tables, service: SearchService, similar: Similarity, query: RetrievalQuery,
                           user: RawId<Uuid>, x: Uuid, i: nat)
  {
    && x in t && user.parsed == Some(t[x].row.owner) && !t[x].row.deleted && t[x].row.status == Ready
    && i < |t[x].chunks| && t[x].chunks[i].embedding == Some(service.embedder.embedding)
    && (query.documents.Some? ==> RawId(Some(x), env.spelling(x)) in query.documents.value)
    && var score := similar(service.embedder.embedQuery(service.normalise(query.text)),
                            env.embed(service.embedder.embedding, t[x].chunks[i].chunk.content));
    && (query.scoreThreshold.Some? ==> score >= query.scoreThreshold.value)
    && (query.scoreThreshold.None? ==> score >= service.scoreThreshold)
  }

  lemma MatchingIsWanted(env: Env, t: Tables, service: SearchService, similar: Similarity, query: RetrievalQuery,
                         user: RawId<Uuid>, q: IndexQuery, x: Uuid, i: nat)
    requires q == IndexQuery(service.embedder.embedQuery(service.normalise(query.text)), user, q.limit,
                             if query.scoreThreshold == None then service.scoreThreshold else query.scoreThreshold.value,
                             query.documents)
    ensures Wanted(env, t, similar, q, service.embedder.embedding, x, i)
            <==> Matching(env, t, service, similar, query, user, x, i)
  {
  }

  /**
   The answer to a user's query, when the index lists the best points and has room for all of the user's: it is
   exactly what a plain filter over the tables gives, each chunk once with its text and score, best first.
   */
  lemma {:induction false} AnswerIsThePlainFilter(env: Env, events: seq<Event>, s: State, service: SearchService, similar: Similarity,
                               query: RetrievalQuery, user: RawId<Uuid>, candidates: seq<VectorMatch>,
                               results: seq<RetrievalResult>)
    requires Reached(env, events, s) && user.spelling == 0
    requires service.BestFor(query, user, similar, s.points, candidates)
    requires results == Results(s.tables, candidates, |candidates|, user, service.embedder.embedding)
    requires |(set id | id in s.points && s.points[id].payload.user == user)|
             <= if query.topK == None || query.topK == Some(0) then service.topK else query.topK.value
    ensures forall k | 0 <= k < |results| ::
              && var r := results[k];
              && var x, i := r.found.id.document, r.found.id.index;
              && Matching(env, s.tables, service, similar, query, user, x, i)
              && r.found.chunk == s.tables[x].chunks[i].chunk && r.found.id.version == s.tables[x].chunks[i].version
              && r.score == similar(service.embedder.embedQuery(service.normalise(query.text)),
                                    env.embed(service.embedder.embedding, r.found.chunk.content))
    ensures forall x: Uuid, i: nat | Matching(env, s.tables, service, similar, query, user, x, i) ::
              exists k | 0 <= k < |results| ::
                results[k].found.id == ChunkId(x, s.tables[x].chunks[i].chunk.index, s.tables[x].chunks[i].version)
    ensures forall k, l | 0 <= k < l < |results| ::
              results[k].found.id != results[l].found.id && results[k].score >= results[l].score
  {
    hide Reached, Results, Wanted, BestMatches, Matching;
    var q := IndexQuery(service.embedder.embedQuery(service.normalise(query.text)), user,
                        if query.topK == None || query.topK == Some(0) then service.topK else query.topK.value,
                        if query.scoreThreshold == None then service.scoreThreshold else query.scoreThreshold.value,
                        query.documents);
    var embedding := service.embedder.embedding;
    SearchAgreesWithTables(env, events, s, similar, q, embedding, candidates);
    forall x: Uuid, i: nat
      ensures Wanted(env, s.tables, similar, q, embedding, x, i)
              <==> Matching(env, s.tables, service, similar, query, user, x, i)
    {
      MatchingIsWanted(env, s.tables, service, similar, query, user, q, x, i);
    }
    forall k | 0 <= k < |results|
      ensures var x, i := results[k].found.id.document, results[k].found.id.index;
              && x in s.tables && i < |s.tables[x].chunks|
    {
      WantedIsRow(env, s.tables, similar, q, embedding, results[k].found.id.document, results[k].found.id.index);
    }
    forall x: Uuid, i: nat | Matching(env, s.tables, service, similar, query, user, x, i)
      ensures x in s.tables && i < |s.tables[x].chunks|
      ensures Returns(results, IdOf(x, s.tables[x].chunks[i]))
    {
      WantedIsRow(env, s.tables, similar, q, embedding, x, i);
    }
  }
}
