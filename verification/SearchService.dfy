/** Owner-scoped search over a user's own documents. */
module SearchServices {
  import opened Identifiers
  import opened Tables
  import opened VectorIndex
  import opened Retrieval
  import opened VectorStores
  import opened Repositories

  datatype RetrievalQuery = RetrievalQuery(text: string, topK: Option<nat>, scoreThreshold: Option<real>,
                                           documents: Option<seq<RawId<Uuid>>>)

  /** Why a search returns no results at all. */
  datatype SearchError = InvalidSearchQuery | SearchUnavailable

  datatype Answer = Answered(results: seq<RetrievalResult>) | Refused(error: SearchError)

  /** Which dependency fails, if any. */
  datatype Fault = NoFault | EmbeddingFault | VectorStoreFault | DatabaseFault

  /** The embedding model: its queries' vectors, how many tokens a text has, how many it reads. */
  datatype Embedder = Embedder(embedding: Embedding, embedQuery: string -> Vector, countTokens: string -> nat,
                               maxInputTokens: nat)

  const SPECIAL_TOKENS_PER_SEQUENCE := 2

  class SearchService {
    const session: Session
    const embedder: Embedder
    const topK: nat
    const scoreThreshold: real
    const maxQueryChars: nat
    const normalise: string -> string

    constructor (session: Session, embedder: Embedder, topK: nat, scoreThreshold: real, maxQueryChars: nat,
                 normalise: string -> string)
      ensures this.session == session && this.embedder == embedder && this.topK == topK
      ensures this.scoreThreshold == scoreThreshold && this.maxQueryChars == maxQueryChars
      ensures this.normalise == normalise
    {
      this.session, this.embedder, this.topK, this.scoreThreshold, this.maxQueryChars, this.normalise :=
        session, embedder, topK, scoreThreshold, maxQueryChars, normalise;
    }

    /** `_acceptable`: the text to embed, unless it is empty or more than the model reads. */
    function Acceptable(raw: string): Option<string> {
      var text := normalise(raw);
      if text == "" || |text| > maxQueryChars
         || embedder.countTokens(text) > embedder.maxInputTokens - SPECIAL_TOKENS_PER_SEQUENCE
      then None else Some(text)
    }

    /** How many candidates a query asks for, and the score it asks for at least. */
    function Limit(query: RetrievalQuery): nat {
      if query.topK.Some? && query.topK.value != 0 then query.topK.value else topK
    }

    function Threshold(query: RetrievalQuery): real {
      if query.scoreThreshold.Some? then query.scoreThreshold.value else scoreThreshold
    }

    /** The candidates are the best of the user's own points for the query: those of the documents it names, if any. */
    ghost predicate BestFor(query: RetrievalQuery, user: RawId<Uuid>, similar: Similarity, points: Points,
                            candidates: seq<VectorMatch>)
    {
      BestMatches(similar,
                  IndexQuery(embedder.embedQuery(normalise(query.text)), user,
                             if query.topK == None || query.topK == Some(0) then topK else query.topK.value,
                             if query.scoreThreshold == None then scoreThreshold else query.scoreThreshold.value,
                             query.documents),
                  points, candidates)
    }

    /** A result is of a point of the user's, of a document asked for, with the score the index gave it. */
    predicate Serves(query: RetrievalQuery, user: RawId<Uuid>, similar: Similarity, points: Points, r: RetrievalResult) {
      && r.found.id in points
      && points[r.found.id].payload.user == user
      && (query.documents.Some? ==> points[r.found.id].payload.document in query.documents.value)
      && r.score == similar(embedder.embedQuery(normalise(query.text)), points[r.found.id].vector)
      && (query.scoreThreshold.Some? ==> r.score >= query.scoreThreshold.value)
      && (query.scoreThreshold.None? ==> r.score >= scoreThreshold)
    }

    /**
     `search`. A query that is not acceptable and a dependency that fails are errors, never empty results;
     otherwise the answer is the results of the best matches the index has.
     */
    method Search(query: RetrievalQuery, user: RawId<Uuid>, vectors: InMemoryVectorStore, similar: Similarity,
                  fault: Fault) returns (answer: Answer, ghost candidates: seq<VectorMatch>)
      ensures answer == Refused(InvalidSearchQuery) <==>
                var text := normalise(query.text);
                text == "" || |text| > maxQueryChars || embedder.countTokens(text) + 2 > embedder.maxInputTokens
      ensures answer != Refused(InvalidSearchQuery) ==>
                var none := (query.topK == None && topK == 0) || (query.topK == Some(0) && topK == 0);
                && (fault == EmbeddingFault || fault == VectorStoreFault || none ==> answer == Refused(SearchUnavailable))
                && (fault == NoFault && !none ==> answer.Answered?)
                && (fault == DatabaseFault && answer.Answered? ==> candidates == [])
      ensures answer.Answered? ==>
                && BestFor(query, user, similar, vectors.points, candidates)
                && answer.results == Results(session.tables, candidates, |candidates|, user, embedder.embedding)
      ensures answer.Answered? ==>
                && (forall k | 0 <= k < |answer.results| :: Serves(query, user, similar, vectors.points, answer.results[k]))
                && (query.topK.Some? && query.topK.value > 0 ==> |answer.results| <= query.topK.value)
                && (query.topK == None || query.topK == Some(0) ==> |answer.results| <= topK)
    {
      hide Results, BestMatches, Serves;
      candidates := [];
      var text := Acceptable(query.text);
      if text.None? {
        answer := Refused(InvalidSearchQuery);
        return;
      }
      if fault == EmbeddingFault {
        answer := Refused(SearchUnavailable);
        return;
      }
      var q := IndexQuery(embedder.embedQuery(text.value), user, Limit(query), Threshold(query), query.documents);
      var matches := vectors.Search(similar, q);
      if fault == VectorStoreFault || matches.None? {
        answer := Refused(SearchUnavailable);
        return;
      }
      candidates := matches.value;
      answer := Resolve(matches.value, user, fault);
      if answer.Answered? {
        ResultsServe(session.tables, similar, q, vectors.points, candidates, user, embedder.embedding);
        AllServe(query, user, similar, vectors.points, q, answer.results);
      }
    }

    /** What the index query says, in the fields of the query. */
    lemma AllServe(query: RetrievalQuery, user: RawId<Uuid>, similar: Similarity, points: Points, q: IndexQuery,
                   results: seq<RetrievalResult>)
      requires q == IndexQuery(embedder.embedQuery(normalise(query.text)), user, Limit(query), Threshold(query), query.documents)
      requires forall k | 0 <= k < |results| :: FromPoint(similar, q, points, results[k])
      ensures forall k | 0 <= k < |results| :: Serves(query, user, similar, points, results[k])
    {
    }

    /** `search` from the candidates on, whatever they are. */
    method Resolve(candidates: seq<VectorMatch>, user: RawId<Uuid>, fault: Fault) returns (answer: Answer)
      ensures fault == DatabaseFault && candidates != [] ==> answer == Refused(SearchUnavailable)
      ensures fault != DatabaseFault || candidates == [] ==>
                answer == Answered(Results(session.tables, candidates, |candidates|, user, embedder.embedding))
    {
      var ids: seq<RawId<ChunkId>>, scores: map<RawId<ChunkId>, real> := [], map[];
      for i := 0 to |candidates|
        invariant Ranks(candidates, i, ids, scores)
      {
        var candidate := candidates[i];
        RanksOneMore(candidates, i, ids, scores);
        if candidate.id !in scores {
          ids := ids + [candidate.id];
          scores := scores[candidate.id := candidate.score];
        }
      }
      if ids == [] {
        NothingRanked(session.tables, candidates, |candidates|, user, embedder.embedding, scores);
        return Answered([]);
      }
      if fault == DatabaseFault {
        return Refused(SearchUnavailable);
      }
      var documentChunks := new DocumentChunkRepository(session);
      var validated := documentChunks.ValidateForRetrieval(ids, user, embedder.embedding);
      JoinIs(session.tables, candidates, |candidates|, user, embedder.embedding, ids, scores, ids, validated);
      answer := Answered(Join(ids, scores, validated));
    }
  }

  /** A result is of a point the index query lets pass, with that point's score. */
  predicate FromPoint(similar: Similarity, q: IndexQuery, points: Points, r: RetrievalResult) {
    && r.found.id in points
    && points[r.found.id].payload.user == q.owner
    && (q.documents.Some? ==> points[r.found.id].payload.document in q.documents.value)
    && r.score == similar(q.vector, points[r.found.id].vector) >= q.threshold
  }

  lemma {:induction false} ResultsServe(t: Tables, similar: Similarity, q: IndexQuery, points: Points, candidates: seq<VectorMatch>,
                     user: RawId<Uuid>, embedding: Embedding)
    requires BestMatches(similar, q, points, candidates)
    ensures var results := Results(t, candidates, |candidates|, user, embedding);
            |results| <= q.limit && forall k | 0 <= k < |results| :: FromPoint(similar, q, points, results[k])
  {
    hide Results, Positions, Found, ResultOf, Kept;
    var results, at := Results(t, candidates, |candidates|, user, embedding), Positions(t, candidates, |candidates|, user, embedding);
    ResultsAre(t, candidates, |candidates|, user, embedding);
    IsolatedUnderAnyIndex(t, candidates, user, embedding);
    PositionsFit(t, candidates, |candidates|, user, embedding);
    forall k | 0 <= k < |results|
      ensures FromPoint(similar, q, points, results[k])
    {
      assert ProposedFirst(candidates, results[k]);
    }
  }

  lemma {:induction false} PositionsFit(t: Tables, candidates: seq<VectorMatch>, n: nat, user: RawId<Uuid>, embedding: Embedding)
    requires n <= |candidates|
    ensures |Positions(t, candidates, n, user, embedding)| <= n
  {
    hide Kept;
    if n > 0 {
      PositionsFit(t, candidates, n - 1, user, embedding);
    }
  }

  /** The dictionary after `n` candidates: their distinct ids in first-occurrence order, each with its first score. */
  ghost predicate Ranks(candidates: seq<VectorMatch>, n: nat, ids: seq<RawId<ChunkId>>, scores: map<RawId<ChunkId>, real>)
    requires n <= |candidates|
  {
    && ids == FirstIds(candidates, n)
    && (forall id | id in ids :: id in scores)
    && (forall id | id in scores :: !IsNew(candidates, n, id))
    && (forall k | 0 <= k < n :: candidates[k].id in scores)
    && (forall k | 0 <= k < n && IsNew(candidates, k, candidates[k].id) :: scores[candidates[k].id] == candidates[k].score)
  }

  function FirstIds(candidates: seq<VectorMatch>, n: nat): seq<RawId<ChunkId>>
    requires n <= |candidates|
  {
    if n == 0 then []
    else
      FirstIds(candidates, n - 1)
      + if IsNew(candidates, n - 1, candidates[n - 1].id) then [candidates[n - 1].id] else []
  }

  lemma RanksOneMore(candidates: seq<VectorMatch>, n: nat, ids: seq<RawId<ChunkId>>, scores: map<RawId<ChunkId>, real>)
    requires n < |candidates| && Ranks(candidates, n, ids, scores)
    ensures candidates[n].id !in scores <==> IsNew(candidates, n, candidates[n].id)
    ensures candidates[n].id !in scores ==>
              Ranks(candidates, n + 1, ids + [candidates[n].id], scores[candidates[n].id := candidates[n].score])
    ensures candidates[n].id in scores ==> Ranks(candidates, n + 1, ids, scores)
  {
  }

  /** A result for each distinct id that was validated, in the order the ids were first proposed. */
  function Join(ids: seq<RawId<ChunkId>>, scores: map<RawId<ChunkId>, real>, validated: map<RawId<ChunkId>, ValidatedChunk>)
    : seq<RetrievalResult>
    requires forall id | id in ids :: id in scores
  {
    if ids == [] then []
    else
      var last := ids[|ids| - 1];
      Join(ids[..|ids| - 1], scores, validated)
      + if last in validated then [RetrievalResult(validated[last], scores[last])] else []
  }

  lemma {:induction false} NothingRanked(t: Tables, candidates: seq<VectorMatch>, n: nat, user: RawId<Uuid>,
                                         embedding: Embedding, scores: map<RawId<ChunkId>, real>)
    requires n <= |candidates| && FirstIds(candidates, n) == []
    ensures Results(t, candidates, n, user, embedding) == [] && n == 0
  {
    if n > 0 {
      NothingRanked(t, candidates, n - 1, user, embedding, scores);
    }
  }

  lemma {:induction false} FirstIdsAreProposed(candidates: seq<VectorMatch>, n: nat, id: RawId<ChunkId>)
    requires n <= |candidates| && id in FirstIds(candidates, n)
    ensures exists k | 0 <= k < n :: candidates[k].id == id
  {
    if id in FirstIds(candidates, n - 1) {
      FirstIdsAreProposed(candidates, n - 1, id);
    }
  }

  /** Whether a new candidate's id was validated is whether its chunk may be returned. */
  lemma ValidatedIffKept(t: Tables, candidates: seq<VectorMatch>, k: nat, user: RawId<Uuid>, embedding: Embedding,
                         all: seq<RawId<ChunkId>>, validated: map<RawId<ChunkId>, ValidatedChunk>)
    requires k < |candidates| && IsNew(candidates, k, candidates[k].id) && candidates[k].id in all
    requires Validates(t, all, user, embedding, validated)
    ensures candidates[k].id in validated <==> Kept(t, candidates, k, user, embedding)
    ensures candidates[k].id in validated ==>
              Found(t, candidates[k].id.parsed.value, user, embedding) == Some(validated[candidates[k].id])
  {
    hide Found;
    var id := candidates[k].id;
    if Kept(t, candidates, k, user, embedding) {
      var i :| 0 <= i < |all| && all[i] == id;
      assert Proposed(all, id.parsed.value);
    }
  }

  lemma {:induction false} JoinIs(t: Tables, candidates: seq<VectorMatch>, n: nat, user: RawId<Uuid>, embedding: Embedding,
                                  all: seq<RawId<ChunkId>>, scores: map<RawId<ChunkId>, real>,
                                  ids: seq<RawId<ChunkId>>, validated: map<RawId<ChunkId>, ValidatedChunk>)
    requires n <= |candidates| && ids == FirstIds(candidates, n) && Validates(t, all, user, embedding, validated)
    requires forall id | id in ids :: id in all && id in scores
    requires forall k | 0 <= k < n && IsNew(candidates, k, candidates[k].id) && candidates[k].id in scores ::
               scores[candidates[k].id] == candidates[k].score
    ensures Join(ids, scores, validated) == Results(t, candidates, n, user, embedding)
  {
    hide Validates, Found;
    if n > 0 {
      var front, next := FirstIds(candidates, n - 1), candidates[n - 1].id;
      JoinIs(t, candidates, n - 1, user, embedding, all, scores, front, validated);
      if IsNew(candidates, n - 1, next) {
        assert ids[..|ids| - 1] == front && ids[|ids| - 1] == next;
        ValidatedIffKept(t, candidates, n - 1, user, embedding, all, validated);
        if next in validated {
          assert ResultOf(t, candidates[n - 1], user, embedding) == RetrievalResult(validated[next], scores[next]);
        }
      } else {
        assert ids == front;
      }
    }
  }
}
