/** The in-memory vector store: what a vector store is expected to do, call by call. */
module VectorStores {
  import opened Identifiers
  import opened Tables
  import opened VectorIndex
  import opened Retrieval

  datatype VectorRecord = VectorRecord(id: ChunkId, point: Point)

  /** What a batch of records writes: the last one under each id. */
  function Written(records: seq<VectorRecord>): Points {
    if records == [] then map[]
    else
      var last := records[|records| - 1];
      Written(records[..|records| - 1])[last.id := last.point]
  }

  lemma {:induction false} WrittenIds(records: seq<VectorRecord>, id: ChunkId)
    ensures id in Written(records) <==> exists i | 0 <= i < |records| :: records[i].id == id
  {
    if records != [] {
      var front, last := records[..|records| - 1], records[|records| - 1];
      WrittenIds(front, id);
      if last.id == id {
        assert records[|records| - 1].id == id;
      } else if i :| 0 <= i < |records| && records[i].id == id {
        assert front[i].id == id;
      }
    }
  }

  /** How like two vectors are. */
  type Similarity = (Vector, Vector) -> real

  /** What a search asks of the index. */
  datatype IndexQuery = IndexQuery(vector: Vector, owner: RawId<Uuid>, limit: nat, threshold: real,
                                   documents: Option<seq<RawId<Uuid>>>)

  function ScoreOf(similar: Similarity, q: IndexQuery, p: Point): real {
    similar(q.vector, p.vector)
  }

  /** The point is the owner's, of a document asked for, and scores at least the threshold. */
  predicate Passing(similar: Similarity, q: IndexQuery, points: Points, id: ChunkId) {
    && id in points
    && points[id].payload.user == q.owner
    && (q.documents.None? || points[id].payload.document in q.documents.value)
    && ScoreOf(similar, q, points[id]) >= q.threshold
  }

  predicate Listed(matches: seq<VectorMatch>, id: ChunkId) {
    exists i | 0 <= i < |matches| :: matches[i].id == Canonical(id)
  }

  /** The best `limit` of the points that pass, each once, best first; equal scores in any order. */
  ghost predicate BestMatches(similar: Similarity, q: IndexQuery, points: Points, matches: seq<VectorMatch>) {
    && |matches| <= q.limit
    && (forall i | 0 <= i < |matches| ::
          && matches[i].id.parsed.Some? && matches[i].id.spelling == 0
          && Passing(similar, q, points, matches[i].id.parsed.value)
          && matches[i].score == ScoreOf(similar, q, points[matches[i].id.parsed.value]))
    && (forall i, j | 0 <= i < j < |matches| :: matches[i].id != matches[j].id && matches[i].score >= matches[j].score)
    && (forall id | Passing(similar, q, points, id) && !Listed(matches, id) ::
          |matches| == q.limit
          && forall i | 0 <= i < |matches| :: matches[i].score >= ScoreOf(similar, q, points[id]))
  }

  lemma {:induction false} SomeBest(similar: Similarity, q: IndexQuery, points: Points, ids: set<ChunkId>)
    returns (best: ChunkId)
    requires ids != {} && ids <= points.Keys
    ensures IsBest(similar, q, points, ids, best)
    decreases |ids|
  {
    hide ScoreOf;
    var id :| id in ids;
    best := id;
    if ids - {id} != {} {
      var other := SomeBest(similar, q, points, ids - {id});
      if ScoreOf(similar, q, points[other]) > ScoreOf(similar, q, points[id]) {
        best := other;
      }
    }
  }

  /** How many records from the front are as wide as the collection, if it has a width. */
  function Fitting(records: seq<VectorRecord>, dimension: Option<nat>): (n: nat)
    ensures n <= |records|
    ensures forall i | 0 <= i < n :: dimension.Some? ==> |records[i].point.vector| == dimension.value
    ensures n < |records| ==> dimension.Some? && |records[n].point.vector| != dimension.value
  {
    if records == [] then 0
    else
      var front := records[..|records| - 1];
      var n := Fitting(front, dimension);
      assert forall i | 0 <= i < |front| :: front[i] == records[i];
      if n < |front| || (dimension.Some? && |records[|records| - 1].point.vector| != dimension.value) then n else |records|
  }

  lemma {:induction false} AnyWidthFits(records: seq<VectorRecord>)
    ensures records[..Fitting(records, None)] == records
  {
  }

  class InMemoryVectorStore {
    var points: Points
    const dimension: Option<nat>

    constructor (points: Points, dimension: Option<nat>)
      ensures this.points == points && this.dimension == dimension
    {
      this.points, this.dimension := points, dimension;
    }

    /**
     `upsert`. A vector of another width than the collection's ends the call there. A call that fails
     otherwise may have written any part of its batch.
     */
    method Upsert(records: seq<VectorRecord>, fault: Option<set<ChunkId>>) returns (raised: bool)
      modifies this
      ensures raised <==> fault.Some? || Fitting(records, dimension) < |records|
      ensures var fit := Written(records[..Fitting(records, dimension)]);
              points == old(points) + if fault.None? then fit else Part(fit, fault.value)
    {
      for i := 0 to |records|
        invariant i <= Fitting(records, dimension)
        invariant points == old(points) + if fault.None? then Written(records[..i])
                                          else Part(Written(records[..i]), fault.value)
      {
        assert records[..i + 1][..i] == records[..i];
        var record := records[i];
        if dimension.Some? && |record.point.vector| != dimension.value {
          return true;
        }
        if fault.None? || record.id in fault.value {
          points := points[record.id := record.point];
        }
      }
      assert records[..|records|] == records;
      raised := fault.Some?;
    }

    /** `delete_document`. A call that fails may have deleted any part of what it matches. */
    method DeleteDocument(document: RawId<Uuid>, owner: RawId<Uuid>, fault: Option<set<ChunkId>>) returns (raised: bool)
      modifies this
      ensures raised == fault.Some?
      ensures fault.None? ==> points == WithoutDocument(old(points), document, owner)
      ensures forall id | id in old(points) ::
                (id !in points <==> old(points)[id].payload.document == document && old(points)[id].payload.user == owner
                                    && (fault.None? || id in fault.value))
      ensures forall id | id in points :: id in old(points) && points[id] == old(points)[id]
      ensures fault.Some? ==>
                points == old(points) - Part(old(points) - WithoutDocument(old(points), document, owner).Keys,
                                             fault.value).Keys
    {
      points := map id | id in points && !(Attributed(points[id], document, owner)
                                           && (fault.None? || id in fault.value)) :: points[id];
      raised := fault.Some?;
    }

    /** `search`; None where it refuses. */
    method Search(similar: Similarity, q: IndexQuery) returns (matches: Option<seq<VectorMatch>>)
      ensures matches.None? <==> q.limit == 0
      ensures matches.Some? ==> BestMatches(similar, q, points, matches.value)
    {
      if q.limit == 0 {
        return None;
      }
      var rest := set id | id in points && Passing(similar, q, points, id);
      var best: seq<VectorMatch> := [];
      while rest != {} && |best| < q.limit
        invariant |best| <= q.limit && BestSoFar(similar, q, points, best, rest)
        decreases |rest|
      {
        hide ScoreOf, Passing, BestSoFar;
        RestIsStored(similar, q, points, best, rest);
        ghost var some := SomeBest(similar, q, points, rest);
        var id :| IsBest(similar, q, points, rest, id);
        OneMoreBest(similar, q, points, best, rest, id);
        best := best + [VectorMatch(Canonical(id), ScoreOf(similar, q, points[id]))];
        rest := rest - {id};
      }
      matches := Some(best);
    }
  }

  predicate IsBest(similar: Similarity, q: IndexQuery, points: Points, rest: set<ChunkId>, id: ChunkId) {
    && rest <= points.Keys && id in rest
    && forall other | other in rest :: ScoreOf(similar, q, points[other]) <= ScoreOf(similar, q, points[id])
  }

  /** `best` are the best of the points that pass, `rest` the others. */
  ghost predicate BestSoFar(similar: Similarity, q: IndexQuery, points: Points, best: seq<VectorMatch>, rest: set<ChunkId>) {
    && rest <= points.Keys
    && (forall id :: Passing(similar, q, points, id) <==> id in rest || Listed(best, id))
    && (forall id | id in rest :: !Listed(best, id))
    && (forall i | 0 <= i < |best| ::
          && best[i].id.parsed.Some? && best[i].id.spelling == 0 && best[i].id.parsed.value in points
          && best[i].score == ScoreOf(similar, q, points[best[i].id.parsed.value]))
    && (forall i, j | 0 <= i < j < |best| :: best[i].id != best[j].id && best[i].score >= best[j].score)
    && (forall i, id | 0 <= i < |best| && id in rest :: best[i].score >= ScoreOf(similar, q, points[id]))
  }

  lemma RestIsStored(similar: Similarity, q: IndexQuery, points: Points, best: seq<VectorMatch>, rest: set<ChunkId>)
    requires BestSoFar(similar, q, points, best, rest)
    ensures rest <= points.Keys
  {
    hide Passing, ScoreOf;
  }

  lemma OneMoreBest(similar: Similarity, q: IndexQuery, points: Points, best: seq<VectorMatch>, rest: set<ChunkId>, id: ChunkId)
    requires BestSoFar(similar, q, points, best, rest) && IsBest(similar, q, points, rest, id)
    ensures BestSoFar(similar, q, points, best + [VectorMatch(Canonical(id), ScoreOf(similar, q, points[id]))], rest - {id})
  {
    hide Passing, ScoreOf, Listed;
    var next := VectorMatch(Canonical(id), ScoreOf(similar, q, points[id]));
    forall other
      ensures Listed(best + [next], other) <==> Listed(best, other) || other == id
    {
      ListsOneMore(best, next, other);
    }
    forall i | 0 <= i < |best|
      ensures best[i].id != next.id
    {
      ListsItself(best, i);
    }
  }

  lemma ListsItself(matches: seq<VectorMatch>, i: nat)
    requires i < |matches| && matches[i].id.parsed.Some? && matches[i].id.spelling == 0
    ensures Listed(matches, matches[i].id.parsed.value)
  {
    assert matches[i].id == Canonical(matches[i].id.parsed.value);
  }

  lemma ListsOneMore(matches: seq<VectorMatch>, next: VectorMatch, id: ChunkId)
    ensures Listed(matches + [next], id) <==> Listed(matches, id) || next.id == Canonical(id)
  {
    var more := matches + [next];
    if next.id == Canonical(id) {
      assert more[|matches|].id == Canonical(id);
    }
    if i :| 0 <= i < |matches| && matches[i].id == Canonical(id) {
      assert more[i].id == Canonical(id);
    }
  }
}
