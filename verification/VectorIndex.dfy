/** The vector store: points in a dictionary, and what each call does to it. */
module VectorIndex {
  import opened Identifiers
  import opened Tables

  type Vector = seq<real>

  /** What travels with a vector. Ids are text here, as the store holds them. */
  datatype Payload = Payload(user: RawId<Uuid>, document: RawId<Uuid>, chunk: RawId<ChunkId>, index: nat,
                             section: Option<string>, pageStart: nat, pageEnd: nat, version: Version,
                             embedding: Embedding)

  datatype Point = Point(vector: Vector, payload: Payload)

  type Points = map<ChunkId, Point>

  /** The part of `m` under the keys in `ids`. */
  function Part(m: Points, ids: set<ChunkId>): Points {
    map id | id in m && id in ids :: m[id]
  }

  predicate Attributed(p: Point, document: RawId<Uuid>, owner: RawId<Uuid>) {
    p.payload.document == document && p.payload.user == owner
  }

  /** `delete_document`: a filter on the payload's text, not on the point's id. */
  function WithoutDocument(points: Points, document: RawId<Uuid>, owner: RawId<Uuid>): Points {
    map id | id in points && !Attributed(points[id], document, owner) :: points[id]
  }
}
