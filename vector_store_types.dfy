/**
 * The values and objects the vector-index retriever reads and writes: nodes, the query mode,
 * the query handed to the vector store, the caller's query bundle and the store's answer.
 * Only the attributes the retriever touches are modelled.
 */
module VectorStoreTypes {
  import opened Wrappers

  /** A stored unit of content. The retriever only inspects its document id (`get_doc_id()`). */
  datatype Node<C> = Node(docId: string, payload: C)

  /** A node together with the similarity score the vector store gave it. */
  datatype NodeWithScore<C, F> = NodeWithScore(node: Node<C>, score: F)

  /** The members of `VectorStoreQueryMode`. */
  datatype VectorStoreQueryMode = Default | Sparse | Hybrid

  /** The string value of each mode member. */
  function ModeName(m: VectorStoreQueryMode): string
  {
    match m
    case Default => "default"
    case Sparse => "sparse"
    case Hybrid => "hybrid"
  }

  /** `VectorStoreQueryMode(name)`: look a mode up by its value; `None` stands for the ValueError. */
  function ParseMode(name: string): (r: Option<VectorStoreQueryMode>)
    ensures r.Some? <==> exists m :: ModeName(m) == name
    ensures r.Some? ==> ModeName(r.value) == name
  {
    if name == ModeName(Default) then Some(Default)
    else if name == ModeName(Sparse) then Some(Sparse)
    else if name == ModeName(Hybrid) then Some(Hybrid)
    else None
  }

  /** Every member is accepted under its own name, and under no other member's. */
  lemma ParseModeName(m: VectorStoreQueryMode)
    ensures ParseMode(ModeName(m)) == Some(m)
  {
  }

  /** The request handed to the vector store; immutable once built. */
  datatype VectorStoreQuery<F, E> = VectorStoreQuery(
    queryEmbedding: Option<E>,
    similarityTopK: int,
    docIds: Option<seq<string>>,
    queryStr: string,
    mode: VectorStoreQueryMode,
    alpha: Option<F>)

  /** The caller's query. Its embedding may be filled in, and stays filled, by a retrieval. */
  class QueryBundle<E> {
    const queryStr: string
    /** The text variants whose aggregate embedding stands for the query. */
    const embeddingStrs: seq<string>
    var embedding: Option<E>

    constructor (queryStr: string, embeddingStrs: seq<string>, embedding: Option<E>)
      ensures this.queryStr == queryStr && this.embeddingStrs == embeddingStrs
      ensures this.embedding == embedding
    {
      this.queryStr := queryStr;
      this.embeddingStrs := embeddingStrs;
      this.embedding := embedding;
    }
  }

  /**
   * The vector store's answer: either the nodes themselves or the backend ids of the matches,
   * with one similarity per match, in the store's order.
   */
  class VectorStoreQueryResult<C, F> {
    var nodes: Option<seq<Node<C>>>
    var similarities: seq<F>
    var ids: Option<seq<string>>

    constructor (nodes: Option<seq<Node<C>>>, similarities: seq<F>, ids: Option<seq<string>>)
      ensures this.nodes == nodes && this.similarities == similarities && this.ids == ids
    {
      this.nodes := nodes;
      this.similarities := similarities;
      this.ids := ids;
    }
  }
}
