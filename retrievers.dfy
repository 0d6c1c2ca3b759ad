/**
 * The vector-index retriever: it fills in the query embedding, builds the vector store query,
 * reconciles the store's answer with the docstore and pairs the nodes with their scores.
 *
 * Type parameters: `C` is a node's payload, `F` a float (similarity or blend weight),
 * `E` an embedding vector. None of them is interpreted.
 */
module Retrievers {
  import opened Wrappers
  import opened VectorStoreTypes

  /** The ways a construction or a retrieval can fail. */
  datatype RetrieveError =
    | InvalidQueryMode(name: string)  // the mode string names no member of the enumeration
    | NoNodesOrIds                    // the store's answer holds neither nodes nor ids
    | MissingIndexId(id: string)      // a backend id that `nodes_dict` does not map
    | MissingDocument(docId: string)  // a node id the docstore does not hold
    | IndexStructNotSet               // as written: `self._index_struct` is never assigned
    | ListNotCallable                 // as written: the result list is called instead of appended to

  /** What the retriever takes from the index it is built on. */
  datatype VectorStoreIndex<C, E> = VectorStoreIndex(
    // the vector store's `is_embedding_query` flag
    isEmbeddingQuery: bool,
    // the embedding model's `get_agg_embedding_from_queries`, an uninterpreted function
    embedModel: seq<string> -> E,
    // the docstore's documents, by document id
    docstore: map<string, Node<C>>,
    // the index struct's `nodes_dict`: backend id to node id
    nodesDict: map<string, string>)

  /**
   * Looks every key up in `m`, in order. Fails with the first key that `m` lacks, as a list
   * comprehension over dictionary lookups (or the docstore's batched fetch) raises at it.
   */
  function LookUpAll<K, V>(m: map<K, V>, keys: seq<K>): (r: Result<seq<V>, K>)
    ensures r.Success? <==> forall i :: 0 <= i < |keys| ==> keys[i] in m
    ensures r.Success? ==> |r.value| == |keys| && forall i :: 0 <= i < |keys| ==> r.value[i] == m[keys[i]]
    ensures r.Failure? ==>
      exists k :: 0 <= k < |keys| && keys[k] == r.error && keys[k] !in m && forall j :: 0 <= j < k ==> keys[j] in m
  {
    if keys == [] then Success([])
    else if keys[0] !in m then Failure(keys[0])
    else
      match LookUpAll(m, keys[1..])
      case Failure(missing) =>
        ghost var k :| 0 <= k < |keys[1..]| && keys[1..][k] == missing && keys[1..][k] !in m
                       && forall j :: 0 <= j < k ==> keys[1..][j] in m;
        assert keys[k + 1] == missing;
        Failure(missing)
      case Success(values) => Success([m[keys[0]]] + values)
  }

  /**
   * The content branch's substitution: each node whose id the docstore holds is replaced by the
   * docstore's copy; every other node stays as the store returned it.
   */
  function RecoverNodes<C>(docstore: map<string, Node<C>>, nodes: seq<Node<C>>): (r: seq<Node<C>>)
    ensures |r| == |nodes|
    ensures forall i :: 0 <= i < |nodes| && nodes[i].docId in docstore ==> r[i] == docstore[nodes[i].docId]
    ensures forall i :: 0 <= i < |nodes| && nodes[i].docId !in docstore ==> r[i] == nodes[i]
  {
    if nodes == [] then []
    else
      var head := if nodes[0].docId in docstore then docstore[nodes[0].docId] else nodes[0];
      [head] + RecoverNodes(docstore, nodes[1..])
  }

  /** A docstore whose every document is filed under its own id. */
  ghost predicate KeyedByDocId<C>(docstore: map<string, Node<C>>)
  {
    forall id :: id in docstore ==> docstore[id].docId == id
  }

  /** Over a docstore keyed by document id, recovering twice is recovering once. */
  lemma RecoverNodesIdempotent<C>(docstore: map<string, Node<C>>, nodes: seq<Node<C>>)
    requires KeyedByDocId(docstore)
    ensures RecoverNodes(docstore, RecoverNodes(docstore, nodes)) == RecoverNodes(docstore, nodes)
  {
  }

  /**
   * `zip(nodes, similarities)` turned into scored nodes: position by position, as long as the
   * shorter of the two, in the store's order.
   */
  function Paired<C, F>(nodes: seq<Node<C>>, similarities: seq<F>): (r: seq<NodeWithScore<C, F>>)
    ensures |r| == if |nodes| <= |similarities| then |nodes| else |similarities|
    ensures forall i :: 0 <= i < |r| ==> r[i] == NodeWithScore(nodes[i], similarities[i])
  {
    if nodes == [] || similarities == [] then []
    else [NodeWithScore(nodes[0], similarities[0])] + Paired(nodes[1..], similarities[1..])
  }

  /** The paired nodes are a prefix of the nodes, and the scores a prefix of the similarities: nothing is re-sorted. */
  lemma PairedKeepsOrder<C, F>(nodes: seq<Node<C>>, similarities: seq<F>)
    ensures var r := Paired(nodes, similarities);
      NodesOf(r) == nodes[..|r|] && ScoresOf(r) == similarities[..|r|]
  {
  }

  /** The nodes of a list of scored nodes, in order. */
  function NodesOf<C, F>(pairs: seq<NodeWithScore<C, F>>): seq<Node<C>>
  {
    seq(|pairs|, i requires 0 <= i < |pairs| => pairs[i].node)
  }

  /** The scores of a list of scored nodes, in order. */
  function ScoresOf<C, F>(pairs: seq<NodeWithScore<C, F>>): seq<F>
  {
    seq(|pairs|, i requires 0 <= i < |pairs| => pairs[i].score)
  }

  /** Lines 95-97 as they are evidently meant: append one scored node per pair, in order. */
  method PairWithScores<C, F>(nodes: seq<Node<C>>, similarities: seq<F>) returns (pairs: seq<NodeWithScore<C, F>>)
    ensures pairs == Paired(nodes, similarities)
  {
    var n := if |nodes| <= |similarities| then |nodes| else |similarities|;
    pairs := [];
    var i := 0;
    while i < n
      invariant 0 <= i <= n
      invariant |pairs| == i
      invariant forall k :: 0 <= k < i ==> pairs[k] == NodeWithScore(nodes[k], similarities[k])
    {
      pairs := pairs + [NodeWithScore(nodes[i], similarities[i])];
      i := i + 1;
    }
  }

  /** Lines 95-97 as written: the first pair makes the code call a list, which raises. */
  function PairAsWritten<C, F>(nodes: seq<Node<C>>, similarities: seq<F>): Result<seq<NodeWithScore<C, F>>, RetrieveError>
  {
    if nodes == [] || similarities == [] then Success([]) else Failure(ListNotCallable)
  }

  /** As written, the pairing fails exactly when there is something to pair. */
  lemma PairAsWrittenFailsOnAnyPair<C, F>(nodes: seq<Node<C>>, similarities: seq<F>)
    ensures PairAsWritten(nodes, similarities).Failure? <==> |Paired(nodes, similarities)| > 0
    ensures PairAsWritten(nodes, similarities).Success? ==> PairAsWritten(nodes, similarities).value == Paired(nodes, similarities)
  {
  }

  /** The configuration captured by `__init__`. */
  datatype VectorIndexRetriever<C, F, E> = VectorIndexRetriever(
    index: VectorStoreIndex<C, E>,
    similarityTopK: int,
    mode: VectorStoreQueryMode,
    alpha: Option<F>,
    docIds: Option<seq<string>>)
  {
    /** `__init__`: captures the configuration; a mode string that names no member fails. */
    static function New(index: VectorStoreIndex<C, E>, similarityTopK: int := 1, modeName: string := "default",
                        alpha: Option<F> := None, docIds: Option<seq<string>> := None)
      : (r: Result<VectorIndexRetriever<C, F, E>, RetrieveError>)
      ensures r.Success? <==> exists m :: ModeName(m) == modeName
      ensures r.Failure? ==> r.error == InvalidQueryMode(modeName)
      ensures r.Success? ==>
        && ModeName(r.value.mode) == modeName
        && r.value.index == index
        && r.value.similarityTopK == similarityTopK
        && r.value.alpha == alpha
        && r.value.docIds == docIds
    {
      match ParseMode(modeName)
      case None => Failure(InvalidQueryMode(modeName))
      case Some(mode) => Success(VectorIndexRetriever(index, similarityTopK, mode, alpha, docIds))
    }

    /** The query embedding after the lazy fill of lines 55-61. */
    function FilledEmbedding(current: Option<E>, embeddingStrs: seq<string>): Option<E>
    {
      if index.isEmbeddingQuery && current.None? then Some(index.embedModel(embeddingStrs)) else current
    }

    /** The query handed to the vector store (lines 63-70). */
    function BuildQuery(embedding: Option<E>, queryStr: string): VectorStoreQuery<F, E>
    {
      VectorStoreQuery(embedding, similarityTopK, docIds, queryStr, mode, alpha)
    }

    /**
     * What the store's node list becomes (lines 73-91): the docstore's nodes for the ids when only
     * ids came back, the recovered nodes when nodes came back.
     */
    function Reconciled(nodes: Option<seq<Node<C>>>, ids: Option<seq<string>>): Result<seq<Node<C>>, RetrieveError>
    {
      match nodes
      case Some(returned) => Success(RecoverNodes(index.docstore, returned))
      case None =>
        match ids
        case None => Failure(NoNodesOrIds)
        case Some(backendIds) =>
          match LookUpAll(index.nodesDict, backendIds)
          case Failure(id) => Failure(MissingIndexId(id))
          case Success(nodeIds) =>
            match LookUpAll(index.docstore, nodeIds)
            case Failure(docId) => Failure(MissingDocument(docId))
            case Success(fetched) => Success(fetched)
    }

    /** Lines 73-91 as written: the id branch reads an attribute the constructor never sets. */
    function ReconciledAsWritten(nodes: Option<seq<Node<C>>>, ids: Option<seq<string>>): Result<seq<Node<C>>, RetrieveError>
    {
      match nodes
      case Some(returned) => Success(RecoverNodes(index.docstore, returned))
      case None => if ids.None? then Failure(NoNodesOrIds) else Failure(IndexStructNotSet)
    }

    /**
     * As written, the id branch fails on every answer, even a one-id answer that the intended code
     * resolves to that id's docstore node.
     */
    lemma IdBranchAsWrittenAlwaysFails(ids: seq<string>, id: string)
      ensures ReconciledAsWritten(None, Some(ids)) == Failure(IndexStructNotSet)
      ensures id in index.nodesDict && index.nodesDict[id] in index.docstore ==>
        Reconciled(None, Some([id])) == Success([index.docstore[index.nodesDict[id]]])
    {
      if id in index.nodesDict && index.nodesDict[id] in index.docstore {
        IdBranchFetchesInOrder([id]);
        var fetched := Reconciled(None, Some([id])).value;
        assert fetched == [fetched[0]];
      }
    }

    /** Outside the id branch, the code as written and as intended agree. */
    lemma AsWrittenAgreesOutsideIdBranch(nodes: Option<seq<Node<C>>>, ids: Option<seq<string>>)
      requires nodes.Some? || ids.None?
      ensures ReconciledAsWritten(nodes, ids) == Reconciled(nodes, ids)
    {
    }

    /** The fill computes an embedding exactly when the store needs one and none is present. */
    lemma FilledEmbeddingCases(current: Option<E>, embeddingStrs: seq<string>)
      ensures index.isEmbeddingQuery && current.None? ==> FilledEmbedding(current, embeddingStrs) == Some(index.embedModel(embeddingStrs))
      ensures current.Some? || !index.isEmbeddingQuery ==> FilledEmbedding(current, embeddingStrs) == current
      ensures index.isEmbeddingQuery ==> FilledEmbedding(current, embeddingStrs).Some?
      ensures FilledEmbedding(FilledEmbedding(current, embeddingStrs), embeddingStrs) == FilledEmbedding(current, embeddingStrs)
    {
    }

    /** An answer with neither nodes nor ids, and only such an answer, is rejected as malformed. */
    lemma NeitherNodesNorIdsFails(nodes: Option<seq<Node<C>>>, ids: Option<seq<string>>)
      ensures Reconciled(nodes, ids) == Failure(NoNodesOrIds) <==> nodes.None? && ids.None?
    {
    }

    /**
     * Id-only answer: it succeeds exactly when every id is mapped and every node id is stored, and then
     * position i holds the docstore's node for `nodes_dict[ids[i]]`.
     */
    lemma IdBranchFetchesInOrder(ids: seq<string>)
      ensures Reconciled(None, Some(ids)).Success? <==>
        && (forall i :: 0 <= i < |ids| ==> ids[i] in index.nodesDict)
        && (forall i :: 0 <= i < |ids| ==> index.nodesDict[ids[i]] in index.docstore)
      ensures Reconciled(None, Some(ids)).Success? ==>
        var fetched := Reconciled(None, Some(ids)).value;
        && |fetched| == |ids|
        && forall i :: 0 <= i < |ids| ==> fetched[i] == index.docstore[index.nodesDict[ids[i]]]
    {
    }

    /** Content answer: never fails, keeps the length, and changes only positions the docstore holds. */
    lemma ContentBranchRecovers(returned: seq<Node<C>>, ids: Option<seq<string>>)
      ensures Reconciled(Some(returned), ids).Success?
      ensures var r := Reconciled(Some(returned), ids).value;
        && |r| == |returned|
        && (forall i :: 0 <= i < |returned| && returned[i].docId in index.docstore ==> r[i] == index.docstore[returned[i].docId])
        && (forall i :: 0 <= i < |returned| && returned[i].docId !in index.docstore ==> r[i] == returned[i])
    {
    }

    /** An embedding store always receives a query that carries an embedding. */
    lemma DispatchedQueryHasEmbedding(current: Option<E>, embeddingStrs: seq<string>, queryStr: string)
      requires index.isEmbeddingQuery
      ensures BuildQuery(FilledEmbedding(current, embeddingStrs), queryStr).queryEmbedding.Some?
    {
    }

    /** Lines 88-91: replace, in place, each node whose id the docstore holds. */
    method RecoverFromDocstore(result: VectorStoreQueryResult<C, F>)
      requires result.nodes.Some?
      modifies result
      ensures result.nodes == Some(RecoverNodes(index.docstore, old(result.nodes.value)))
      ensures result.similarities == old(result.similarities) && result.ids == old(result.ids)
    {
      ghost var original := result.nodes.value;
      var n := |result.nodes.value|;
      var i := 0;
      while i < n
        invariant 0 <= i <= n
        invariant result.nodes.Some? && |result.nodes.value| == n == |original|
        invariant forall k :: 0 <= k < i && original[k].docId in index.docstore ==>
          result.nodes.value[k] == index.docstore[original[k].docId]
        invariant forall k :: 0 <= k < i && original[k].docId !in index.docstore ==> result.nodes.value[k] == original[k]
        invariant forall k :: i <= k < n ==> result.nodes.value[k] == original[k]
        invariant result.similarities == old(result.similarities) && result.ids == old(result.ids)
      {
        var nodeId := result.nodes.value[i].docId;
        if nodeId in index.docstore {
          result.nodes := Some(result.nodes.value[i := index.docstore[nodeId]]);
        }
        i := i + 1;
      }
      assert result.nodes.value == RecoverNodes(index.docstore, original);
    }

    /**
     * `retrieve`: fill the embedding, build the query, take `result` as the vector store's answer
     * to it, reconcile that answer with the docstore and pair the nodes with their scores.
     * On failure nothing is returned; the embedding stays filled in.
     */
    method Retrieve(bundle: QueryBundle<E>, result: VectorStoreQueryResult<C, F>)
      returns (query: VectorStoreQuery<F, E>, out: Result<seq<NodeWithScore<C, F>>, RetrieveError>)
      modifies bundle, result
      ensures bundle.embedding == FilledEmbedding(old(bundle.embedding), bundle.embeddingStrs)
      ensures query.queryEmbedding == bundle.embedding && query.queryStr == bundle.queryStr
      ensures query.similarityTopK == similarityTopK && query.docIds == docIds
      ensures query.mode == mode && query.alpha == alpha
      ensures result.similarities == old(result.similarities) && result.ids == old(result.ids)
      ensures match Reconciled(old(result.nodes), old(result.ids))
        case Failure(e) => out == Failure(e) && result.nodes == old(result.nodes)
        case Success(nodes) => result.nodes == Some(nodes) && out == Success(Paired(nodes, result.similarities))
    {
      if index.isEmbeddingQuery && bundle.embedding.None? {
        bundle.embedding := Some(index.embedModel(bundle.embeddingStrs));
      }
      query := BuildQuery(bundle.embedding, bundle.queryStr);
      if result.nodes.None? {
        if result.ids.None? {
          out := Failure(NoNodesOrIds);
          return;
        }
        var nodeIds := LookUpAll(index.nodesDict, result.ids.value);
        if nodeIds.Failure? {
          out := Failure(MissingIndexId(nodeIds.error));
          return;
        }
        var fetched := LookUpAll(index.docstore, nodeIds.value);
        if fetched.Failure? {
          out := Failure(MissingDocument(fetched.error));
          return;
        }
        result.nodes := Some(fetched.value);
      } else {
        RecoverFromDocstore(result);
      }
      var pairs := PairWithScores(result.nodes.value, result.similarities);
      out := Success(pairs);
    }
  }

  /** A client: an id-only answer [a7, b2] resolved through the index and the docstore. */
  method IdOnlyRetrievalExample()
  {
    var doc1 := Node("doc-1", "first");
    var doc2 := Node("doc-2", "second");
    var index := VectorStoreIndex(true, (strs: seq<string>) => |strs|,
                                  map["doc-1" := doc1, "doc-2" := doc2], map["a7" := "doc-1", "b2" := "doc-2"]);
    var created := VectorIndexRetriever<string, int, int>.New(index, 2);
    assert created.Success?;
    var retriever := created.value;
    var bundle := new QueryBundle("question", ["question"], None);
    var result := new VectorStoreQueryResult(None, [91, 85], Some(["a7", "b2"]));
    var query, out := retriever.Retrieve(bundle, result);
    var mapped := LookUpAll(index.nodesDict, ["a7", "b2"]);
    assert mapped.Success? && mapped.value == ["doc-1", "doc-2"];
    var fetched := LookUpAll(index.docstore, mapped.value);
    assert fetched.Success? && fetched.value == [doc1, doc2];
    assert retriever.Reconciled(None, Some(["a7", "b2"])) == Success([doc1, doc2]);
    var pairs := Paired([doc1, doc2], [91, 85]);
    assert pairs == [NodeWithScore(doc1, 91), NodeWithScore(doc2, 85)];
    assert query.queryEmbedding == Some(1) && query.similarityTopK == 2 && query.mode == Default;
    assert out == Success([NodeWithScore(doc1, 91), NodeWithScore(doc2, 85)]);
  }
}
