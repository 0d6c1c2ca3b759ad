# Vector-index retriever, modelled in Dafny

This project models `VectorIndexRetriever` from `gpt_index/indices/vector_store/retrievers.py`.
The retriever answers a query with the content nodes most similar to it. It does this in five steps:

1. If the vector store needs an embedding and the query bundle has none, it asks the embedding model for the aggregate embedding of the bundle's text variants. It writes that embedding back onto the bundle.
2. It builds a `VectorStoreQuery` from the bundle and the configured top-k, document-id filter, mode and blend weight (`alpha`).
3. It passes the query to the vector store.
4. It reconciles the store's answer with the docstore. An answer holding neither nodes nor ids is an error. An id-only answer is resolved through the index's `nodes_dict` and then fetched from the docstore, in order. In an answer that holds nodes, each node whose id the docstore holds is replaced, in place, by the docstore's copy.
5. It pairs the nodes with their similarities, position by position, in the store's order.

Files:

- `wrappers.dfy` (module `Wrappers`): `Option` and `Result`.
- `vector_store_types.dfy` (module `VectorStoreTypes`):
  - `Node` and `NodeWithScore`.
  - The query-mode enumeration and its lookup by name.
  - The `VectorStoreQuery` value.
  - Two classes whose fields the retriever updates: `QueryBundle` (its `embedding`) and `VectorStoreQueryResult` (its `nodes`).
- `retrievers.dfy` (module `Retrievers`):
  - The retriever's configuration, as the datatype `VectorIndexRetriever`. Its fields are never changed after construction.
  - Construction (`New`) and `Retrieve`.
  - The in-place docstore recovery loop and the pairing loop.
  - The specification functions those loops are proved against, and lemmas about them.
  - A client method, `IdOnlyRetrievalExample`, that calls `Retrieve` on an id-only answer and proves what it returns.

External collaborators become plain values:

- The vector store is its `is_embedding_query` flag plus its answer. That answer (a `VectorStoreQueryResult` object) is an argument of `Retrieve`. `Retrieve` returns the query it built, which is the query handed to the store.
- The embedding model's `get_agg_embedding_from_queries` is an uninterpreted total function `seq<string> -> E`.
- The docstore is a finite map from document id to node.
- The index struct's `nodes_dict` is a finite map from backend id to node id.
- Node payloads, scores, `alpha` and embeddings are uninterpreted type parameters.

The enumeration `VectorStoreQueryMode`, `QueryBundle`, `VectorStoreQueryResult`, the docstore and the index struct are defined in files that are not part of this model. Their fields are modelled as `retrievers.py` uses them. The mode values are "default", "sparse" and "hybrid", as the system documents them.

## Model

| member | source | states |
|---|---|---|
| `VectorStoreTypes.ParseMode` | gpt_index/indices/vector_store/retrievers.py:47 | a mode string is accepted exactly when it is the value of some member of the enumeration, and then it yields that member |
| `VectorStoreTypes.ParseModeName` | gpt_index/indices/vector_store/retrievers.py:47 | every member is accepted under its own value: lookup inverts naming |
| `Retrievers.VectorIndexRetriever.New` | gpt_index/indices/vector_store/retrievers.py:32-49 | construction succeeds exactly when the mode string names a member, and otherwise fails with that string; on success it holds the given index, top-k, blend weight and id filter and the named mode; the defaults are top-k 1 and mode "default" |
| `Retrievers.VectorIndexRetriever.FilledEmbedding` | gpt_index/indices/vector_store/retrievers.py:55-61 | the bundle's embedding after the lazy fill: the model's aggregate embedding of the text variants when the store needs one and none is present, otherwise the embedding as it was; its properties are stated by `FilledEmbeddingCases` |
| `Retrievers.VectorIndexRetriever.FilledEmbeddingCases` | gpt_index/indices/vector_store/retrievers.py:55-61 | for an embedding store with no embedding present, the embedding becomes the model's aggregate embedding of the text variants; if one is present, or the store is not an embedding store, it is unchanged; an embedding store is always left with an embedding; filling a second time changes nothing |
| `Retrievers.VectorIndexRetriever.BuildQuery` | gpt_index/indices/vector_store/retrievers.py:63-70 | the query record handed to the vector store, built from the bundle's embedding and text and the configured top-k, id filter, mode and blend weight; the query ensures of `Retrieve` state each field, and `DispatchedQueryHasEmbedding` states that an embedding store always gets an embedding |
| `Retrievers.VectorIndexRetriever.DispatchedQueryHasEmbedding` | gpt_index/indices/vector_store/retrievers.py:55-70 | an embedding store always receives a query that carries an embedding |
| `Retrievers.VectorIndexRetriever.Reconciled` | gpt_index/indices/vector_store/retrievers.py:73-91 | the node list the store's answer becomes, as the code evidently intends: the malformed-answer error, the id branch through `nodes_dict` and the docstore, or the content-branch substitution; its properties are stated by `NeitherNodesNorIdsFails`, `IdBranchFetchesInOrder` and `ContentBranchRecovers` |
| `Retrievers.VectorIndexRetriever.NeitherNodesNorIdsFails` | gpt_index/indices/vector_store/retrievers.py:73-80 | reconciliation fails as malformed if and only if the answer holds neither nodes nor ids |
| `Retrievers.LookUpAll` | gpt_index/indices/vector_store/retrievers.py:82-83 | looking every key up succeeds exactly when all keys are present, and then gives a list of the same length whose element i is the value of key i; otherwise it fails with the first missing key, as the comprehension and the batched fetch raise at it |
| `Retrievers.VectorIndexRetriever.IdBranchFetchesInOrder` | gpt_index/indices/vector_store/retrievers.py:82-84 | an id-only answer reconciles exactly when every id is in `nodes_dict` and every mapped node id is in the docstore; then the nodes have the length of the ids and node i is the docstore's node for `nodes_dict[ids[i]]` |
| `Retrievers.RecoverNodes` | gpt_index/indices/vector_store/retrievers.py:88-91 | the recovered list keeps the length; position i becomes the docstore's node for its id when the docstore holds that id, and is otherwise unchanged |
| `Retrievers.VectorIndexRetriever.ContentBranchRecovers` | gpt_index/indices/vector_store/retrievers.py:85-91 | an answer that holds nodes always reconciles, to the same length, changing exactly the positions whose ids the docstore holds |
| `Retrievers.RecoverNodesIdempotent` | gpt_index/indices/vector_store/retrievers.py:88-91 | over a docstore that files each node under its own id, recovering an already recovered list changes nothing |
| `Retrievers.VectorIndexRetriever.RecoverFromDocstore` | gpt_index/indices/vector_store/retrievers.py:88-91 | the in-place loop leaves the result's nodes equal to the recovered list of the old nodes, and its similarities and ids unchanged |
| `Retrievers.Paired` | gpt_index/indices/vector_store/retrievers.py:95-99 | the pairing has the length of the shorter of nodes and similarities, and element i is node i with similarity i |
| `Retrievers.PairedKeepsOrder` | gpt_index/indices/vector_store/retrievers.py:95-99 | the list of paired nodes equals the prefix of the nodes of the pairing's length, and the list of paired scores equals the same prefix of the similarities, so nothing is re-sorted |
| `Retrievers.PairWithScores` | gpt_index/indices/vector_store/retrievers.py:95-99 | the appending loop returns exactly the pairing of the nodes with the similarities |
| `Retrievers.PairAsWritten` | gpt_index/indices/vector_store/retrievers.py:95-97 | the pairing as written: no pairs when `zip` yields none, and otherwise the type error from calling the list; its properties are stated by `PairAsWrittenFailsOnAnyPair` |
| `Retrievers.PairAsWrittenFailsOnAnyPair` | gpt_index/indices/vector_store/retrievers.py:95-97 | as written, the pairing fails exactly when there is at least one pair; when it succeeds it agrees with the intended pairing |
| `Retrievers.VectorIndexRetriever.ReconciledAsWritten` | gpt_index/indices/vector_store/retrievers.py:73-91 | the reconciliation as written: like `Reconciled`, except that every id-only answer fails on the unset index struct; its properties are stated by `IdBranchAsWrittenAlwaysFails` and `AsWrittenAgreesOutsideIdBranch` |
| `Retrievers.VectorIndexRetriever.IdBranchAsWrittenAlwaysFails` | gpt_index/indices/vector_store/retrievers.py:81 | as written, every id-only answer fails on the unset index struct; a one-id answer whose id is mapped and stored is one that the intended code resolves to that id's docstore node |
| `Retrievers.VectorIndexRetriever.AsWrittenAgreesOutsideIdBranch` | gpt_index/indices/vector_store/retrievers.py:73-91 | except in the id branch, reconciliation as written and as intended give the same outcome |
| `Retrievers.VectorIndexRetriever.Retrieve` | gpt_index/indices/vector_store/retrievers.py:51-99 | the bundle's embedding is the filled embedding; the query carries that embedding, the bundle's text and exactly the configured top-k, id filter, mode and blend weight; similarities and ids are untouched; if reconciliation fails, that error is returned and the nodes are untouched; otherwise the result's nodes are the reconciled nodes and the output is their pairing with the similarities |

## Left out

- The vector store's search: the nearest-neighbour search is an external backend. Its answer is an argument of `Retrieve`, unrelated to the query in the model.
- The embedding model's internals: `get_agg_embedding_from_queries` is an uninterpreted function. The model does not count how often it is called; that it is not used when an embedding is present is stated about the value only.
- Logging of the store's answer (line 93): observability only, with no effect on the result.
- Floating-point semantics of similarities and `alpha`: both are carried through as uninterpreted values.
- Node, bundle and index internals: a node is its document id plus an uninterpreted payload. The bundle's text variants are taken as given, not derived from the query text.
- Docstore storage: the docstore is a finite map. Its batched fetch is a lookup of each id in order that fails at the first missing id. The node-type check inside its single-node fetch is not modelled.
- Aliasing: the store's node list is a `seq` field reassigned in place. Another holder of the same Python list would see the substitutions of lines 88-91, and the model does not capture that.
- Missing similarities: the model takes the store's similarities as always present. An answer whose similarities are `None` would make `zip` raise, and that is not modelled.
- Type mismatches between backend ids and the keys of `nodes_dict`: both are strings in the model.

## Findings

| source | as written | input that shows it | evidently intended | confidence | as-written member | corrected member |
|---|---|---|---|---|---|---|
| gpt_index/indices/vector_store/retrievers.py:97 | the list `node_with_scores` is called as a function, which raises a type error on the first pair | any answer with at least one node and one similarity, e.g. nodes `[n]` and similarities `[s]` | append `NodeWithScore(node, score=similarity)` for each pair, giving `[(n, s)]` | high; not executed | `Retrievers.PairAsWritten`, with `Retrievers.PairAsWrittenFailsOnAnyPair` | `Retrievers.PairWithScores`, proved equal to `Retrievers.Paired` |
| gpt_index/indices/vector_store/retrievers.py:81 | `self._index_struct` is read, but `__init__` (lines 41-49) never assigns it, so the id branch raises an attribute error | any id-only answer, e.g. nodes `None` and ids `["a7"]`, where `nodes_dict` maps `a7` to a stored node id; the empty id list fails only while assertions are enabled, because line 81 is an `assert` | read the index's `nodes_dict`; ids `["a7"]` then reconcile to that node | high; not executed | `Retrievers.VectorIndexRetriever.ReconciledAsWritten`, with `Retrievers.VectorIndexRetriever.IdBranchAsWrittenAlwaysFails` | `Retrievers.VectorIndexRetriever.Reconciled`, with `Retrievers.VectorIndexRetriever.IdBranchFetchesInOrder` |
