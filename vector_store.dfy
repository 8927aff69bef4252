/** Knowledge retrieval over the vector index. The nearest-neighbour search
    itself is a parameter; what is modelled is how its parallel result lists
    become knowledge items, how a category becomes a filter, and when the
    index is seeded. */
module VectorStore {
  import opened Common

  /** The parallel lists the index returns for one query. */
  datatype SearchHits = SearchHits(documents: seq<string>, metadatas: seq<Metadata>, distances: seq<real>)

  /** `repo.search(query, n_results, where)`; the filter is the category value
      of `{"category": c}`, or `None` for no filter. */
  type IndexSearch = (string, nat, Option<string>) -> Result<SearchHits, string>

  datatype KnowledgeItem = KnowledgeItem(content: string, metadata: Metadata, relevance: real)

  /** The text of the `IndexError` raised when a parallel list is too short. */
  const IndexErrorText := "list index out of range"

  /** The filter for an optional category: only a non-empty category filters. */
  function CategoryFilter(category: Option<string>): (filter: Option<string>)
    ensures filter.Some? <==> category.Some? && category.value != ""
    ensures filter.Some? ==> filter == category
  {
    if category.Some? && category.value != "" then category else None
  }

  /** The specification of the knowledge items built from one search result. */
  function Items(h: SearchHits): Result<seq<KnowledgeItem>, string>
  {
    if |h.metadatas| < |h.documents| || |h.distances| < |h.documents| then Err(IndexErrorText)
    else Ok(seq(|h.documents|, i requires 0 <= i < |h.documents| =>
                KnowledgeItem(h.documents[i], h.metadatas[i], 1.0 - h.distances[i])))
  }

  /** The specification of `search_knowledge`. */
  function Search(index: IndexSearch, query: string, category: Option<string>, n: nat)
    : Result<seq<KnowledgeItem>, string>
  {
    match index(query, n, CategoryFilter(category))
    case Err(e) => Err(e)
    case Ok(h) => Items(h)
  }

  /** The `enumerate` loop of `search_knowledge`: item `i` pairs document `i`
      with metadata `i` and relevance `1 - distance i`; a metadata or distance
      list shorter than the document list raises `IndexError`. */
  method CombineHits(h: SearchHits) returns (r: Result<seq<KnowledgeItem>, string>)
    ensures r == Items(h)
    ensures r.Ok? <==> |h.metadatas| >= |h.documents| && |h.distances| >= |h.documents|
    ensures r.Err? ==> r.error == IndexErrorText
    ensures r.Ok? ==> |r.value| == |h.documents|
    ensures r.Ok? ==> forall i :: 0 <= i < |h.documents| ==>
      && r.value[i].content == h.documents[i]
      && r.value[i].metadata == h.metadatas[i]
      && r.value[i].relevance == 1.0 - h.distances[i]
  {
    var items: seq<KnowledgeItem> := [];
    var i := 0;
    while i < |h.documents|
      invariant 0 <= i <= |h.documents|
      invariant i <= |h.metadatas| && i <= |h.distances|
      invariant |items| == i
      invariant forall k :: 0 <= k < i ==>
        items[k] == KnowledgeItem(h.documents[k], h.metadatas[k], 1.0 - h.distances[k])
    {
      if i >= |h.metadatas| || i >= |h.distances| {
        return Err(IndexErrorText);
      }
      items := items + [KnowledgeItem(h.documents[i], h.metadatas[i], 1.0 - h.distances[i])];
      i := i + 1;
    }
    assert items == Items(h).value;
    return Ok(items);
  }

  /** `search_knowledge(query, category, n_results)`: the index is asked once,
      with the category filter; its failure propagates unchanged. */
  method SearchKnowledge(index: IndexSearch, query: string, category: Option<string>, n: nat := 3)
    returns (r: Result<seq<KnowledgeItem>, string>)
    ensures r == Search(index, query, category, n)
    ensures index(query, n, CategoryFilter(category)).Err? ==>
      r == Err(index(query, n, CategoryFilter(category)).error)
    ensures index(query, n, CategoryFilter(category)).Ok? ==>
      r == Items(index(query, n, CategoryFilter(category)).value)
  {
    var hits := index(query, n, CategoryFilter(category));
    if hits.Err? {
      return Err(hits.error);
    }
    r := CombineHits(hits.value);
  }

  /** The relevance is not clamped to [0, 1]: a distance above 1, which an
      L2 index can return, gives a negative relevance, and a negative
      distance one above 1. */
  lemma RelevanceNotClamped(h: SearchHits, i: nat)
    requires Items(h).Ok? && i < |h.documents|
    ensures Items(h).value[i].relevance < 0.0 <==> h.distances[i] > 1.0
    ensures Items(h).value[i].relevance > 1.0 <==> h.distances[i] < 0.0
  {
  }

  /** The contents of retrieved items, as joined into a prompt's context. */
  function Contents(items: seq<KnowledgeItem>): (r: seq<string>)
    ensures |r| == |items| && forall i :: 0 <= i < |items| ==> r[i] == items[i].content
  {
    seq(|items|, i requires 0 <= i < |items| => items[i].content)
  }

  /** The documents held by the vector index, with their metadata. */
  class KnowledgeBase {
    var documents: seq<string>
    var metadatas: seq<Metadata>

    ghost predicate Valid()
      reads this
    {
      |documents| == |metadatas|
    }

    constructor ()
      ensures Valid() && documents == [] && metadatas == []
    {
      documents, metadatas := [], [];
    }

    /** `repo.count()`. */
    function Count(): nat
      reads this
    {
      |documents|
    }

    /** `add_knowledge`: the documents and their metadata are handed to the
        index unchanged (the index requires the two lists to be parallel). */
    method AddKnowledge(docs: seq<string>, metas: seq<Metadata>)
      requires Valid() && |docs| == |metas|
      modifies this
      ensures Valid()
      ensures documents == old(documents) + docs && metadatas == old(metadatas) + metas
    {
      documents, metadatas := documents + docs, metadatas + metas;
    }

    /** `initialize_knowledge_base`: seeds the index only when it is empty. */
    method InitializeKnowledgeBase(seedDocs: seq<string>, seedMetas: seq<Metadata>)
      requires Valid() && |seedDocs| == |seedMetas|
      modifies this
      ensures Valid()
      ensures old(Count()) == 0 ==> documents == seedDocs && metadatas == seedMetas
      ensures old(Count()) != 0 ==> documents == old(documents) && metadatas == old(metadatas)
    {
      if Count() == 0 {
        documents, metadatas := seedDocs, seedMetas;
      }
    }
  }
}
