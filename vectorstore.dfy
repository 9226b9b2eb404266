/** The `VectorStore` interface: Initialize, AddDocuments, Search and Close over either backend.
    The service holds a `Backend` and never looks at which one it is except through these
    operations. */
module VectorStore {
  import opened Results
  import opened Documents
  import Milvus
  import Qdrant

  type SearchFn = (seq<Document>, string, int) -> Result<seq<Document>, string>

  datatype Backend = MilvusBackend(m: Milvus.MilvusStore) | QdrantBackend(q: Qdrant.QdrantStore)
  {
    /** The object behind the interface value. */
    function Obj(): object {
      match this
      case MilvusBackend(m) => m
      case QdrantBackend(q) => q
    }

    /** The collection's documents. */
    function Docs(): seq<Document>
      reads Obj()
    {
      match this
      case MilvusBackend(m) => m.docs
      case QdrantBackend(q) => q.docs
    }

    /** Whether Initialize has assigned the store handle. */
    predicate Initialized()
      reads Obj()
    {
      match this
      case MilvusBackend(m) => m.store.Some?
      case QdrantBackend(q) => q.store.Some?
    }

    function Search(query: string, k: int, search: SearchFn): (r: Result<seq<Document>, string>)
      reads Obj()
      requires Initialized()
      ensures r == search(Docs(), query, k)
    {
      match this
      case MilvusBackend(m) => m.Search(query, k, search)
      case QdrantBackend(q) => q.Search(query, k, search)
    }
  }

  /** `AddDocuments` through the interface: on success the documents are appended to the
      collection, on failure it is unchanged; the backend's connection handle and its count of
      connection attempts (Milvus dials, Qdrant client builds) do not change. */
  method AddDocuments(b: Backend, newDocs: seq<Document>, upsertError: Option<string>) returns (err: Option<string>)
    requires b.Initialized()
    modifies b.Obj()
    ensures err == upsertError
    ensures b.Initialized()
    ensures b.MilvusBackend? ==> b.m.store == old(b.m.store) && b.m.dials == old(b.m.dials)
    ensures b.QdrantBackend? ==> b.q.store == old(b.q.store) && b.q.builds == old(b.q.builds)
    ensures b.Docs() == if err.None? then old(b.Docs()) + newDocs else old(b.Docs())
  {
    match b
    case MilvusBackend(m) => err := m.AddDocuments(newDocs, upsertError);
    case QdrantBackend(q) => err := q.AddDocuments(newDocs, upsertError);
  }

  /** `Close` through the interface succeeds for both backends. */
  method Close(b: Backend) returns (err: Option<string>)
    ensures err == None
  {
    match b
    case MilvusBackend(m) => err := m.Close();
    case QdrantBackend(q) => err := q.Close();
  }
}
