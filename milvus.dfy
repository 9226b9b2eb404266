/** The Milvus backend of the vector store: configuration check, index selection, and the
    connection handle that Initialize assigns. */
module Milvus {
  import opened Results
  import opened Documents

  datatype ConfigError = AddressRequired | CollectionRequired | IndexTypeRequired

  datatype MilvusConfig = MilvusConfig(address: string, dbName: string, collection: string, indexType: string)
  {
    /** The guard chain of `MilvusConfig.Validate`: the first empty field among address,
        collection and index type is the one reported; the database name is not checked. */
    function Validate(): (r: Option<ConfigError>)
      ensures r == None <==> address != "" && collection != "" && indexType != ""
      ensures r == Some(AddressRequired) <==> address == ""
      ensures r == Some(CollectionRequired) <==> address != "" && collection == ""
      ensures r == Some(IndexTypeRequired) <==> address != "" && collection != "" && indexType == ""
    {
      if address == "" then Some(AddressRequired)
      else if collection == "" then Some(CollectionRequired)
      else if indexType == "" then Some(IndexTypeRequired)
      else None
    }
  }

  /** Distance metrics of the Milvus SDK that the model needs. */
  datatype Metric = L2 | IP | Cosine

  /** The index descriptions `Initialize` can build, with the SDK constructor's parameters. */
  datatype IndexParams =
    | IvfFlat(metric: Metric, nlist: int)
    | IvfSq8(metric: Metric, nlist: int)
    | Hnsw(metric: Metric, m: int, efConstruction: int)

  const MilvusIndexNames: set<string> := {"IVF_FLAT", "IVF_SQ8", "HNSW"}

  /** The index-type switch of `Initialize`: exactly the three supported names give an index,
      each with the L2 metric. */
  function IndexFor(indexType: string): (r: Option<IndexParams>)
    ensures r.Some? <==> indexType in MilvusIndexNames
    ensures r.Some? ==> r.value.metric == L2
    ensures r.Some? ==> (r.value.IvfFlat? <==> indexType == "IVF_FLAT")
    ensures r.Some? ==> (r.value.IvfSq8? <==> indexType == "IVF_SQ8")
    ensures r.Some? ==> (r.value.Hnsw? <==> indexType == "HNSW")
  {
    if indexType == "IVF_FLAT" then Some(IvfFlat(L2, 768))
    else if indexType == "IVF_SQ8" then Some(IvfSq8(L2, 768))
    else if indexType == "HNSW" then Some(Hnsw(L2, 16, 200))
    else None
  }

  /** What the SDK's `milvus.New` is given: where to connect and which collection and index to use. */
  datatype Connection = Connection(address: string, dbName: string, collection: string, index: IndexParams)

  datatype InitError = UnsupportedIndexType(indexType: string) | ConnectFailed(message: string)

  class MilvusStore {
    const cfg: MilvusConfig
    /** `m.store`: None until a connection has been made. */
    var store: Option<Connection>
    /** The documents held by the remote collection. */
    var docs: seq<Document>
    /** Number of connection attempts made, to state that a rejected index type dials nothing. */
    ghost var dials: nat

    constructor (cfg: MilvusConfig)
      ensures this.cfg == cfg && store == None && docs == [] && dials == 0
    {
      this.cfg := cfg;
      store := None;
      docs := [];
      dials := 0;
    }

    /** Selects the index, then connects; `dialError` is the SDK's answer to the connection attempt. */
    method Initialize(dialError: Option<string>) returns (err: Option<InitError>)
      modifies this
      ensures docs == old(docs)
      ensures IndexFor(cfg.indexType).None? ==>
        err == Some(UnsupportedIndexType(cfg.indexType)) && store == old(store) && dials == old(dials)
      ensures IndexFor(cfg.indexType).Some? ==> dials == old(dials) + 1
      ensures IndexFor(cfg.indexType).Some? && dialError.Some? ==>
        err == Some(ConnectFailed(dialError.value)) && store == old(store)
      ensures IndexFor(cfg.indexType).Some? && dialError.None? ==>
        err == None && store == Some(Connection(cfg.address, cfg.dbName, cfg.collection, IndexFor(cfg.indexType).value))
    {
      var idx: IndexParams;
      match cfg.indexType {
        case "IVF_FLAT" => idx := IvfFlat(L2, 768);
        case "IVF_SQ8" => idx := IvfSq8(L2, 768);
        case "HNSW" => idx := Hnsw(L2, 16, 200);
        case _ =>
          return Some(UnsupportedIndexType(cfg.indexType));
      }
      dials := dials + 1;
      if dialError.Some? {
        return Some(ConnectFailed(dialError.value));
      }
      store := Some(Connection(cfg.address, cfg.dbName, cfg.collection, idx));
      err := None;
    }

    /** Upserts the documents through the connection; `upsertError` is the SDK's outcome. A
        failed call adds nothing. */
    method AddDocuments(newDocs: seq<Document>, upsertError: Option<string>) returns (err: Option<string>)
      requires store.Some?
      modifies this`docs
      ensures err == upsertError
      ensures docs == if err.None? then old(docs) + newDocs else old(docs)
    {
      err := upsertError;
      if err.None? {
        docs := docs + newDocs;
      }
    }

    /** Similarity search is the SDK's; `search` stands for it over the collection's documents. */
    function Search(query: string, k: int, search: (seq<Document>, string, int) -> Result<seq<Document>, string>): Result<seq<Document>, string>
      reads this
      requires store.Some?
    {
      search(docs, query, k)
    }

    /** Closing releases nothing and always succeeds, before or after Initialize, any number of times. */
    method Close() returns (err: Option<string>)
      ensures err == None
    {
      err := None;
    }
  }
}
