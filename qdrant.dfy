/** The Qdrant backend of the vector store. */
module Qdrant {
  import opened Results
  import opened Documents

  datatype ConfigError = AddressRequired

  datatype QdrantConfig = QdrantConfig(address: string, collection: string)
  {
    /** Only the address is required; the collection name is not checked. */
    function Validate(): (r: Option<ConfigError>)
      ensures r == None <==> address != ""
      ensures r.Some? ==> r.value == AddressRequired
    {
      if address == "" then Some(AddressRequired) else None
    }
  }

  /** A parsed address (Go's `url.URL`), kept as its text. */
  datatype Url = Url(text: string)

  datatype Connection = Connection(url: Url, collection: string)

  datatype InitError = InvalidUrl(message: string) | ConnectFailed(message: string)

  class QdrantStore {
    const cfg: QdrantConfig
    /** `q.store`: None until a connection has been made. */
    var store: Option<Connection>
    /** The documents held by the remote collection. */
    var docs: seq<Document>
    /** Number of times `qdrant.New` was called to build a client. */
    ghost var builds: nat

    constructor (cfg: QdrantConfig)
      ensures this.cfg == cfg && store == None && docs == [] && builds == 0
    {
      this.cfg := cfg;
      store := None;
      docs := [];
      builds := 0;
    }

    /** Parses the address (`parseUrl` stands for `url.Parse`), then builds the store;
        `dialError` is the SDK's answer to that. */
    method Initialize(parseUrl: string -> Result<Url, string>, dialError: Option<string>) returns (err: Option<InitError>)
      modifies this
      ensures docs == old(docs)
      ensures parseUrl(cfg.address).Err? ==>
        err == Some(InvalidUrl(parseUrl(cfg.address).error)) && store == old(store) && builds == old(builds)
      ensures parseUrl(cfg.address).Ok? ==> builds == old(builds) + 1
      ensures parseUrl(cfg.address).Ok? && dialError.Some? ==>
        err == Some(ConnectFailed(dialError.value)) && store == old(store)
      ensures parseUrl(cfg.address).Ok? && dialError.None? ==>
        err == None && store == Some(Connection(parseUrl(cfg.address).value, cfg.collection))
    {
      var parsed := parseUrl(cfg.address);
      if parsed.Err? {
        return Some(InvalidUrl(parsed.error));
      }
      builds := builds + 1;
      if dialError.Some? {
        return Some(ConnectFailed(dialError.value));
      }
      store := Some(Connection(parsed.value, cfg.collection));
      err := None;
    }

    /** Upserts the documents through the connection; a failed call adds nothing. */
    method AddDocuments(newDocs: seq<Document>, upsertError: Option<string>) returns (err: Option<string>)
      requires store.Some?
      modifies this`docs
      ensures err == upsertError
      ensures docs == if err.None? then old(docs) + newDocs else old(docs)
    {
      err := upsertError;
      if err.None? {
        docs := docs + newDocs;
      }
    }

    function Search(query: string, k: int, search: (seq<Document>, string, int) -> Result<seq<Document>, string>): Result<seq<Document>, string>
      reads this
      requires store.Some?
    {
      search(docs, query, k)
    }

    /** Closing releases nothing and always succeeds, before or after Initialize, any number of times. */
    method Close() returns (err: Option<string>)
      ensures err == None
    {
      err := None;
    }
  }
}
