/** Configuration validation of `config/config.go`. Reading and YAML parsing are outside the
    model: LoadConfig receives the file's outcome and a parser. */
module AppConfig {
  import opened Results

  datatype IndexSection = IndexSection(indexType: string, metricType: string, nlist: int)
  datatype MilvusSection = MilvusSection(address: string, dbName: string, collection: string, index: IndexSection)
  datatype OllamaSection = OllamaSection(address: string, llmModel: string, embedderModel: string, temperature: real)
  datatype ProcessingSection = ProcessingSection(chunkSize: int, chunkOverlap: int, topK: int, scoreThreshold: real)

  datatype Config = Config(milvus: MilvusSection, ollama: OllamaSection, processing: ProcessingSection)

  datatype ConfigError = MilvusAddressRequired | OllamaAddressRequired | ChunkSizeNotPositive

  datatype LoadError = ReadFailed(message: string) | ParseFailed(message: string) | ValidationFailed(cause: ConfigError)

  /** validateConfig: the first failing guard, in the order Milvus address, Ollama address,
      chunk size; nothing else is constrained. */
  function ValidateConfig(cfg: Config): (r: Option<ConfigError>)
    ensures r == Some(MilvusAddressRequired) <==> cfg.milvus.address == ""
    ensures r == Some(OllamaAddressRequired) <==> cfg.milvus.address != "" && cfg.ollama.address == ""
    ensures r == Some(ChunkSizeNotPositive) <==>
      cfg.milvus.address != "" && cfg.ollama.address != "" && cfg.processing.chunkSize <= 0
    ensures r == None <==>
      cfg.milvus.address != "" && cfg.ollama.address != "" && cfg.processing.chunkSize > 0
  {
    if cfg.milvus.address == "" then Some(MilvusAddressRequired)
    else if cfg.ollama.address == "" then Some(OllamaAddressRequired)
    else if cfg.processing.chunkSize <= 0 then Some(ChunkSizeNotPositive)
    else None
  }

  /** Overlap, top-K, score threshold, model names, temperature and the other Milvus fields do
      not affect validation. */
  lemma ValidationIgnoresOtherFields(a: Config, b: Config)
    requires a.milvus.address == b.milvus.address && a.ollama.address == b.ollama.address
    requires a.processing.chunkSize == b.processing.chunkSize
    ensures ValidateConfig(a) == ValidateConfig(b)
  {
  }

  /** LoadConfig: read, parse, validate, and hand out only a configuration that passed. */
  function LoadConfig(file: Result<string, string>, parse: string -> Result<Config, string>): (r: Result<Config, LoadError>)
    ensures r.Ok? ==> ValidateConfig(r.value) == None
    ensures r.Ok? <==> file.Ok? && parse(file.value).Ok? && ValidateConfig(parse(file.value).value) == None
    ensures r.Ok? ==> r.value == parse(file.value).value
    ensures file.Err? ==> r == Err(ReadFailed(file.error))
  {
    match file
    case Err(e) => Err(ReadFailed(e))
    case Ok(data) =>
      match parse(data)
      case Err(e) => Err(ParseFailed(e))
      case Ok(cfg) =>
        match ValidateConfig(cfg)
        case Some(v) => Err(ValidationFailed(v))
        case None => Ok(cfg)
  }
}
