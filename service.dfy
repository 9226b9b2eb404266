/** The model service of `models/ollama.go`: the two-step QA write (relational row, then vector
    document), the id-bridged read, the two query modes, the store factory and cleanup.
    The relational table is `rows` with the auto-increment counter `nextId`; the vector index is
    the backend's document sequence. Search, the LLM, the agent and every remote failure are
    parameters. */
module Service {
  import opened Results
  import opened Documents
  import opened Strings
  import opened IdList
  import VectorStore
  import Milvus
  import Qdrant

  // ---------------------------------------------------------------------------------------
  // Ids carried in metadata

  /** Go's `int64(v)` on a float64: truncation toward zero (NaN and overflow are not modelled). */
  function TruncateToInt(f: real): (r: int)
    ensures 0.0 <= f ==> r as real <= f < r as real + 1.0
    ensures f < 0.0 ==> r as real - 1.0 < f <= r as real
  {
    if f >= 0.0 then f.Floor else -((-f).Floor)
  }

  /** The type switch on a `qa_id` value: int64 kept, float64 truncated, anything else refused
      with the name of its type. */
  function NormalizeId(v: MetaValue): Result<int, string> {
    match v
    case IntV(i) => Ok(i)
    case FloatV(f) => Ok(TruncateToInt(f))
    case Other(t) => Err(t)
  }

  /** The id a document contributes: none when it has no `qa_id` key or the value is of another type. */
  function DocId(d: Document): Option<int> {
    if QaIdKey in d.metadata && NormalizeId(d.metadata[QaIdKey]).Ok?
    then Some(NormalizeId(d.metadata[QaIdKey]).value) else None
  }

  /** A document whose `qa_id` has a type the switch does not accept. */
  predicate HasUnexpectedId(d: Document) {
    QaIdKey in d.metadata && d.metadata[QaIdKey].Other?
  }

  /** Document `i` is the first with an unexpected `qa_id` type. */
  predicate FirstUnexpectedId(docs: seq<Document>, i: int) {
    0 <= i < |docs| && HasUnexpectedId(docs[i]) && forall j :: 0 <= j < i ==> !HasUnexpectedId(docs[j])
  }

  /** The ids extracted from the search results, in result order, duplicates kept; the first
      document with an unexpected `qa_id` type aborts the extraction. */
  function ExtractIds(docs: seq<Document>): Result<seq<int>, string>
    decreases |docs|
  {
    if |docs| == 0 then Ok([])
    else
      match ExtractIds(docs[..|docs| - 1])
      case Err(t) => Err(t)
      case Ok(ids) =>
        var d := docs[|docs| - 1];
        if QaIdKey !in d.metadata then Ok(ids)
        else match NormalizeId(d.metadata[QaIdKey])
          case Ok(k) => Ok(ids + [k])
          case Err(t) => Err(t)
  }

  /** Extraction distributes over concatenation: results keep their order and their duplicates,
      and an error in the first part wins. */
  lemma {:induction false} ExtractIdsAppend(a: seq<Document>, b: seq<Document>)
    ensures ExtractIds(a + b) ==
      match ExtractIds(a)
      case Err(t) => Err(t)
      case Ok(x) => (match ExtractIds(b) case Err(t) => Err(t) case Ok(y) => Ok(x + y))
    decreases |b|
  {
    if |b| == 0 {
      assert a + b == a;
      if ExtractIds(a).Ok? {
        assert ExtractIds(a).value + [] == ExtractIds(a).value;
      }
    } else {
      var ab := a + b;
      var init := b[..|b| - 1];
      var d := b[|b| - 1];
      assert ab[..|ab| - 1] == a + init;
      assert ab[|ab| - 1] == d;
      ExtractIdsAppend(a, init);
      if ExtractIds(a).Ok? && ExtractIds(init).Ok? && QaIdKey in d.metadata && NormalizeId(d.metadata[QaIdKey]).Ok? {
        var x, y, k := ExtractIds(a).value, ExtractIds(init).value, NormalizeId(d.metadata[QaIdKey]).value;
        assert x + (y + [k]) == (x + y) + [k];
      }
    }
  }

  /** Extraction fails exactly when some document has a `qa_id` of an unexpected type, and the
      reported type is that of the first such document. */
  lemma {:induction false} ExtractIdsFailure(docs: seq<Document>)
    ensures ExtractIds(docs).Err? <==> exists i :: 0 <= i < |docs| && HasUnexpectedId(docs[i])
    ensures ExtractIds(docs).Err? ==>
      exists i :: FirstUnexpectedId(docs, i) && docs[i].metadata[QaIdKey] == Other(ExtractIds(docs).error)
    decreases |docs|
  {
    if |docs| > 0 {
      var init := docs[..|docs| - 1];
      ExtractIdsFailure(init);
      assert forall i :: 0 <= i < |init| ==> init[i] == docs[i];
    }
  }

  /** On success the extracted ids are exactly the ids the documents carry. */
  lemma {:induction false} ExtractIdsMembers(docs: seq<Document>)
    requires ExtractIds(docs).Ok?
    ensures forall k :: k in ExtractIds(docs).value <==> exists i :: 0 <= i < |docs| && DocId(docs[i]) == Some(k)
    decreases |docs|
  {
    if |docs| > 0 {
      var n := |docs| - 1;
      var init := docs[..n];
      ExtractIdsMembers(init);
      assert forall i :: 0 <= i < n ==> init[i] == docs[i];
    }
  }

  /** On success there is one id per document that has a `qa_id` key: keyless documents are
      skipped, and nothing is deduplicated. */
  lemma {:induction false} ExtractIdsCount(docs: seq<Document>)
    requires ExtractIds(docs).Ok?
    ensures |ExtractIds(docs).value| == |set i | 0 <= i < |docs| && QaIdKey in docs[i].metadata|
    decreases |docs|
  {
    if |docs| > 0 {
      var n := |docs| - 1;
      var init := docs[..n];
      ExtractIdsCount(init);
      var s := set i | 0 <= i < n && QaIdKey in docs[i].metadata;
      assert (set i | 0 <= i < |init| && QaIdKey in init[i].metadata) == s;
      if QaIdKey in docs[n].metadata {
        assert (set i | 0 <= i < |docs| && QaIdKey in docs[i].metadata) == s + {n};
      } else {
        assert (set i | 0 <= i < |docs| && QaIdKey in docs[i].metadata) == s;
      }
    }
  }

  /** The loop of RetrieveAnswer over the search results that appends to `ids`. */
  method CollectIds(docs: seq<Document>) returns (r: Result<seq<int>, string>)
    ensures r == ExtractIds(docs)
  {
    var ids: seq<int> := [];
    for i := 0 to |docs|
      invariant ExtractIds(docs[..i]) == Ok(ids)
    {
      assert docs[..i + 1][..i] == docs[..i];
      var doc := docs[i];
      if QaIdKey in doc.metadata {
        match doc.metadata[QaIdKey] {
          case IntV(v) => ids := ids + [v];
          case FloatV(v) => ids := ids + [TruncateToInt(v)];
          case Other(t) =>
            ExtractIdsAppend(docs[..i + 1], docs[i + 1..]);
            assert docs[..i + 1] + docs[i + 1..] == docs;
            return Err(t);
        }
      }
    }
    assert docs[..|docs|] == docs;
    r := Ok(ids);
  }

  // ---------------------------------------------------------------------------------------
  // The relational table and the answer query

  datatype QARow = QARow(question: string, answer: string)

  /** The ids of the rows that `SELECT ... WHERE id IN (wanted)` returns among ids lo .. hi-1,
      in ascending id order (the primary-key order of the table). */
  function SelectedIds(rows: map<int, QARow>, wanted: seq<int>, lo: int, hi: int): seq<int>
    decreases hi - lo
  {
    if lo >= hi then []
    else (if lo in rows && lo in wanted then [lo] else []) + SelectedIds(rows, wanted, lo + 1, hi)
  }

  predicate Ascending(ks: seq<int>) {
    forall i, j :: 0 <= i < j < |ks| ==> ks[i] < ks[j]
  }

  lemma AscendingCons(x: int, rest: seq<int>)
    requires Ascending(rest)
    requires forall j :: 0 <= j < |rest| ==> x < rest[j]
    ensures Ascending([x] + rest)
  {
    var s := [x] + rest;
    forall i, j | 0 <= i < j < |s|
      ensures s[i] < s[j]
    {
      assert s[j] == rest[j - 1];
      if 0 < i {
        assert s[i] == rest[i - 1];
      }
    }
  }

  lemma {:induction false} SelectedIdsMembers(rows: map<int, QARow>, wanted: seq<int>, lo: int, hi: int)
    ensures forall k :: k in SelectedIds(rows, wanted, lo, hi) <==> lo <= k < hi && k in rows && k in wanted
    decreases hi - lo
  {
    if lo < hi {
      SelectedIdsMembers(rows, wanted, lo + 1, hi);
    }
  }

  lemma {:induction false} SelectedIdsAscending(rows: map<int, QARow>, wanted: seq<int>, lo: int, hi: int)
    ensures Ascending(SelectedIds(rows, wanted, lo, hi))
    decreases hi - lo
  {
    if lo < hi {
      var rest := SelectedIds(rows, wanted, lo + 1, hi);
      SelectedIdsAscending(rows, wanted, lo + 1, hi);
      if lo in rows && lo in wanted {
        SelectedIdsMembers(rows, wanted, lo + 1, hi);
        forall j | 0 <= j < |rest|
          ensures lo < rest[j]
        {
          assert rest[j] in rest;
        }
        AscendingCons(lo, rest);
        assert SelectedIds(rows, wanted, lo, hi) == [lo] + rest;
      }
    }
  }

  /** A selection holds each wanted, existing row once, in strictly ascending id order. */
  lemma SelectedIdsExact(rows: map<int, QARow>, wanted: seq<int>, lo: int, hi: int)
    ensures forall k :: k in SelectedIds(rows, wanted, lo, hi) <==> lo <= k < hi && k in rows && k in wanted
    ensures forall i :: 0 <= i < |SelectedIds(rows, wanted, lo, hi)| ==>
      SelectedIds(rows, wanted, lo, hi)[i] in rows && lo <= SelectedIds(rows, wanted, lo, hi)[i]
    ensures Ascending(SelectedIds(rows, wanted, lo, hi))
  {
    SelectedIdsMembers(rows, wanted, lo, hi);
    SelectedIdsAscending(rows, wanted, lo, hi);
    var sel := SelectedIds(rows, wanted, lo, hi);
    forall i | 0 <= i < |sel|
      ensures sel[i] in rows && lo <= sel[i]
    {
      assert sel[i] in sel;
    }
  }

  function AnswersOf(rows: map<int, QARow>, ks: seq<int>): (answers: seq<string>)
    requires forall i :: 0 <= i < |ks| ==> ks[i] in rows
    ensures |answers| == |ks|
  {
    seq(|ks|, i requires 0 <= i < |ks| => rows[ks[i]].answer)
  }

  /** What the `for rows.Next()` loop delivers of a result set: all of it, or, when reading the
      result set fails after `scanStop.value` rows, the rows read so far. `Next()` then returns
      false and the loop's error is never looked at, so the prefix passes as the whole answer. */
  function ReadAnswers(answers: seq<string>, scanStop: Option<nat>): (read: seq<string>)
    ensures read <= answers
    ensures scanStop.None? ==> read == answers
    ensures scanStop.Some? && scanStop.value < |answers| ==> |read| == scanStop.value
    ensures scanStop.Some? && scanStop.value >= |answers| ==> read == answers
  {
    if scanStop.Some? && scanStop.value < |answers| then answers[..scanStop.value] else answers
  }

  /** The `rows.Next()` scan of RetrieveAnswer: the answer of each selected row, in order, until
      the result set ends or fails. */
  method ScanAnswers(rows: map<int, QARow>, ks: seq<int>, scanStop: Option<nat>) returns (answers: seq<string>)
    requires forall i :: 0 <= i < |ks| ==> ks[i] in rows
    ensures answers == ReadAnswers(AnswersOf(rows, ks), scanStop)
  {
    answers := [];
    var i := 0;
    while i < |ks| && (scanStop.None? || i < scanStop.value)
      invariant i <= |ks| && (scanStop.Some? ==> i <= scanStop.value)
      invariant |answers| == i
      invariant forall j :: 0 <= j < i ==> answers[j] == rows[ks[j]].answer
    {
      answers := answers + [rows[ks[i]].answer];
      i := i + 1;
    }
    assert answers == AnswersOf(rows, ks)[..i];
  }

  /** What the database answers to `SELECT answer FROM qa_pairs WHERE id IN (<idList>)`,
      for a table whose ids all lie in [1, nextId). */
  function AnswerQuery(rows: map<int, QARow>, nextId: int, idList: string): Result<seq<string>, string> {
    match ParseIdList(idList)
    case None => Err("syntax error in id list")
    case Some(ids) =>
      SelectedIdsExact(rows, ids, 1, nextId);
      Ok(AnswersOf(rows, SelectedIds(rows, ids, 1, nextId)))
  }

  // ---------------------------------------------------------------------------------------
  // The read protocol

  datatype RetrieveError =
    | SearchFailed(message: string)
    | UnexpectedIdType(typeName: string)
    | AnswerQueryFailed(message: string)

  /** RetrieveAnswer as a function of the table, the search outcome, the database's failure (if
      any) on the answer query, and the point (if any) where reading its result set fails. */
  function Retrieval(rows: map<int, QARow>, nextId: int, searched: Result<seq<Document>, string>,
                     dbError: Option<string>, scanStop: Option<nat>): Result<seq<string>, RetrieveError> {
    match searched
    case Err(e) => Err(SearchFailed(e))
    case Ok(found) =>
      match ExtractIds(found)
      case Err(t) => Err(UnexpectedIdType(t))
      case Ok(ids) =>
        if |ids| == 0 then Ok([])
        else if dbError.Some? then Err(AnswerQueryFailed(dbError.value))
        else match AnswerQuery(rows, nextId, IdListText(ids))
          case Err(e) => Err(AnswerQueryFailed(e))
          case Ok(answers) => Ok(ReadAnswers(answers, scanStop))
  }

  /** A result set that fails part-way is not reported: the retrieval succeeds exactly when the
      complete read does, with a prefix of its answers. */
  lemma RetrievalStopsSilently(rows: map<int, QARow>, nextId: int, searched: Result<seq<Document>, string>,
                               dbError: Option<string>, n: nat)
    ensures Retrieval(rows, nextId, searched, dbError, Some(n)).Ok? <==> Retrieval(rows, nextId, searched, dbError, None).Ok?
    ensures Retrieval(rows, nextId, searched, dbError, Some(n)).Ok? ==>
      Retrieval(rows, nextId, searched, dbError, Some(n)).value <= Retrieval(rows, nextId, searched, dbError, None).value
    ensures Retrieval(rows, nextId, searched, dbError, Some(n)).Ok? ==>
      |Retrieval(rows, nextId, searched, dbError, Some(n)).value| ==
        if n < |Retrieval(rows, nextId, searched, dbError, None).value| then n
        else |Retrieval(rows, nextId, searched, dbError, None).value|
  {
  }

  /** Rows 3 and 5 are selected and reading fails after the first: the answer of row 3 alone
      comes back, as a success. */
  lemma StoppedScanExample()
    ensures Retrieval(map[3 := QARow("q3", "a3"), 5 := QARow("q5", "a5")], 6,
                      Ok([QADocument("q3", 3), QADocument("q5", 5)]), None, Some(1)) == Ok(["a3"])
  {
    var rows := map[3 := QARow("q3", "a3"), 5 := QARow("q5", "a5")];
    ExampleIds();
    IdListRoundTrip([3, 5]);
    ExampleSelection(rows);
    assert AnswersOf(rows, [3, 5]) == ["a3", "a5"];
    assert AnswerQuery(rows, 6, IdListText([3, 5])) == Ok(["a3", "a5"]);
    assert ReadAnswers(["a3", "a5"], Some(1)) == ["a3"];
  }

  /** The ids of the two documents of StoppedScanExample. */
  lemma ExampleIds()
    ensures ExtractIds([QADocument("q3", 3), QADocument("q5", 5)]) == Ok([3, 5])
  {
    var d3, d5 := QADocument("q3", 3), QADocument("q5", 5);
    assert [d3][..0] == [];
    var none: seq<int> := [];
    assert none + [3] == [3];
    assert [d3][|[d3]| - 1] == d3;
    assert ExtractIds([d3]) == Ok([3]);
    assert [d3, d5][..|[d3, d5]| - 1] == [d3];
    assert [d3, d5][|[d3, d5]| - 1] == d5;
    assert [3] + [5] == [3, 5];
  }

  /** The rows of StoppedScanExample that the query selects. */
  lemma ExampleSelection(rows: map<int, QARow>)
    requires rows == map[3 := QARow("q3", "a3"), 5 := QARow("q5", "a5")]
    ensures SelectedIds(rows, [3, 5], 1, 6) == [3, 5]
  {
    assert 1 !in rows && 2 !in rows && 4 !in rows && 3 in rows && 5 in rows;
    assert SelectedIds(rows, [3, 5], 6, 6) == [];
    assert SelectedIds(rows, [3, 5], 5, 6) == [5];
    assert SelectedIds(rows, [3, 5], 4, 6) == [5];
    assert SelectedIds(rows, [3, 5], 3, 6) == [3, 5];
    assert SelectedIds(rows, [3, 5], 2, 6) == [3, 5];
  }

  /** The document that StoreQA writes for a pair: the question as content and the row id as
      an integer `qa_id`. */
  function QADocument(question: string, id: int): (d: Document)
    ensures d.content == question && DocId(d) == Some(id)
  {
    Document(question, map[QaIdKey := IntV(id)])
  }

  /** The table's ids are positive and below the next auto-increment value. */
  ghost predicate IdsBelow(rows: map<int, QARow>, nextId: int) {
    forall k :: k in rows ==> 1 <= k < nextId
  }

  /** Some retrieved document carries id `k`. */
  ghost predicate PointsAt(found: seq<Document>, k: int) {
    exists i :: 0 <= i < |found| && DocId(found[i]) == Some(k)
  }

  /** `answers` are the answers of the rows `ks`, which are exactly the existing rows some
      retrieved document points at, each once, in ascending id order. */
  ghost predicate AnswersOfPointedRows(rows: map<int, QARow>, found: seq<Document>, answers: seq<string>, ks: seq<int>) {
    && |ks| == |answers|
    && Ascending(ks)
    && (forall i :: 0 <= i < |ks| ==> ks[i] in rows && rows[ks[i]].answer == answers[i])
    && (forall k :: k in ks <==> k in rows && PointsAt(found, k))
  }

  /** A successful retrieval returns one answer per distinct existing row that some retrieved
      document points at, in ascending id order: duplicates among the documents collapse, and
      ids without a row are simply absent. */
  lemma RetrievalAnswers(rows: map<int, QARow>, nextId: int, found: seq<Document>)
    requires IdsBelow(rows, nextId)
    requires ExtractIds(found).Ok?
    ensures Retrieval(rows, nextId, Ok(found), None, None).Ok?
    ensures exists ks :: AnswersOfPointedRows(rows, found, Retrieval(rows, nextId, Ok(found), None, None).value, ks)
  {
    var ids := ExtractIds(found).value;
    ExtractIdsMembers(found);
    assert forall k :: k in ids <==> PointsAt(found, k);
    if |ids| == 0 {
      assert AnswersOfPointedRows(rows, found, [], []);
    } else {
      IdListRoundTrip(ids);
      SelectedIdsExact(rows, ids, 1, nextId);
      var ks := SelectedIds(rows, ids, 1, nextId);
      var answers := AnswersOf(rows, ks);
      assert AnswerQuery(rows, nextId, IdListText(ids)) == Ok(answers);
      assert Retrieval(rows, nextId, Ok(found), None, None) == Ok(answers);
      assert AnswersOfPointedRows(rows, found, answers, ks);
    }
  }

  /** Storing then retrieving: when the search returns a document for row `id` (its `qa_id`
      an integer or a float that truncates to `id`) and no document with an unexpected id type,
      the row's answer is among the answers. */
  lemma StoredAnswerIsRetrieved(rows: map<int, QARow>, nextId: int, found: seq<Document>, question: string, id: int, j: int)
    requires IdsBelow(rows, nextId) && id in rows
    requires 0 <= j < |found| && found[j].content == question && DocId(found[j]) == Some(id)
    requires forall i :: 0 <= i < |found| ==> !HasUnexpectedId(found[i])
    ensures Retrieval(rows, nextId, Ok(found), None, None).Ok?
    ensures rows[id].answer in Retrieval(rows, nextId, Ok(found), None, None).value
  {
    ExtractIdsFailure(found);
    RetrievalAnswers(rows, nextId, found);
    var answers := Retrieval(rows, nextId, Ok(found), None, None).value;
    var ks :| AnswersOfPointedRows(rows, found, answers, ks);
    assert PointsAt(found, id);
    var p :| 0 <= p < |ks| && ks[p] == id;
    assert answers[p] == rows[id].answer;
  }

  /** A backend that hands the integer id back as a float yields the same id. */
  lemma FloatEncodedIdIsSame(question: string, id: int)
    ensures DocId(Document(question, map[QaIdKey := FloatV(id as real)])) == Some(id)
    ensures DocId(Document(question, map[QaIdKey := FloatV(id as real)])) == DocId(QADocument(question, id))
  {
  }

  // ---------------------------------------------------------------------------------------
  // Prompting

  const NoAnswerFallback: string := "没有找到相关答案"
  const PromptLead: string := "根据以下问题和相关答案，生成一个完整的回答：\n\n问题："
  const PromptAnswersLead: string := "\n\n相关答案：\n"
  const AnswerSeparator: string := "\n\n"

  /** The prompt of generateFinalResponse. */
  function GenerationPrompt(query: string, answers: seq<string>): (p: string)
    ensures |p| >= |PromptLead| + |query| + |PromptAnswersLead|
    ensures p[..|PromptLead|] == PromptLead
    ensures OccursAt(p, query, |PromptLead|)
  {
    var p := PromptLead + query + PromptAnswersLead + Join(answers, AnswerSeparator);
    assert p[..|PromptLead|] == PromptLead;
    assert p[|PromptLead|..|PromptLead| + |query|] == query;
    p
  }

  /** The prompt embeds the query and every answer. */
  lemma PromptEmbedsAnswers(query: string, answers: seq<string>)
    ensures Occurs(GenerationPrompt(query, answers), query)
    ensures forall k :: 0 <= k < |answers| ==> Occurs(GenerationPrompt(query, answers), answers[k])
  {
    var head := PromptLead + query + PromptAnswersLead;
    assert GenerationPrompt(query, answers) == head + Join(answers, AnswerSeparator);
    forall k | 0 <= k < |answers|
      ensures Occurs(GenerationPrompt(query, answers), answers[k])
    {
      var off := JoinContainsPart(answers, AnswerSeparator, k);
      OccursShifted(Join(answers, AnswerSeparator), answers[k], off, head);
    }
  }

  /** The page contents handed to the agent as AI messages, in search order. */
  function PageContents(docs: seq<Document>): (contents: seq<string>)
    ensures |contents| == |docs|
  {
    seq(|docs|, i requires 0 <= i < |docs| => docs[i].content)
  }

  datatype QueryError =
    | RetrieveFailed(cause: RetrieveError)
    | GenerationFailed(message: string)
    | DocumentRetrievalFailed(message: string)
    | AnswerGenerationFailed(message: string)

  // ---------------------------------------------------------------------------------------
  // Store factory, errors of the write path and of cleanup

  datatype VectorInitError =
    | UnsupportedStoreType(storeType: string)
    | MilvusInitFailed(milvusError: Milvus.InitError)
    | QdrantInitFailed(qdrantError: Qdrant.InitError)

  datatype InitError =
    | ModelInitFailed(message: string)
    | VectorStoreInitFailed(cause: VectorInitError)
    | DatabaseOpenFailed(message: string)

  datatype StoreError =
    | InsertFailed(message: string)
    | LastInsertIdFailed(message: string)
    | UpsertFailed(message: string)

  datatype CloseError = VectorStoreCloseFailed(message: string) | DatabaseCloseFailed(message: string)

  datatype CleanupFailure = CleanupFailure(errors: seq<CloseError>)

  /** Steps of the write protocol, in the order they take effect. */
  datatype Event = RowInserted(id: int) | DocumentAdded(id: int)

  /** Every vector document that carries an id points at an existing row. */
  ghost predicate Linked(rows: map<int, QARow>, docs: seq<Document>) {
    forall i :: 0 <= i < |docs| && DocId(docs[i]).Some? ==> DocId(docs[i]).value in rows
  }

  /** When initVectorStore succeeds: a known store kind whose backend accepts its configuration
      and whose connection attempt succeeds. */
  predicate VectorInitSucceeds(storeType: string, milvusCfg: Milvus.MilvusConfig, qdrantCfg: Qdrant.QdrantConfig,
                               dialError: Option<string>, parseUrl: string -> Result<Qdrant.Url, string>)
  {
    || (storeType == "milvus" && Milvus.IndexFor(milvusCfg.indexType).Some? && dialError.None?)
    || (storeType == "qdrant" && parseUrl(qdrantCfg.address).Ok? && dialError.None?)
  }

  /** initVectorStore: the store kind selects the backend, which is built and initialized;
      the backend is returned even when its Initialize failed, as in the source. */
  method InitVectorStore(storeType: string, milvusCfg: Milvus.MilvusConfig, qdrantCfg: Qdrant.QdrantConfig,
                         dialError: Option<string>, parseUrl: string -> Result<Qdrant.Url, string>)
    returns (store: Option<VectorStore.Backend>, err: Option<VectorInitError>)
    ensures storeType != "milvus" && storeType != "qdrant" ==>
      store == None && err == Some(UnsupportedStoreType(storeType))
    ensures storeType == "milvus" ==> store.Some? && store.value.MilvusBackend? && store.value.m.cfg == milvusCfg
    ensures storeType == "qdrant" ==> store.Some? && store.value.QdrantBackend? && store.value.q.cfg == qdrantCfg
    ensures store.Some? ==> fresh(store.value.Obj()) && store.value.Docs() == []
    ensures store.Some? ==> (err == None <==> store.value.Initialized())
    ensures err == None <==> VectorInitSucceeds(storeType, milvusCfg, qdrantCfg, dialError, parseUrl)
    ensures storeType == "milvus" ==>
      (err == None <==> Milvus.IndexFor(milvusCfg.indexType).Some? && dialError.None?)
    ensures storeType == "qdrant" ==>
      (err == None <==> parseUrl(qdrantCfg.address).Ok? && dialError.None?)
  {
    match storeType {
      case "milvus" =>
        var m := new Milvus.MilvusStore(milvusCfg);
        var e := m.Initialize(dialError);
        store := Some(VectorStore.MilvusBackend(m));
        err := if e.Some? then Some(MilvusInitFailed(e.value)) else None;
      case "qdrant" =>
        var q := new Qdrant.QdrantStore(qdrantCfg);
        var e := q.Initialize(parseUrl, dialError);
        store := Some(VectorStore.QdrantBackend(q));
        err := if e.Some? then Some(QdrantInitFailed(e.value)) else None;
      case _ =>
        store := None;
        err := Some(UnsupportedStoreType(storeType));
    }
  }

  // ---------------------------------------------------------------------------------------
  // The service object

  class ModelService {
    /** `cfg.VectorStore.Type`, the backend configurations and `cfg.MySQL.DSN`. */
    const storeType: string
    const milvusCfg: Milvus.MilvusConfig
    const qdrantCfg: Qdrant.QdrantConfig
    const dsn: string

    /** `s.store`, nil until Initialize assigns an initialized backend. */
    var vector: Option<VectorStore.Backend>
    /** `s.llm` and `s.embedder` assigned. */
    var llmReady: bool
    /** `s.db` assigned. */
    var dbOpen: bool
    /** The `qa_pairs` table and its auto-increment counter. */
    var rows: map<int, QARow>
    var nextId: int
    /** The effects of the write path, in order. */
    ghost var log: seq<Event>

    ghost function Backend(): set<object>
      reads this
    {
      if vector.Some? then {vector.value.Obj()} else {}
    }

    ghost predicate Valid()
      reads this, Backend()
    {
      && IdsBelow(rows, nextId)
      && 1 <= nextId
      && (vector.Some? ==> vector.value.Initialized() && Linked(rows, vector.value.Docs()))
    }

    /** Row `id` exists but no vector document points at it: stored but never retrievable. */
    ghost predicate Orphaned(id: int)
      reads this, Backend()
    {
      id in rows && (vector.Some? ==> forall i :: 0 <= i < |vector.value.Docs()| ==> DocId(vector.value.Docs()[i]) != Some(id))
    }

    constructor (storeType: string, milvusCfg: Milvus.MilvusConfig, qdrantCfg: Qdrant.QdrantConfig, dsn: string)
      ensures Valid()
      ensures this.storeType == storeType && this.milvusCfg == milvusCfg && this.qdrantCfg == qdrantCfg && this.dsn == dsn
      ensures vector == None && !llmReady && !dbOpen && rows == map[] && nextId == 1 && log == []
    {
      this.storeType := storeType;
      this.milvusCfg := milvusCfg;
      this.qdrantCfg := qdrantCfg;
      this.dsn := dsn;
      vector := None;
      llmReady := false;
      dbOpen := false;
      rows := map[];
      nextId := 1;
      log := [];
    }

    /** Builds the models, then the vector store, assigns both, then opens the database.
        `modelsError` is the outcome of building the LLM and embedder; `openError` that of
        `sql.Open(dsn)`. */
    method Initialize(modelsError: Option<string>, dialError: Option<string>,
                      parseUrl: string -> Result<Qdrant.Url, string>, openError: Option<string>)
      returns (err: Option<InitError>)
      requires Valid()
      modifies this
      ensures Valid()
      ensures rows == old(rows) && nextId == old(nextId) && log == old(log)
      ensures modelsError.Some? ==>
        (err == Some(ModelInitFailed(modelsError.value)) &&
         vector == old(vector) && llmReady == old(llmReady) && dbOpen == old(dbOpen))
      ensures err == None <==>
        modelsError.None? && VectorInitSucceeds(storeType, milvusCfg, qdrantCfg, dialError, parseUrl) && openError.None?
      ensures modelsError.None? && !VectorInitSucceeds(storeType, milvusCfg, qdrantCfg, dialError, parseUrl) ==>
        && err.Some? && err.value.VectorStoreInitFailed?
        && vector == old(vector) && llmReady == old(llmReady) && dbOpen == old(dbOpen)
      ensures modelsError.None? && storeType != "milvus" && storeType != "qdrant" ==>
        err == Some(VectorStoreInitFailed(UnsupportedStoreType(storeType)))
      ensures modelsError.None? && VectorInitSucceeds(storeType, milvusCfg, qdrantCfg, dialError, parseUrl) ==>
        && vector.Some? && fresh(vector.value.Obj()) && vector.value.Docs() == [] && llmReady
        && (storeType == "milvus" ==> vector.value.MilvusBackend? && vector.value.m.cfg == milvusCfg)
        && (storeType == "qdrant" ==> vector.value.QdrantBackend? && vector.value.q.cfg == qdrantCfg)
        && (openError.Some? ==> err == Some(DatabaseOpenFailed(openError.value)) && dbOpen == old(dbOpen))
        && (openError.None? ==> err == None && dbOpen)
    {
      if modelsError.Some? {
        return Some(ModelInitFailed(modelsError.value));
      }
      var store, verr := InitVectorStore(storeType, milvusCfg, qdrantCfg, dialError, parseUrl);
      if verr.Some? {
        return Some(VectorStoreInitFailed(verr.value));
      }
      llmReady := true;
      vector := store;
      if openError.Some? {
        return Some(DatabaseOpenFailed(openError.value));
      }
      dbOpen := true;
      err := None;
    }

    /** The write path: insert the row, read its id, then add one vector document for it.
        `execError`, `lastIdError` and `upsertError` are the remote outcomes of the three steps.
        Nothing is rolled back: a failure after the insert leaves an orphaned row. */
    method StoreQA(question: string, answer: string, execError: Option<string>,
                   lastIdError: Option<string>, upsertError: Option<string>)
      returns (err: Option<StoreError>)
      requires Valid() && vector.Some? && dbOpen
      modifies this, Backend()
      ensures Valid()
      ensures vector == old(vector) && llmReady == old(llmReady) && dbOpen == old(dbOpen)
      ensures vector.value.MilvusBackend? ==> vector.value.m.store == old(vector.value.m.store)
      ensures vector.value.QdrantBackend? ==> vector.value.q.store == old(vector.value.q.store)
      ensures execError.Some? ==>
        err == Some(InsertFailed(execError.value)) && rows == old(rows) && nextId == old(nextId) &&
        vector.value.Docs() == old(vector.value.Docs()) && log == old(log)
      ensures execError.None? ==>
        rows == old(rows)[old(nextId) := QARow(question, answer)] && nextId == old(nextId) + 1
      ensures execError.None? && lastIdError.Some? ==>
        err == Some(LastInsertIdFailed(lastIdError.value)) &&
        vector.value.Docs() == old(vector.value.Docs()) && log == old(log) + [RowInserted(old(nextId))]
      ensures execError.None? && lastIdError.None? && upsertError.Some? ==>
        err == Some(UpsertFailed(upsertError.value)) &&
        vector.value.Docs() == old(vector.value.Docs()) && log == old(log) + [RowInserted(old(nextId))]
      ensures execError.None? && lastIdError.None? && upsertError.None? ==>
        err == None && vector.value.Docs() == old(vector.value.Docs()) + [QADocument(question, old(nextId))] &&
        log == old(log) + [RowInserted(old(nextId)), DocumentAdded(old(nextId))]
      ensures execError.None? && err.Some? ==> Orphaned(old(nextId))
    {
      if execError.Some? {
        return Some(InsertFailed(execError.value));
      }
      var id := nextId;
      rows := rows[id := QARow(question, answer)];
      nextId := nextId + 1;
      log := log + [RowInserted(id)];
      if lastIdError.Some? {
        return Some(LastInsertIdFailed(lastIdError.value));
      }
      var doc := QADocument(question, id);
      var e := VectorStore.AddDocuments(vector.value, [doc], upsertError);
      if e.Some? {
        return Some(UpsertFailed(e.value));
      }
      log := log + [DocumentAdded(id)];
      err := None;
    }

    /** The read path. `search` is the backend's similarity search, `dbError` the database's
        failure on the answer query, if any, and `scanStop` the number of rows after which
        reading the result set fails, if it does. */
    method RetrieveAnswer(query: string, topK: int, search: VectorStore.SearchFn, dbError: Option<string>,
                          scanStop: Option<nat>)
      returns (r: Result<seq<string>, RetrieveError>)
      requires Valid() && vector.Some? && dbOpen
      ensures r == Retrieval(rows, nextId, vector.value.Search(query, topK, search), dbError, scanStop)
      ensures vector.value.Search(query, topK, search).Ok? ==>
        var found := vector.value.Search(query, topK, search).value;
        && (ExtractIds(found) == Ok([]) ==> r == Ok([]))
        && ((exists i :: 0 <= i < |found| && HasUnexpectedId(found[i])) ==> r.Err? && r.error.UnexpectedIdType?)
    {
      var searched := vector.value.Search(query, topK, search);
      if searched.Err? {
        return Err(SearchFailed(searched.error));
      }
      ExtractIdsFailure(searched.value);
      var extracted := CollectIds(searched.value);
      if extracted.Err? {
        return Err(UnexpectedIdType(extracted.error));
      }
      var ids := extracted.value;
      if |ids| == 0 {
        return Ok([]);
      }
      var idList := BuildIdList(ids);
      if dbError.Some? {
        return Err(AnswerQueryFailed(dbError.value));
      }
      var wanted := ParseIdList(idList);
      if wanted.None? {
        // the list of at least one id always parses
        assert false;
      }
      // the rows the query yields, scanned one by one
      var ks := SelectedIds(rows, wanted.value, 1, nextId);
      SelectedIdsExact(rows, wanted.value, 1, nextId);
      var answers := ScanAnswers(rows, ks, scanStop);
      assert AnswerQuery(rows, nextId, idList) == Ok(AnswersOf(rows, ks));
      r := Ok(answers);
    }

    /** The id-bridged query: no LLM call when nothing was found, otherwise one call with the
        prompt that embeds the query and the answers. `prompts` lists the prompts sent to `llm`. */
    method QueryWithRetrieve(query: string, topK: int, search: VectorStore.SearchFn, dbError: Option<string>,
                             scanStop: Option<nat>, llm: string -> Result<string, string>)
      returns (r: Result<string, QueryError>, prompts: seq<string>)
      requires Valid() && vector.Some? && dbOpen && llmReady
      ensures var retrieved := Retrieval(rows, nextId, vector.value.Search(query, topK, search), dbError, scanStop);
        && (retrieved.Err? ==> r == Err(RetrieveFailed(retrieved.error)) && prompts == [])
        && (retrieved.Ok? && |retrieved.value| == 0 ==> r == Ok(NoAnswerFallback) && prompts == [])
        && (retrieved.Ok? && |retrieved.value| > 0 ==>
              prompts == [GenerationPrompt(query, retrieved.value)] &&
              r == match llm(prompts[0]) case Ok(text) => Ok(text) case Err(e) => Err(GenerationFailed(e)))
    {
      var answers := RetrieveAnswer(query, topK, search, dbError, scanStop);
      if answers.Err? {
        return Err(RetrieveFailed(answers.error)), [];
      }
      if |answers.value| == 0 {
        return Ok(NoAnswerFallback), [];
      }
      var prompt := GenerationPrompt(query, answers.value);
      prompts := [prompt];
      var res := llm(prompt);
      if res.Err? {
        return Err(GenerationFailed(res.error)), prompts;
      }
      r := Ok(res.value);
    }

    /** The direct query: the retrieved page contents, in order, go to the agent with the query. */
    method Query(query: string, topK: int, search: VectorStore.SearchFn,
                 agent: (seq<string>, string) -> Result<string, string>)
      returns (r: Result<string, QueryError>)
      requires Valid() && vector.Some? && llmReady
      ensures vector.value.Search(query, topK, search).Err? ==>
        r == Err(DocumentRetrievalFailed(vector.value.Search(query, topK, search).error))
      ensures vector.value.Search(query, topK, search).Ok? ==>
        var contents := PageContents(vector.value.Search(query, topK, search).value);
        r == match agent(contents, query) case Ok(text) => Ok(text) case Err(e) => Err(AnswerGenerationFailed(e))
    {
      var searched := vector.value.Search(query, topK, search);
      if searched.Err? {
        return Err(DocumentRetrievalFailed(searched.error));
      }
      var docs := searched.value;
      var history: seq<string> := [];
      for i := 0 to |docs|
        invariant history == PageContents(docs[..i])
      {
        history := history + [docs[i].content];
      }
      assert docs[..|docs|] == docs;
      var res := agent(history, query);
      if res.Err? {
        return Err(AnswerGenerationFailed(res.error));
      }
      r := Ok(res.value);
    }

    /** Closes the vector store and the database when present and reports every failure
        together. The vector store's Close never fails, so only the database can be reported;
        nothing is changed, so a second Close answers the same. */
    method Close(dbCloseError: Option<string>) returns (err: Option<CleanupFailure>)
      ensures err.Some? <==> dbOpen && dbCloseError.Some?
      ensures err.Some? ==> err.value.errors == [DatabaseCloseFailed(dbCloseError.value)]
    {
      var errs: seq<CloseError> := [];
      if vector.Some? {
        var e := VectorStore.Close(vector.value);
        if e.Some? {
          // neither backend's Close fails
          assert false;
        }
      }
      if dbOpen {
        if dbCloseError.Some? {
          errs := errs + [DatabaseCloseFailed(dbCloseError.value)];
        }
      }
      if |errs| > 0 {
        return Some(CleanupFailure(errs));
      }
      err := None;
    }
  }
}
