/** The HTTP handlers of `api/handlers.go` as decisions over an abstract request: the verb, the
    decoded body (None when the JSON does not decode), and the service call's outcome. Each
    handler also returns the service call it made, if any. */
module Handlers {
  import opened Results

  const StatusOK: int := 200
  const StatusBadRequest: int := 400
  const StatusMethodNotAllowed: int := 405
  const StatusInternalServerError: int := 500
  const StatusGatewayTimeout: int := 504

  const PostOnlyMessage: string := "仅支持 POST 方法"
  const GetOnlyMessage: string := "仅支持 GET 方法"
  const InvalidBodyMessage: string := "无效的请求体"
  const EmptyQueryMessage: string := "查询内容不能为空"
  const TimeoutMessage: string := "请求超时"

  const DefaultTopK: int := 5
  const MaxTopK: int := 20

  datatype Payload = NoData | Text(text: string) | Texts(items: seq<string>)

  /** The JSON envelope `Response` with the status it is written with. */
  datatype Response = Response(status: int, success: bool, data: Payload, error: string)

  datatype QueryRequest = QueryRequest(query: string, topK: int)

  datatype QAPairRequest = QAPairRequest(question: string, answer: string)

  /** What the query service reports: an answer, or a failure with its message and whether the
      request's 30-second deadline had passed when it failed. */
  datatype QueryOutcome = Answered(answer: string) | QueryFailed(message: string, deadlineExceeded: bool)

  /** `top_k` as the service receives it: 5 when not positive, at most 20, otherwise unchanged. */
  function ClampTopK(k: int): (r: int)
    ensures 1 <= r <= MaxTopK
    ensures k <= 0 ==> r == DefaultTopK
    ensures k > MaxTopK ==> r == MaxTopK
    ensures 1 <= k <= MaxTopK ==> r == k
  {
    if k <= 0 then DefaultTopK else if k > MaxTopK then MaxTopK else k
  }

  /** Clamping twice is clamping once. */
  lemma ClampIdempotent(k: int)
    ensures ClampTopK(ClampTopK(k)) == ClampTopK(k)
  {
  }

  function Failure(status: int, message: string): Response {
    Response(status, false, NoData, message)
  }

  /** QueryHandler. A wrong verb is refused before the body is looked at, an undecodable body or
      an empty query before the service is called; the service gets the clamped `top_k`. */
  method QueryHandler(httpMethod: string, body: Option<QueryRequest>, service: (string, int) -> QueryOutcome)
    returns (resp: Response, call: Option<(string, int)>)
    ensures httpMethod != "POST" ==> resp == Failure(StatusMethodNotAllowed, PostOnlyMessage) && call == None
    ensures httpMethod == "POST" && body.None? ==> resp == Failure(StatusBadRequest, InvalidBodyMessage) && call == None
    ensures httpMethod == "POST" && body.Some? && body.value.query == "" ==>
      resp == Failure(StatusBadRequest, EmptyQueryMessage) && call == None
    ensures httpMethod == "POST" && body.Some? && body.value.query != "" ==>
      var req := body.value;
      var outcome := service(req.query, ClampTopK(req.topK));
      && call == Some((req.query, ClampTopK(req.topK)))
      && (outcome.Answered? ==> resp == Response(StatusOK, true, Text(outcome.answer), ""))
      && (outcome.QueryFailed? && outcome.deadlineExceeded ==> resp == Failure(StatusGatewayTimeout, TimeoutMessage))
      && (outcome.QueryFailed? && !outcome.deadlineExceeded ==> resp == Failure(StatusInternalServerError, outcome.message))
    ensures resp.success <==> resp.status == StatusOK
  {
    if httpMethod != "POST" {
      return Failure(StatusMethodNotAllowed, PostOnlyMessage), None;
    }
    if body.None? {
      return Failure(StatusBadRequest, InvalidBodyMessage), None;
    }
    var req := body.value;
    if req.query == "" {
      return Failure(StatusBadRequest, EmptyQueryMessage), None;
    }
    if req.topK <= 0 {
      req := req.(topK := DefaultTopK);
    } else if req.topK > MaxTopK {
      req := req.(topK := MaxTopK);
    }
    call := Some((req.query, req.topK));
    var outcome := service(req.query, req.topK);
    if outcome.QueryFailed? {
      if outcome.deadlineExceeded {
        return Failure(StatusGatewayTimeout, TimeoutMessage), call;
      }
      return Failure(StatusInternalServerError, outcome.message), call;
    }
    resp := Response(StatusOK, true, Text(outcome.answer), "");
  }

  /** StoreQAHandler: question and answer are forwarded unchecked (empty strings included);
      `service` returns the store's error message, if any. */
  method StoreQAHandler(httpMethod: string, body: Option<QAPairRequest>, service: (string, string) -> Option<string>)
    returns (resp: Response, call: Option<(string, string)>)
    ensures httpMethod != "POST" ==> resp == Failure(StatusMethodNotAllowed, PostOnlyMessage) && call == None
    ensures httpMethod == "POST" && body.None? ==> resp == Failure(StatusBadRequest, InvalidBodyMessage) && call == None
    ensures httpMethod == "POST" && body.Some? ==>
      var outcome := service(body.value.question, body.value.answer);
      && call == Some((body.value.question, body.value.answer))
      && (outcome.None? ==> resp == Response(StatusOK, true, NoData, ""))
      && (outcome.Some? ==> resp == Failure(StatusInternalServerError, outcome.value))
    ensures resp.success <==> resp.status == StatusOK
  {
    if httpMethod != "POST" {
      return Failure(StatusMethodNotAllowed, PostOnlyMessage), None;
    }
    if body.None? {
      return Failure(StatusBadRequest, InvalidBodyMessage), None;
    }
    var req := body.value;
    call := Some((req.question, req.answer));
    var err := service(req.question, req.answer);
    if err.Some? {
      return Failure(StatusInternalServerError, err.value), call;
    }
    resp := Response(StatusOK, true, NoData, "");
  }

  /** GetQuestionsHandler: GET only; the listing's failure is always a 500 (no timeout status). */
  method GetQuestionsHandler(httpMethod: string, service: () -> Result<seq<string>, string>)
    returns (resp: Response, called: bool)
    ensures httpMethod != "GET" ==> resp == Failure(StatusMethodNotAllowed, GetOnlyMessage) && !called
    ensures httpMethod == "GET" ==>
      && called
      && (service().Ok? ==> resp == Response(StatusOK, true, Texts(service().value), ""))
      && (service().Err? ==> resp == Failure(StatusInternalServerError, service().error))
    ensures resp.success <==> resp.status == StatusOK
  {
    if httpMethod != "GET" {
      return Failure(StatusMethodNotAllowed, GetOnlyMessage), false;
    }
    called := true;
    var questions := service();
    if questions.Err? {
      return Failure(StatusInternalServerError, questions.error), called;
    }
    resp := Response(StatusOK, true, Texts(questions.value), "");
  }

  /** The clamped values of the four sample inputs 0, -5, 21 and 1000. */
  lemma ClampSamples()
    ensures ClampTopK(0) == 5 && ClampTopK(-5) == 5 && ClampTopK(21) == 20 && ClampTopK(1000) == 20
  {
  }
}
