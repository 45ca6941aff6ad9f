/** The transport of `http.rs`: how `make_request` and `make_request_empty`
    turn what the host did with a request into a result. The WASI host calls
    themselves are not modelled; the host is described by which request
    stages failed, the response status, and the sequence of outcomes its body
    stream gives. UTF-8 validation and serde_json parsing are parameters. */
module Http {
  import opened Common
  import opened Api
  import J = Json

  datatype HttpMethod = Get | Post | Delete

  /** One call to `blocking_read(8192)` on the response body stream. */
  datatype StreamRead = Chunk(bytes: seq<byte>) | Closed | Failed

  /** The steps of a request that can fail, each with its own error. */
  datatype Stage =
    | ContentTypeHeader
    | ApiKeyHeader
    | SetMethod
    | SetPath
    | SetScheme
    | SetAuthority
    | SerializeBody(detail: string)
    | OutgoingBody
    | RequestBodyStream
    | WriteBody
    | FinishBody
    | SendRequest
    | NotCompleted
    | RequestFailed
    | RequestError
    | ResponseBody
    | ResponseStream

  /** What the host did: the stages that failed, the status it answered
      with, and what successive reads of the body stream give. */
  datatype Host = Host(fails: set<Stage>, status: u16, outcomes: seq<StreamRead>)

  /** `String::from_utf8` and `serde_json::from_str::<Value>`, which the
      model does not define. */
  datatype Parsers = Parsers(utf8: seq<byte> -> Option<string>, json: string -> Option<J.Json>)

  /** `json` classifies the keys of every object it returns by their
      spelling, as serde_json does. */
  ghost predicate CanonicalParsers(p: Parsers)
  {
    forall t :: p.json(t).Some? && p.json(t).value.JObj? ==>
      forall k :: k in p.json(t).value.fields ==> J.CanonicalKey(k)
  }

  /** A call of `make_request` / `make_request_empty`; the body is the value
      to send, or the message of the failure serde gave when serialising it. */
  datatype Request = Request(httpMethod: HttpMethod, path: string, apiKey: string, body: Option<Result<J.Json, string>>)

  /** `api_error`: an error with the given code and message. */
  function MakeApiError(code: ApiErrorCode, message: string): ApiError
  {
    ApiError(code, message)
  }

  // -------- stage failures --------

  /** The error a failed stage returns. Only the API-key header and body
      serialisation have codes of their own; every other stage is `Unknown`. */
  function StageError(s: Stage): (e: ApiError)
    ensures e.code == Unauthorized <==> s == ApiKeyHeader
    ensures e.code == BadRequest <==> s.SerializeBody?
    ensures e.code == ApiErrorCode.Unknown <==> !(s == ApiKeyHeader || s.SerializeBody?)
    ensures s.SerializeBody? ==> e.message == "Failed to serialize body: " + s.detail
  {
    match s
    case ContentTypeHeader => MakeApiError(ApiErrorCode.Unknown, "failed to append content-type header")
    case ApiKeyHeader => MakeApiError(Unauthorized, "Failed to set API key header")
    case SetMethod => MakeApiError(ApiErrorCode.Unknown, "Failed to set method")
    case SetPath => MakeApiError(ApiErrorCode.Unknown, "Failed to set path")
    case SetScheme => MakeApiError(ApiErrorCode.Unknown, "Failed to set scheme")
    case SetAuthority => MakeApiError(ApiErrorCode.Unknown, "Failed to set authority")
    case SerializeBody(detail) => MakeApiError(BadRequest, "Failed to serialize body: " + detail)
    case OutgoingBody => MakeApiError(ApiErrorCode.Unknown, "Failed to get outgoing body")
    case RequestBodyStream => MakeApiError(ApiErrorCode.Unknown, "Failed to get body stream")
    case WriteBody => MakeApiError(ApiErrorCode.Unknown, "Failed to write body")
    case FinishBody => MakeApiError(ApiErrorCode.Unknown, "Failed to finish body")
    case SendRequest => MakeApiError(ApiErrorCode.Unknown, "Failed to send request")
    case NotCompleted => MakeApiError(ApiErrorCode.Unknown, "Request not completed")
    case RequestFailed => MakeApiError(ApiErrorCode.Unknown, "Request failed")
    case RequestError => MakeApiError(ApiErrorCode.Unknown, "Request error")
    case ResponseBody => MakeApiError(ApiErrorCode.Unknown, "Failed to get response body")
    case ResponseStream => MakeApiError(ApiErrorCode.Unknown, "Failed to get body stream")
  }

  // Host stages in the order both request functions attempt them.
  const SetupStages: seq<Stage> := [ContentTypeHeader, ApiKeyHeader, SetMethod, SetPath, SetScheme, SetAuthority]
  const BodyStages: seq<Stage> := [OutgoingBody, RequestBodyStream, WriteBody, FinishBody]
  const ExchangeStages: seq<Stage> := [SendRequest, NotCompleted, RequestFailed, RequestError]

  /** The position of the first stage among `stages` that fails, if any: the
      `?` after each stage returns at the first failure. */
  function FirstFailure(stages: seq<Stage>, fails: set<Stage>): (r: Option<nat>)
    ensures r.None? <==> forall i :: 0 <= i < |stages| ==> stages[i] !in fails
    ensures r.Some? ==> r.value < |stages| && stages[r.value] in fails
    ensures r.Some? ==> forall i :: 0 <= i < r.value ==> stages[i] !in fails
  {
    if stages == [] then None
    else if stages[0] in fails then Some(0)
    else match FirstFailure(stages[1..], fails)
      case None => None
      case Some(i) => Some(i + 1)
  }

  function FailureAmong(stages: seq<Stage>, fails: set<Stage>): Option<ApiError>
  {
    match FirstFailure(stages, fails)
    case None => None
    case Some(i) => Some(StageError(stages[i]))
  }

  /** The error of the request up to the arrival of the response, if any:
      the headers and request line, then serialising and writing the body
      when there is one, then sending and waiting. */
  function SendError(body: Option<Result<J.Json, string>>, fails: set<Stage>): Option<ApiError>
  {
    match FailureAmong(SetupStages, fails)
    case Some(e) => Some(e)
    case None =>
      match body
      case None => FailureAmong(ExchangeStages, fails)
      case Some(Err(detail)) => Some(StageError(SerializeBody(detail)))
      case Some(Ok(_)) => FailureAmong(BodyStages + ExchangeStages, fails)
  }

  /** A failing API-key header is reported as `Unauthorized` whenever the
      content-type header before it succeeded, whatever else fails later. */
  lemma ApiKeyFailureUnauthorized(body: Option<Result<J.Json, string>>, fails: set<Stage>)
    requires ContentTypeHeader !in fails && ApiKeyHeader in fails
    ensures SendError(body, fails) == Some(ApiError(Unauthorized, "Failed to set API key header"))
  {
    assert SetupStages[0] !in fails && SetupStages[1] in fails;
  }

  /** A body that cannot be serialised is reported as `BadRequest` when the
      header and request-line stages succeeded, before any body or send
      stage is attempted. */
  lemma SerializeFailureBadRequest(detail: string, fails: set<Stage>)
    requires forall i :: 0 <= i < |SetupStages| ==> SetupStages[i] !in fails
    ensures SendError(Some(Err(detail)), fails) == Some(ApiError(BadRequest, "Failed to serialize body: " + detail))
  {
  }

  /** Every failure before the response arrives has one of the three codes a
      stage can give, and a request without a body never fails with
      `BadRequest`. */
  lemma SendErrorCodes(body: Option<Result<J.Json, string>>, fails: set<Stage>)
    ensures var e := SendError(body, fails);
      e.Some? ==> e.value.code in {Unauthorized, BadRequest, ApiErrorCode.Unknown}
    ensures var e := SendError(body, fails);
      e.Some? && e.value.code == BadRequest ==> body.Some? && body.value.Err?
  {
  }

  // -------- status classification and error message --------

  /** The error code of a failing status. */
  function ClassifyStatus(status: u16): (code: ApiErrorCode)
    ensures code == BadRequest <==> status == 400
    ensures code == Unauthorized <==> status == 401
    ensures code == NotFound <==> status == 404
    ensures code == Validation <==> status == 422
    ensures code == TooManyRequests <==> status == 429
    ensures code == ApiErrorCode.Unknown <==> status !in {400, 401, 404, 422, 429}
  {
    match status
    case 401 => Unauthorized
    case 404 => NotFound
    case 429 => TooManyRequests
    case 400 => BadRequest
    case 422 => Validation
    case _ => ApiErrorCode.Unknown
  }

  /** `format!("HTTP {}", status)`. */
  function StatusText(status: u16): string
  {
    "HTTP " + Decimal(status)
  }

  /** The fallback message names the status, which can be read back from it. */
  lemma StatusTextReadsBack(status: u16)
    ensures var t := StatusText(status);
      && |t| > 5 && t[..5] == "HTTP "
      && (forall i :: 5 <= i < |t| ==> '0' <= t[i] <= '9')
      && DigitsValue(t[5..]) == status
  {
    var t := StatusText(status);
    assert t[5..] == Decimal(status);
    DecimalRoundTrip(status);
  }

  /** The value under the first of `detail`, `errorMessage`, `message` that
      the object has; a value that is not an object has none of them. */
  function MessageField(v: J.Json): (r: Option<J.Json>)
    ensures r.Some? ==> v.JObj? && r.value in v.fields.Values
  {
    if !v.JObj? then None
    else if J.Detail in v.fields then Some(v.fields[J.Detail])
    else if J.ErrorMessage in v.fields then Some(v.fields[J.ErrorMessage])
    else if J.Message in v.fields then Some(v.fields[J.Message])
    else None
  }

  /** The message of a failing response: the first message field when it is
      a string, else the status; the raw body when it is text but not JSON;
      the status when it is not UTF-8. */
  function ErrorMessage(status: u16, body: seq<byte>, p: Parsers): string
  {
    match p.utf8(body)
    case None => StatusText(status)
    case Some(text) =>
      match p.json(text)
      case None => text
      case Some(v) =>
        match MessageField(v)
        case Some(field) => if field.JStr? then field.s else StatusText(status)
        case None => StatusText(status)
  }

  /** The keys are tried in order and the first present one decides: when it
      does not hold a string, the message is the status even if a later key
      holds one. */
  lemma ErrorMessageFirstKeyDecides(status: u16, body: seq<byte>, p: Parsers, text: string, m: map<J.Key, J.Json>, k: J.Key)
    requires p.utf8(body) == Some(text) && p.json(text) == Some(J.JObj(m))
    requires k in [J.Detail, J.ErrorMessage, J.Message] && k in m
    requires k != J.Detail ==> J.Detail !in m
    requires k == J.Message ==> J.ErrorMessage !in m
    ensures ErrorMessage(status, body, p) == (if m[k].JStr? then m[k].s else StatusText(status))
  {
  }

  /** A JSON body that is not an object, or an object without any of the
      three keys, gives the status. */
  lemma ErrorMessageNoKey(status: u16, body: seq<byte>, p: Parsers, text: string, v: J.Json)
    requires p.utf8(body) == Some(text) && p.json(text) == Some(v)
    requires v.JObj? ==> J.Detail !in v.fields && J.ErrorMessage !in v.fields && J.Message !in v.fields
    ensures ErrorMessage(status, body, p) == StatusText(status)
  {
  }

  /** With a parser that classifies keys by spelling, the spelling of a
      named key always arrives as that key: in particular `detail`,
      `errorMessage` and `message` arrive as the keys `ErrorMessage` looks up,
      so an error object never hides its message under `Other`. */
  lemma SpellingsArriveNamed(p: Parsers, text: string, m: map<J.Key, J.Json>, n: J.Key)
    requires CanonicalParsers(p) && p.json(text) == Some(J.JObj(m)) && !n.Other?
    ensures J.Other(J.Spelling(n)) !in m
  {
    assert forall k :: k in m ==> J.CanonicalKey(k);
    J.NamedSpellingNotOther(n);
  }

  /** Text that is not JSON is the message verbatim; bytes that are not
      UTF-8 give the status. */
  lemma ErrorMessageFallbacks(status: u16, body: seq<byte>, p: Parsers)
    ensures p.utf8(body).None? ==> ErrorMessage(status, body, p) == StatusText(status)
    ensures p.utf8(body).Some? && p.json(p.utf8(body).value).None? ==>
      ErrorMessage(status, body, p) == p.utf8(body).value
  {
  }

  // -------- reading the response body --------

  /** A read that lets the loop go on: a non-empty chunk. */
  predicate Continues(r: StreamRead)
  {
    r.Chunk? && r.bytes != []
  }

  /** The outcome at position `i`; a stream with no more outcomes listed is closed. */
  function ReadAt(outcomes: seq<StreamRead>, i: nat): StreamRead
  {
    if i < |outcomes| then outcomes[i] else Closed
  }

  /** Where both read loops stop: the first read that is not a non-empty
      chunk (an empty chunk, `Closed`, or an error). */
  function StopIndex(outcomes: seq<StreamRead>): (k: nat)
    ensures k <= |outcomes|
    ensures forall i :: 0 <= i < k ==> Continues(outcomes[i])
    ensures k < |outcomes| ==> !Continues(outcomes[k])
  {
    if outcomes == [] || !Continues(outcomes[0]) then 0 else 1 + StopIndex(outcomes[1..])
  }

  /** The bytes of the chunks among `outcomes`, in order. */
  function Concat(outcomes: seq<StreamRead>): seq<byte>
  {
    if outcomes == [] then []
    else
      var last := outcomes[|outcomes| - 1];
      Concat(outcomes[..|outcomes| - 1]) + (if last.Chunk? then last.bytes else [])
  }

  const ReadFailure: ApiError := ApiError(ApiErrorCode.Unknown, "Failed to read response")

  /** What the loop of `make_request` yields: the chunks before the stop,
      unless the stop is a stream error. */
  function Buffered(outcomes: seq<StreamRead>): Result<seq<byte>, ApiError>
  {
    var k := StopIndex(outcomes);
    if ReadAt(outcomes, k).Failed? then Err(ReadFailure) else Ok(Concat(outcomes[..k]))
  }

  /** What the loop of `make_request_empty` keeps: the chunks before the
      stop, whatever the stop is. */
  function ErrorBodyBytes(outcomes: seq<StreamRead>): seq<byte>
  {
    Concat(outcomes[..StopIndex(outcomes)])
  }

  /** The response-read loop of `make_request`. */
  method ReadResponse(outcomes: seq<StreamRead>) returns (r: Result<seq<byte>, ApiError>)
    ensures r == Buffered(outcomes)
  {
    var responseBytes: seq<byte> := [];
    var i := 0;
    while true
      invariant i <= StopIndex(outcomes)
      invariant responseBytes == Concat(outcomes[..i])
      decreases |outcomes| - i
    {
      match ReadAt(outcomes, i) {
        case Chunk(chunk) =>
          if chunk == [] {
            break;
          }
          assert outcomes[..i + 1][..i] == outcomes[..i];
          responseBytes := responseBytes + chunk;
        case Closed =>
          break;
        case Failed =>
          return Err(ReadFailure);
      }
      i := i + 1;
    }
    r := Ok(responseBytes);
  }

  /** The error-body read loop of `make_request_empty`; it never fails. */
  method ReadErrorBody(outcomes: seq<StreamRead>) returns (responseBytes: seq<byte>)
    ensures responseBytes == ErrorBodyBytes(outcomes)
  {
    responseBytes := [];
    var i := 0;
    while true
      invariant i <= StopIndex(outcomes)
      invariant responseBytes == Concat(outcomes[..i])
      decreases |outcomes| - i
    {
      var read := ReadAt(outcomes, i);
      if !Continues(read) {
        break;
      }
      assert outcomes[..i + 1][..i] == outcomes[..i];
      responseBytes := responseBytes + read.bytes;
      i := i + 1;
    }
  }

  /** Concatenation splits at a front element. */
  lemma {:induction false} ConcatCons(r: StreamRead, rest: seq<StreamRead>)
    ensures Concat([r] + rest) == (if r.Chunk? then r.bytes else []) + Concat(rest)
    decreases |rest|
  {
    if rest != [] {
      var s := [r] + rest;
      assert s[..|s| - 1] == [r] + rest[..|rest| - 1];
      ConcatCons(r, rest[..|rest| - 1]);
    }
  }

  /** A leading non-empty chunk is the start of what the loop buffers, and
      the rest is buffered from the following outcomes. */
  lemma BufferedCons(chunk: seq<byte>, rest: seq<StreamRead>)
    requires chunk != []
    ensures Buffered([Chunk(chunk)] + rest) ==
      match Buffered(rest)
      case Ok(bytes) => Ok(chunk + bytes)
      case Err(e) => Err(e)
  {
    var s := [Chunk(chunk)] + rest;
    assert s[1..] == rest;
    var k := StopIndex(rest);
    assert s[..k + 1] == [Chunk(chunk)] + rest[..k];
    ConcatCons(Chunk(chunk), rest[..k]);
  }

  /** Nothing after the stop is read: any outcomes may follow it. */
  lemma {:induction false} BufferedIgnoresTail(outcomes: seq<StreamRead>, tail: seq<StreamRead>)
    requires StopIndex(outcomes) < |outcomes|
    ensures StopIndex(outcomes + tail) == StopIndex(outcomes)
    ensures Buffered(outcomes + tail) == Buffered(outcomes)
    ensures ErrorBodyBytes(outcomes + tail) == ErrorBodyBytes(outcomes)
  {
    var k := StopIndex(outcomes);
    StopIndexUnique(outcomes + tail, k);
    assert (outcomes + tail)[..k] == outcomes[..k];
  }

  /** `StopIndex` is the only position with its two properties. */
  lemma StopIndexUnique(outcomes: seq<StreamRead>, k: nat)
    requires k < |outcomes| && !Continues(outcomes[k])
    requires forall i :: 0 <= i < k ==> Continues(outcomes[i])
    ensures StopIndex(outcomes) == k
  {
  }

  /** Both loops gather the same bytes; they differ only in what a stream
      error means. */
  lemma LoopsAgree(outcomes: seq<StreamRead>)
    ensures Buffered(outcomes).Ok? ==> Buffered(outcomes).value == ErrorBodyBytes(outcomes)
    ensures Buffered(outcomes).Err? <==> ReadAt(outcomes, StopIndex(outcomes)) == Failed
  {
  }

  // -------- the two request functions --------

  /** The result of a response that is not a failure: the text must be UTF-8
      and must parse as the expected record. */
  function SuccessBody<T>(bytes: seq<byte>, p: Parsers, parse: string -> Result<T, string>): Result<T, ApiError>
  {
    match p.utf8(bytes)
    case None => Err(ApiError(ApiErrorCode.Unknown, "Invalid UTF-8 in response"))
    case Some(text) =>
      match parse(text)
      case Ok(v) => Ok(v)
      case Err(e) => Err(ApiError(ApiErrorCode.Unknown, "Failed to parse response: " + e))
  }

  /** The error of a response with a failing status. */
  function StatusError(status: u16, body: seq<byte>, p: Parsers): (e: ApiError)
    ensures e.code == ClassifyStatus(status)
  {
    MakeApiError(ClassifyStatus(status), ErrorMessage(status, body, p))
  }

  /** The outcome of `make_request`: the request stages, then the response
      body is opened and read in full, and only then is the status looked
      at. */
  function RequestOutcome<T>(req: Request, host: Host, p: Parsers, parse: string -> Result<T, string>): Result<T, ApiError>
  {
    match SendError(req.body, host.fails)
    case Some(e) => Err(e)
    case None =>
      if ResponseBody in host.fails then Err(StageError(ResponseBody))
      else if ResponseStream in host.fails then Err(StageError(ResponseStream))
      else
        match Buffered(host.outcomes)
        case Err(e) => Err(e)
        case Ok(bytes) =>
          if host.status >= 400 then Err(StatusError(host.status, bytes, p))
          else SuccessBody(bytes, p, parse)
  }

  /** The outcome of `make_request_empty`: the status is looked at first, and
      the body is read only for a failing status. */
  function EmptyRequestOutcome(req: Request, host: Host, p: Parsers): Result<(), ApiError>
  {
    match SendError(req.body, host.fails)
    case Some(e) => Err(e)
    case None =>
      if host.status >= 400 then
        if ResponseBody in host.fails then Err(StageError(ResponseBody))
        else if ResponseStream in host.fails then Err(StageError(ResponseStream))
        else Err(StatusError(host.status, ErrorBodyBytes(host.outcomes), p))
      else Ok(())
  }

  /** `make_request`. */
  method MakeRequest<T>(req: Request, host: Host, p: Parsers, parse: string -> Result<T, string>)
    returns (r: Result<T, ApiError>)
    ensures r == RequestOutcome(req, host, p, parse)
  {
    var sent := SendError(req.body, host.fails);
    if sent.Some? {
      return Err(sent.value);
    }
    if ResponseBody in host.fails {
      return Err(StageError(ResponseBody));
    }
    if ResponseStream in host.fails {
      return Err(StageError(ResponseStream));
    }
    var buffered := ReadResponse(host.outcomes);
    if buffered.Err? {
      return Err(buffered.error);
    }
    var responseBytes := buffered.value;
    if host.status >= 400 {
      return Err(StatusError(host.status, responseBytes, p));
    }
    r := SuccessBody(responseBytes, p, parse);
  }

  /** `make_request_empty`. */
  method MakeRequestEmpty(req: Request, host: Host, p: Parsers) returns (r: Result<(), ApiError>)
    ensures r == EmptyRequestOutcome(req, host, p)
  {
    var sent := SendError(req.body, host.fails);
    if sent.Some? {
      return Err(sent.value);
    }
    if host.status >= 400 {
      if ResponseBody in host.fails {
        return Err(StageError(ResponseBody));
      }
      if ResponseStream in host.fails {
        return Err(StageError(ResponseStream));
      }
      var responseBytes := ReadErrorBody(host.outcomes);
      return Err(StatusError(host.status, responseBytes, p));
    }
    r := Ok(());
  }

  /** A host on which no stage fails. */
  predicate Healthy(host: Host)
  {
    host.fails == {}
  }

  /** With every stage succeeding and a body stream that does not fail, the
      error path of `make_request` is taken exactly when the status is at
      least 400, with the code and message of the status and the body. */
  lemma ErrorPathIff<T>(req: Request, host: Host, p: Parsers, parse: string -> Result<T, string>)
    requires Healthy(host) && (req.body.Some? ==> req.body.value.Ok?)
    requires ReadAt(host.outcomes, StopIndex(host.outcomes)) != Failed
    ensures var r := RequestOutcome(req, host, p, parse);
      && (host.status >= 400 ==> r == Err(ApiError(ClassifyStatus(host.status), ErrorMessage(host.status, ErrorBodyBytes(host.outcomes), p))))
      && (host.status < 400 ==> r == SuccessBody(ErrorBodyBytes(host.outcomes), p, parse))
  {
    LoopsAgree(host.outcomes);
  }

  /** With every stage succeeding, a body stream that does not fail and a
      status below 400, `make_request` fails with "Invalid UTF-8 in
      response" when the body is not UTF-8, fails with "Failed to parse
      response: " and the parser's message when the text does not parse, and
      otherwise returns the parsed record. */
  lemma SuccessPathCases<T>(req: Request, host: Host, p: Parsers, parse: string -> Result<T, string>)
    requires Healthy(host) && (req.body.Some? ==> req.body.value.Ok?)
    requires ReadAt(host.outcomes, StopIndex(host.outcomes)) != Failed
    requires host.status < 400
    ensures var r := RequestOutcome(req, host, p, parse);
      var text := p.utf8(ErrorBodyBytes(host.outcomes));
      && (text.None? ==> r == Err(ApiError(ApiErrorCode.Unknown, "Invalid UTF-8 in response")))
      && (text.Some? && parse(text.value).Err? ==>
            r == Err(ApiError(ApiErrorCode.Unknown, "Failed to parse response: " + parse(text.value).error)))
      && (text.Some? && parse(text.value).Ok? ==> r == Ok(parse(text.value).value))
  {
    ErrorPathIff(req, host, p, parse);
  }

  /** A failing stream read makes `make_request` fail with "Failed to read
      response" whatever the status. */
  lemma ReadFailureWins<T>(req: Request, host: Host, p: Parsers, parse: string -> Result<T, string>)
    requires Healthy(host) && (req.body.Some? ==> req.body.value.Ok?)
    requires ReadAt(host.outcomes, StopIndex(host.outcomes)) == Failed
    ensures RequestOutcome(req, host, p, parse) == Err(ApiError(ApiErrorCode.Unknown, "Failed to read response"))
  {
  }

  /** `make_request_empty` succeeds for every status below 400 once the
      request is sent, without looking at the body: neither its stream nor a
      failure to open it matters. */
  lemma EmptySuccessIgnoresBody(req: Request, host: Host, p: Parsers, outcomes: seq<StreamRead>)
    requires SendError(req.body, host.fails).None? && host.status < 400
    ensures EmptyRequestOutcome(req, host, p) == Ok(())
    ensures EmptyRequestOutcome(req, host.(outcomes := outcomes, fails := host.fails + {ResponseBody, ResponseStream}), p) == Ok(())
  {
    SendErrorIgnoresResponseStages(req.body, host.fails);
  }

  /** Failures of the response stages do not affect the request stages. */
  lemma SendErrorIgnoresResponseStages(body: Option<Result<J.Json, string>>, fails: set<Stage>)
    ensures SendError(body, fails + {ResponseBody, ResponseStream}) == SendError(body, fails)
  {
    var extra := {ResponseBody, ResponseStream};
    FirstFailureIgnores(SetupStages, fails, extra);
    FirstFailureIgnores(ExchangeStages, fails, extra);
    FirstFailureIgnores(BodyStages + ExchangeStages, fails, extra);
  }

  lemma {:induction false} FirstFailureIgnores(stages: seq<Stage>, fails: set<Stage>, extra: set<Stage>)
    requires forall s :: s in extra ==> s !in stages
    ensures FirstFailure(stages, fails + extra) == FirstFailure(stages, fails)
  {
    if stages != [] {
      FirstFailureIgnores(stages[1..], fails, extra);
    }
  }

  /** The two request functions report a failing status alike: with the same
      host (no failing stage, a stream that does not fail) both return the
      same error, from the shared classification and message selection. */
  lemma CallSitesAgree<T>(req: Request, host: Host, p: Parsers, parse: string -> Result<T, string>)
    requires Healthy(host) && (req.body.Some? ==> req.body.value.Ok?)
    requires host.status >= 400 && ReadAt(host.outcomes, StopIndex(host.outcomes)) != Failed
    ensures RequestOutcome(req, host, p, parse).Err?
    ensures EmptyRequestOutcome(req, host, p) == Err(RequestOutcome(req, host, p, parse).error)
  {
    LoopsAgree(host.outcomes);
  }
}
