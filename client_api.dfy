/** src/lib/api.ts: how the client turns a server reply into a value or a thrown error.
    The `fetch` round trip is an input: a `Reply` says what `fetch` and `response.json()`
    produced. A 2xx body is taken to carry the fields the client declares for it. */
module ClientApi {
  import opened Wrappers
  import Http

  /** A value thrown at the client: an `Error` object with its message, or anything else. */
  datatype Thrown = ErrorValue(message: string) | OtherValue

  /** What one request produced at the client:
      - `TransportError`: `fetch` rejected or `response.json()` threw (a body that is not
        JSON, such as the plain-text 405 and 400 replies); both throw an `Error` with a message;
      - `Rejected`: a non-2xx reply with a JSON body whose `error` field may be absent;
      - `Accepted`: a 2xx reply with a JSON body. */
  datatype Reply<T> = TransportError(message: string) | Rejected(error: Option<string>) | Accepted(payload: T)

  /** The 2xx body of `/api/auth`. */
  datatype SessionBody = SessionBody(token: string, userLabel: string, expiresIn: int)

  /** The 2xx body of `/api/analyze`, with the server's snake_case names. */
  datatype ScoreBody = ScoreBody(ai_score: int, reasoning: string, is_duplicate: bool, model: string)

  /** `AuthResponse`. */
  datatype AuthResponse = AuthResponse(token: string, userLabel: string, expiresIn: int)

  /** `AnalysisResponse`. */
  datatype AnalysisResponse = AnalysisResponse(aiScore: int, reasoning: string, isDuplicate: bool, modelUsed: string)

  /** The JSON body `analyzeSubmission` posts: `JSON.stringify({ text, context, token, model })`.
      An undefined `model` is left out of the JSON. */
  datatype AnalyzeRequestBody = AnalyzeRequestBody(text: string, context: string, token: string, model: Option<string>)

  const AccessDenied := "Access Denied"
  const AnalysisFailed := "Analysis failed"
  const UnknownError := "An unknown system error occurred."

  /** `data.error || fallback`: an absent or empty `error` gives the fallback. */
  function ErrorText(error: Option<string>, fallback: string): (msg: string)
    ensures error.Some? && error.value != "" ==> msg == error.value
    ensures error.None? || error.value == "" ==> msg == fallback
  {
    if error.Some? && error.value != "" then error.value else fallback
  }

  /** `response.ok`: a 2xx status. */
  predicate Ok(status: int) {
    200 <= status < 300
  }

  /** What `fetch` and `response.json()` make of a reply of `/api/auth`: a plain-text body is
      not JSON, so `response.json()` throws a `SyntaxError` (its message is `parseError`); a
      JSON body is `Accepted` on a 2xx status and `Rejected` with its `error` field otherwise.
      The handler's 2xx replies always carry a session. */
  function SessionReply(resp: Http.Response, parseError: string): (r: Reply<SessionBody>)
    requires Ok(resp.status) ==> resp.body.SessionJson?
    ensures resp.body.PlainText? ==> r == TransportError(parseError)
    ensures !resp.body.PlainText? && Ok(resp.status) ==>
      r == Accepted(SessionBody(resp.body.token, resp.body.userLabel, resp.body.expiresIn))
    ensures !resp.body.PlainText? && !Ok(resp.status) ==>
      r == Rejected(if resp.body.ErrorJson? then Some(resp.body.error) else None)
  {
    match resp.body
    case PlainText(_) => TransportError(parseError)
    case ErrorJson(e) => Rejected(Some(e))
    case SessionJson(t, l, e) => if Ok(resp.status) then Accepted(SessionBody(t, l, e)) else Rejected(None)
    case ScoreJson(_, _, _, _) => Rejected(None)
    case UntypedScoreJson(_, _) => Rejected(None)
  }

  /** The same for a reply of `/api/analyze`, whose 2xx replies always carry a score. */
  function ScoreReply(resp: Http.Response, parseError: string): (r: Reply<ScoreBody>)
    requires Ok(resp.status) ==> resp.body.ScoreJson?
    ensures resp.body.PlainText? ==> r == TransportError(parseError)
    ensures !resp.body.PlainText? && Ok(resp.status) ==>
      r == Accepted(ScoreBody(resp.body.ai_score, resp.body.reasoning, resp.body.is_duplicate, resp.body.model))
    ensures !resp.body.PlainText? && !Ok(resp.status) ==>
      r == Rejected(if resp.body.ErrorJson? then Some(resp.body.error) else None)
  {
    match resp.body
    case PlainText(_) => TransportError(parseError)
    case ErrorJson(e) => Rejected(Some(e))
    case SessionJson(_, _, _) => Rejected(None)
    case ScoreJson(a, r, d, m) => if Ok(resp.status) then Accepted(ScoreBody(a, r, d, m)) else Rejected(None)
    case UntypedScoreJson(_, _) => Rejected(None)
  }

  /** `verifyPin` after the request: a non-2xx reply throws `data.error` or "Access Denied";
      a 2xx reply yields token, label and lifetime unchanged. */
  function VerifyPin(reply: Reply<SessionBody>): (r: Result<AuthResponse, Thrown>)
    ensures reply.TransportError? ==> r == Failure(ErrorValue(reply.message))
    ensures reply.Rejected? ==> r == Failure(ErrorValue(ErrorText(reply.error, AccessDenied)))
    ensures reply.Accepted? ==>
      && r.Success?
      && r.value.token == reply.payload.token
      && r.value.userLabel == reply.payload.userLabel
      && r.value.expiresIn == reply.payload.expiresIn
  {
    match reply
    case TransportError(m) => Failure(ErrorValue(m))
    case Rejected(e) => Failure(ErrorValue(ErrorText(e, AccessDenied)))
    case Accepted(data) => Success(AuthResponse(data.token, data.userLabel, data.expiresIn))
  }

  /** `analyzeSubmission` after the request: a non-2xx reply throws `data.error` or
      "Analysis failed"; a 2xx reply is renamed field by field
      (ai_score, reasoning, is_duplicate, model to aiScore, reasoning, isDuplicate, modelUsed). */
  function AnalyzeSubmission(reply: Reply<ScoreBody>): (r: Result<AnalysisResponse, Thrown>)
    ensures reply.TransportError? ==> r == Failure(ErrorValue(reply.message))
    ensures reply.Rejected? ==> r == Failure(ErrorValue(ErrorText(reply.error, AnalysisFailed)))
    ensures reply.Accepted? ==>
      && r.Success?
      && r.value.aiScore == reply.payload.ai_score
      && r.value.reasoning == reply.payload.reasoning
      && r.value.isDuplicate == reply.payload.is_duplicate
      && r.value.modelUsed == reply.payload.model
  {
    match reply
    case TransportError(m) => Failure(ErrorValue(m))
    case Rejected(e) => Failure(ErrorValue(ErrorText(e, AnalysisFailed)))
    case Accepted(data) => Success(AnalysisResponse(data.ai_score, data.reasoning, data.is_duplicate, data.model))
  }

  /** `getErrorMessage`: an `Error`'s message, or a fixed text for anything else. */
  function GetErrorMessage(error: Thrown): (msg: string)
    ensures error.ErrorValue? ==> msg == error.message
    ensures error.OtherValue? ==> msg == UnknownError
  {
    match error
    case ErrorValue(m) => m
    case OtherValue => UnknownError
  }

  /** A rejection from either endpoint never reaches the user as an empty message. */
  lemma RejectionMessageNonEmpty(error: Option<string>)
    ensures GetErrorMessage(VerifyPin(Rejected(error)).error) != ""
    ensures GetErrorMessage(AnalyzeSubmission(Rejected(error)).error) != ""
  {
  }
}
