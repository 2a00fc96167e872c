/** api/analyze.ts: the scoring endpoint. Everything the handler calls out to is an input
    (`Services`): token verification (HS256 JWT, RFC 7519), SHA-256 of the UTF-8 text, the
    health of the Postgres connection, the Gemini reply to a prompt and `JSON.parse`, a
    partial function. The log table is a sequence of rows passed in and returned; the
    handler also returns the trace of the calls it made, in order. */
module AnalyzeApi {
  import opened Wrappers
  import JsString
  import Crypto
  import Http

  const ModelName := "gemini-2.5-flash"
  const DefaultContext := "General Academic Assignment"
  const PromptLimit: nat := 5000
  const ParseFailureText := "Analysis failed to parse."

  /** The destructured JSON body `{ text, context, token }`; any other field (such as a
      `model` sent by the client) is ignored. */
  datatype AnalyzeBody = AnalyzeBody(text: string, context: Option<string>, token: string)

  /** The request: its method and its body, None when `req.json()` throws. */
  datatype AnalyzeRequest = AnalyzeRequest(httpMethod: string, body: Option<AnalyzeBody>)

  /** The parts of the prompt that depend on the request; the fixed wording around them is
      not modelled. */
  datatype Prompt = Prompt(context: string, excerpt: string)

  /** What the provider call gave: `fetch` or `geminiResponse.json()` threw, or a JSON reply
      in which `candidates[0].content.parts[0].text` is a string (Some) or cannot be read as
      one (None). */
  datatype GeminiReply = Unreachable | Replied(candidateText: Option<string>)

  /** `JSON.parse` as a partial function: it throws, yields `null`, yields an object with an
      integer `ai_score` and a string `reasoning`, or yields any other value (a number, a
      string, an array, an object missing either field or holding one of another type). */
  datatype ParsedJson = NotJson | JsonNull | JsonScore(aiScore: int, reasoning: string) | JsonOther

  /** The value of `let result` when the log insert runs: `null`, a score object, or another
      value whose `ai_score` and `reasoning` the handler reads and forwards as they are. */
  datatype ScoreValue = NullResult | Score(aiScore: int, reasoning: string) | Untyped

  const Fallback := Score(0, ParseFailureText)

  /** A row of `analysis_logs`. `UntypedLogRow` is a row whose `ai_score` is whatever a parsed
      value of another shape held there (`undefined`, a string, a fraction). */
  datatype LogRow =
    | LogRow(contentHash: string, aiScore: int, modelUsed: string)
    | UntypedLogRow(contentHash: string, modelUsed: string)

  datatype Effect =
    | Digest(input: string)
    | Connect
    | SelectByHash(hash: string)
    | CallProvider(prompt: Prompt)
    | InsertLog(row: LogRow)

  datatype Services = Services(
    verifyToken: string -> bool,
    sha256: string -> seq<Crypto.Byte>,
    dbConnects: bool,
    insertSucceeds: bool,
    gemini: Prompt -> GeminiReply,
    jsonParse: string -> ParsedJson)

  /** `context || 'General Academic Assignment'`. */
  function PromptContext(context: Option<string>): (c: string)
    ensures c != ""
    ensures context.Some? && context.value != "" ==> c == context.value
  {
    if context.Some? && context.value != "" then context.value else DefaultContext
  }

  /** `text.substring(0, 5000)`: only this prefix reaches the provider. */
  function Excerpt(text: string): (e: string)
    ensures |e| <= PromptLimit && |e| <= |text|
    ensures e == text[..|e|]
    ensures |text| <= PromptLimit ==> e == text
  {
    JsString.Prefix(text, PromptLimit)
  }

  function PromptFor(text: string, context: Option<string>): Prompt {
    Prompt(PromptContext(context), Excerpt(text))
  }

  /** Texts that agree on their first 5000 characters produce the same prompt, yet the digest
      is taken of the whole text, so the content hashes may still tell them apart. */
  lemma PromptSeesOnlyPrefix(a: string, b: string, context: Option<string>)
    requires |a| >= PromptLimit && |b| >= PromptLimit && a[..PromptLimit] == b[..PromptLimit]
    ensures PromptFor(a, context) == PromptFor(b, context)
  {
  }

  /** The string starts with three backticks. */
  predicate StartsWithFence(s: string) {
    |s| >= 3 && s[0] == '`' && s[1] == '`' && s[2] == '`'
  }

  /** The string starts with "```json". */
  predicate StartsWithJsonFence(s: string) {
    StartsWithFence(s) && |s| >= 7 && s[3] == 'j' && s[4] == 's' && s[5] == 'o' && s[6] == 'n'
  }

  /** `rawText.replace(/```json|```/g, '')`: scanning left to right, "```json" is tried
      before a bare "```", and every match is removed. */
  function RemoveFences(s: string): string {
    if StartsWithJsonFence(s) then RemoveFences(s[7..])
    else if StartsWithFence(s) then RemoveFences(s[3..])
    else if s == [] then []
    else [s[0]] + RemoveFences(s[1..])
  }

  predicate HasTripleBacktick(s: string) {
    exists i | 0 <= i <= |s| - 3 :: s[i] == '`' && s[i + 1] == '`' && s[i + 2] == '`'
  }

  /** A string that starts with neither fence keeps its first character, and the output
      cannot start with three backticks: that would need the input to start with a fence. */
  lemma RemoveFencesHead(s: string)
    requires s != [] && !StartsWithFence(s)
    ensures RemoveFences(s) == [s[0]] + RemoveFences(s[1..])
    ensures |RemoveFences(s)| < 3 || !StartsWithFence(RemoveFences(s))
  {
    var o := RemoveFences(s);
    var s1 := s[1..];
    if s[0] == '`' && s1 != [] {
      assert !StartsWithFence(s1);
      var tail := RemoveFences(s1);
      if s1[0] == '`' {
        var s2 := s1[1..];
        assert !StartsWithFence(s2);
        assert tail == [s1[0]] + RemoveFences(s2);
        assert s2 == [] || s2[0] != '`';
        assert s2 != [] ==> RemoveFences(s2)[0] == s2[0];
      } else {
        assert tail[0] == s1[0];
      }
    }
  }

  /** After the replacement no three backticks in a row are left. */
  lemma {:induction false} RemoveFencesLeavesNoFence(s: string)
    ensures !HasTripleBacktick(RemoveFences(s))
  {
    if StartsWithJsonFence(s) {
      RemoveFencesLeavesNoFence(s[7..]);
    } else if StartsWithFence(s) {
      RemoveFencesLeavesNoFence(s[3..]);
    } else if s != [] {
      var tail := RemoveFences(s[1..]);
      var o := RemoveFences(s);
      RemoveFencesHead(s);
      RemoveFencesLeavesNoFence(s[1..]);
      forall i | 0 <= i <= |o| - 3
        ensures !(o[i] == '`' && o[i + 1] == '`' && o[i + 2] == '`')
      {
        if i > 0 {
          assert o[i] == tail[i - 1] && o[i + 1] == tail[i] && o[i + 2] == tail[i + 1];
        } else {
          assert !StartsWithFence(o);
        }
      }
    }
  }

  /** Text without backticks passes the replacement unchanged. */
  lemma {:induction false} RemoveFencesPlain(s: string)
    requires forall i | 0 <= i < |s| :: s[i] != '`'
    ensures RemoveFences(s) == s
  {
    if s != [] {
      RemoveFencesPlain(s[1..]);
    }
  }

  /** A fence-free text followed by a closing fence loses exactly the fence. */
  lemma {:induction false} RemoveFencesClosing(s: string)
    requires forall i | 0 <= i < |s| :: s[i] != '`'
    ensures RemoveFences(s + "```") == s
  {
    if s == [] {
      assert s + "```" == "```";
      assert "```"[3..] == [];
    } else {
      var t := s + "```";
      assert t[1..] == s[1..] + "```";
      RemoveFencesClosing(s[1..]);
    }
  }

  /** `rawText.replace(/```json|```/g, '').trim()`: the string handed to `JSON.parse`. */
  function StripFences(raw: string): (j: string)
    ensures |j| <= |raw|
    ensures j != [] ==> !JsString.IsWhiteSpace(j[0]) && !JsString.IsWhiteSpace(j[|j| - 1])
  {
    RemoveFencesShorter(raw);
    JsString.Trim(RemoveFences(raw))
  }

  lemma {:induction false} RemoveFencesShorter(s: string)
    ensures |RemoveFences(s)| <= |s|
  {
    if StartsWithJsonFence(s) {
      RemoveFencesShorter(s[7..]);
    } else if StartsWithFence(s) {
      RemoveFencesShorter(s[3..]);
    } else if s != [] {
      RemoveFencesShorter(s[1..]);
    }
  }

  /** What `JSON.parse` receives never contains a code fence: the replacement leaves none,
      and `trim` only cuts a prefix and then a suffix away. */
  lemma StrippedHasNoFence(raw: string)
    ensures !HasTripleBacktick(StripFences(raw))
  {
    var o := RemoveFences(raw);
    RemoveFencesLeavesNoFence(raw);
    var t := JsString.TrimStart(o);
    SuffixHasNoFence(o, |o| - |t|);
    var j := JsString.TrimEnd(t);
    PrefixHasNoFence(t, |j|);
  }

  /** A suffix of a text without three backticks in a row has none either. */
  lemma SuffixHasNoFence(o: string, lo: nat)
    requires lo <= |o| && !HasTripleBacktick(o)
    ensures !HasTripleBacktick(o[lo..])
  {
    var j := o[lo..];
    forall i | 0 <= i <= |j| - 3
      ensures !(j[i] == '`' && j[i + 1] == '`' && j[i + 2] == '`')
    {
      assert j[i] == o[lo + i] && j[i + 1] == o[lo + i + 1] && j[i + 2] == o[lo + i + 2];
    }
  }

  /** A prefix of a text without three backticks in a row has none either. */
  lemma PrefixHasNoFence(o: string, hi: nat)
    requires hi <= |o| && !HasTripleBacktick(o)
    ensures !HasTripleBacktick(o[..hi])
  {
    var j := o[..hi];
    forall i | 0 <= i <= |j| - 3
      ensures !(j[i] == '`' && j[i + 1] == '`' && j[i + 2] == '`')
    {
      assert j[i] == o[i] && j[i + 1] == o[i + 1] && j[i + 2] == o[i + 2];
    }
  }

  /** A reply wrapped as a fenced JSON block is unwrapped to its trimmed body. */
  lemma FencedBlock(body: string)
    requires forall i | 0 <= i < |body| :: body[i] != '`'
    ensures StripFences("```json" + body + "```") == JsString.Trim(body)
  {
    var s := "```json" + body + "```";
    assert StartsWithJsonFence(s);
    assert s[7..] == body + "```";
    RemoveFencesClosing(body);
  }

  /** Lines 62-70: start from the fixed fallback and replace it by what `JSON.parse` yields;
      a missing candidate text or a parse error leaves the fallback. */
  function ParseCandidate(candidate: Option<string>, jsonParse: string -> ParsedJson): (v: ScoreValue)
    ensures candidate.None? ==> v == Fallback
    ensures candidate.Some? && jsonParse(StripFences(candidate.value)).NotJson? ==> v == Fallback
    ensures v.NullResult? <==> candidate.Some? && jsonParse(StripFences(candidate.value)).JsonNull?
    ensures candidate.Some? && jsonParse(StripFences(candidate.value)).JsonScore? ==>
      v == Score(jsonParse(StripFences(candidate.value)).aiScore, jsonParse(StripFences(candidate.value)).reasoning)
    ensures v.Untyped? <==> candidate.Some? && jsonParse(StripFences(candidate.value)).JsonOther?
  {
    match candidate
    case None => Fallback
    case Some(raw) =>
      match jsonParse(StripFences(raw))
      case NotJson => Fallback
      case JsonNull => NullResult
      case JsonScore(score, reasoning) => Score(score, reasoning)
      case JsonOther => Untyped
  }

  /** The row lines 74-77 insert for a non-null `result`: the content hash, its `ai_score`
      and the fixed model name. */
  function RowFor(h: string, score: ScoreValue): (row: LogRow)
    requires !score.NullResult?
    ensures row.contentHash == h && row.modelUsed == ModelName
    ensures score.Score? <==> row.LogRow?
    ensures score.Score? ==> row.aiScore == score.aiScore
  {
    if score.Score? then LogRow(h, score.aiScore, ModelName) else UntypedLogRow(h, ModelName)
  }

  /** The 200 body of lines 79-83 for a non-null `result`. */
  function BodyFor(score: ScoreValue, duplicate: bool): (b: Http.Body)
    requires !score.NullResult?
    ensures (b.ScoreJson? || b.UntypedScoreJson?) && b.is_duplicate == duplicate && b.model == ModelName
    ensures score.Score? <==> b.ScoreJson?
    ensures score.Score? ==> b.ai_score == score.aiScore && b.reasoning == score.reasoning
  {
    if score.Score? then Http.ScoreJson(score.aiScore, score.reasoning, duplicate, ModelName)
    else Http.UntypedScoreJson(duplicate, ModelName)
  }

  /** `SELECT ... WHERE content_hash = h LIMIT 1` found a row. */
  predicate HashLogged(logs: seq<LogRow>, h: string) {
    exists i | 0 <= i < |logs| :: logs[i].contentHash == h
  }

  /** The content hash, over the whole text (not only the prompt's excerpt). */
  function ContentHash(svc: Services, text: string): string {
    Crypto.HashText(svc.sha256, text)
  }

  /** Every step after the method check succeeds for this body: the token verifies, the
      database answers, the provider replies, its text does not parse to `null` and the log
      row is written. */
  predicate Scored(svc: Services, body: AnalyzeBody) {
    && svc.verifyToken(body.token)
    && svc.dbConnects
    && svc.gemini(PromptFor(body.text, body.context)).Replied?
    && !ParseCandidate(svc.gemini(PromptFor(body.text, body.context)).candidateText, svc.jsonParse).NullResult?
    && svc.insertSucceeds
  }

  /** The provider's reply to this prompt, when there is one, does not parse to a value of
      another shape than a score object or `null`. */
  predicate TypedVerdict(svc: Services, text: string, context: Option<string>) {
    var reply := svc.gemini(PromptFor(text, context));
    reply.Replied? ==> !ParseCandidate(reply.candidateText, svc.jsonParse).Untyped?
  }

  /** A reply whose text is missing or is not JSON still gets its log row and a 200: the
      fallback verdict is scored like any other. */
  lemma FallbackStillLogged(svc: Services, body: AnalyzeBody)
    requires svc.verifyToken(body.token) && svc.dbConnects && svc.insertSucceeds
    requires svc.gemini(PromptFor(body.text, body.context)).Replied?
    requires var candidate := svc.gemini(PromptFor(body.text, body.context)).candidateText;
      candidate.None? || svc.jsonParse(StripFences(candidate.value)).NotJson?
    ensures Scored(svc, body)
    ensures ParseCandidate(svc.gemini(PromptFor(body.text, body.context)).candidateText, svc.jsonParse) == Fallback
  {
  }

  const Failed := Http.Response(500, Http.ErrorJson("Analysis Failed"))

  /** Lines 22-87, for a body whose token verified: hashing, the duplicate lookup, the
      provider call, parsing with its fallback, the log insert and 200; any failure on the
      way is a 500 with nothing logged. */
  method Process(body: AnalyzeBody, svc: Services, logs: seq<LogRow>)
    returns (resp: Http.Response, logsAfter: seq<LogRow>, trace: seq<Effect>)
    requires svc.verifyToken(body.token)
    ensures resp.status == 200 || resp == Failed
    ensures |trace| >= 2 && trace[..2] == [Digest(body.text), Connect]
    ensures resp.status != 200 ==> logsAfter == logs
    ensures resp.status == 200 <==> Scored(svc, body)
    ensures resp.status == 200 ==>
      var h := ContentHash(svc, body.text);
      var prompt := PromptFor(body.text, body.context);
      var score := ParseCandidate(svc.gemini(prompt).candidateText, svc.jsonParse);
      var row := RowFor(h, score);
      && trace == [Digest(body.text), Connect, SelectByHash(h), CallProvider(prompt), InsertLog(row)]
      && logsAfter == logs + [row]
      && resp.body == BodyFor(score, HashLogged(logs, h))
  {
    logsAfter := logs;
    // 2. the content hash and the duplicate lookup
    trace := [Digest(body.text), Connect];
    var contentHash := ContentHash(svc, body.text);
    if !svc.dbConnects {
      assert !Scored(svc, body);
      return Failed, logsAfter, trace;
    }
    trace := trace + [SelectByHash(contentHash)];
    var existing := HashLogged(logs, contentHash);
    // 3. the provider
    var prompt := PromptFor(body.text, body.context);
    trace := trace + [CallProvider(prompt)];
    var reply := svc.gemini(prompt);
    if reply.Unreachable? {
      assert !Scored(svc, body);
      return Failed, logsAfter, trace;
    }
    var result := ParseCandidate(reply.candidateText, svc.jsonParse);
    // 4. the log row; reading `result.ai_score` of null throws before the insert
    if result.NullResult? {
      assert !Scored(svc, body);
      return Failed, logsAfter, trace;
    }
    var row := RowFor(contentHash, result);
    trace := trace + [InsertLog(row)];
    if !svc.insertSucceeds {
      assert !Scored(svc, body);
      return Failed, logsAfter, trace;
    }
    assert Scored(svc, body);
    logsAfter := logs + [row];
    resp := Http.Response(200, BodyFor(result, existing));
  }

  /** The handler. Decisions come in this order: 405 for a non-POST request, 500 for an
      unreadable body, 401 for a token that fails verification (before any hashing, database
      or provider work), then the steps of `Process`. */
  method Handle(req: AnalyzeRequest, svc: Services, logs: seq<LogRow>)
    returns (resp: Http.Response, logsAfter: seq<LogRow>, trace: seq<Effect>)
    ensures resp.status in {200, 401, 405, 500}
    ensures req.httpMethod != "POST" ==> resp == Http.MethodNotAllowed && trace == []
    ensures req.httpMethod == "POST" && req.body.None? ==> resp == Failed && trace == []
    ensures req.httpMethod == "POST" && req.body.Some? && !svc.verifyToken(req.body.value.token) ==>
      resp == Http.Response(401, Http.ErrorJson("Session Expired")) && trace == []
    ensures req.httpMethod == "POST" && req.body.Some? && svc.verifyToken(req.body.value.token) ==>
      (resp.status == 200 || resp == Failed) && |trace| >= 2 && trace[..2] == [Digest(req.body.value.text), Connect]
    ensures resp.status != 200 ==> logsAfter == logs
    ensures resp.status == 500 ==> resp == Failed
    ensures resp.status == 200 <==> req.httpMethod == "POST" && req.body.Some? && Scored(svc, req.body.value)
    ensures resp.status == 200 ==>
      var body := req.body.value;
      var h := ContentHash(svc, body.text);
      var prompt := PromptFor(body.text, body.context);
      var score := ParseCandidate(svc.gemini(prompt).candidateText, svc.jsonParse);
      var row := RowFor(h, score);
      && trace == [Digest(body.text), Connect, SelectByHash(h), CallProvider(prompt), InsertLog(row)]
      && logsAfter == logs + [row]
      && resp.body == BodyFor(score, HashLogged(logs, h))
  {
    logsAfter := logs;
    trace := [];
    if req.httpMethod != "POST" {
      return Http.MethodNotAllowed, logsAfter, trace;
    }
    if req.body.None? {
      return Failed, logsAfter, trace;
    }
    // 1. the session token
    if !svc.verifyToken(req.body.value.token) {
      return Http.Response(401, Http.ErrorJson("Session Expired")), logsAfter, trace;
    }
    resp, logsAfter, trace := Process(req.body.value, svc, logs);
  }

  /** Submitting the same text twice: when both requests are scored, the second finds the
      row the first one wrote. The two requests may meet a different token check, provider
      reply and database; only the digest function is the same. */
  method SameTextTwice(req: AnalyzeRequest, svc1: Services, svc2: Services, logs: seq<LogRow>)
    returns (first: Http.Response, second: Http.Response)
    requires svc2.sha256 == svc1.sha256
    ensures first.status == 200 && req.body.Some? ==>
      (first.body.ScoreJson? || first.body.UntypedScoreJson?) &&
      first.body.is_duplicate == HashLogged(logs, ContentHash(svc1, req.body.value.text))
    ensures first.status == 200 && second.status == 200 ==>
      (second.body.ScoreJson? || second.body.UntypedScoreJson?) && second.body.is_duplicate
  {
    var logs1, logs2, trace1, trace2;
    first, logs1, trace1 := Handle(req, svc1, logs);
    second, logs2, trace2 := Handle(req, svc2, logs1);
    if first.status == 200 {
      var h := ContentHash(svc1, req.body.value.text);
      assert logs1[|logs|].contentHash == h;
      assert ContentHash(svc2, req.body.value.text) == h;
    }
  }
}
