/** src/components/analysis/SubmissionCard.tsx: one entry of the workspace. The card's React
    state is the fields of `SubmissionCard`; the stores are `DataStore.DataState` and the
    session token of the auth store. The reply of `/api/analyze` and the ISO timestamp taken
    after it are inputs. Toasts are returned as values. */
module SubmissionCard {
  import opened Wrappers
  import opened Types
  import opened DataStore
  import JsString
  import ClientApi
  import ScoreMeter
  import AnalyzeApi
  import Http

  datatype ToastKind = ToastError | ToastSuccess

  /** A `toast.error` or `toast.success` with its title and description. */
  datatype Toast = Toast(kind: ToastKind, title: string, description: string)

  const SessionExpired := Toast(ToastError, "Session Expired", "Please re-authenticate.")
  const EmptySubmission := Toast(ToastError, "Empty Submission", "Please paste student text first.")

  /** `!sessionToken`: no token, or the empty string. */
  predicate NoSession(sessionToken: Option<string>) {
    sessionToken.None? || sessionToken.value == ""
  }

  /** `{ ...result, timestamp }`. */
  function Stamped(resp: ClientApi.AnalysisResponse, timestamp: string): (r: AnalysisResult)
    ensures r.aiScore == resp.aiScore && r.reasoning == resp.reasoning
    ensures r.isDuplicate == resp.isDuplicate && r.modelUsed == resp.modelUsed
    ensures r.timestamp == timestamp
  {
    AnalysisResult(resp.aiScore, resp.reasoning, resp.isDuplicate, resp.modelUsed, timestamp)
  }

  /** What the list becomes once `analyzeSubmission` settles: the result on success, the
      `error` status with the thrown message on failure. */
  function Settle(subs: seq<Submission>, id: string, outcome: Result<ClientApi.AnalysisResponse, ClientApi.Thrown>, timestamp: string): seq<Submission> {
    if outcome.Success? then SetResultById(subs, id, Stamped(outcome.value, timestamp))
    else SetStatusById(subs, id, Error, Some(ClientApi.GetErrorMessage(outcome.error)))
  }

  /** Entry by entry, an analysis ends with the verdict stamped on every entry with the id,
      or with `error` and the thrown message; the list keeps its length. */
  lemma SettleEntries(subs: seq<Submission>, id: string, outcome: Result<ClientApi.AnalysisResponse, ClientApi.Thrown>, timestamp: string)
    ensures |Settle(SetStatusById(subs, id, Analyzing, None), id, outcome, timestamp)| == |subs|
    ensures outcome.Success? ==>
      var r := Settle(SetStatusById(subs, id, Analyzing, None), id, outcome, timestamp);
      forall i | 0 <= i < |subs| && subs[i].id == id ::
        r[i].status == Done && r[i].result == Some(Stamped(outcome.value, timestamp)) && r[i].errorMessage == None
    ensures outcome.Failure? ==>
      var r := Settle(SetStatusById(subs, id, Analyzing, None), id, outcome, timestamp);
      forall i | 0 <= i < |subs| && subs[i].id == id ::
        r[i].status == Error && r[i].errorMessage == Some(ClientApi.GetErrorMessage(outcome.error))
  {
  }

  /** The toast once `analyzeSubmission` settles. */
  function SettleToast(outcome: Result<ClientApi.AnalysisResponse, ClientApi.Thrown>): (t: Toast)
    ensures outcome.Success? ==>
      && t.kind == ToastSuccess && t.title == "Analysis Complete"
      && t.description == "Score: " + ScoreMeter.Label(outcome.value.aiScore)
    ensures outcome.Failure? ==>
      && t.kind == ToastError && t.title == "Analysis Failed"
      && t.description == ClientApi.GetErrorMessage(outcome.error)
  {
    if outcome.Success? then Toast(ToastSuccess, "Analysis Complete", "Score: " + ScoreMeter.Label(outcome.value.aiScore))
    else Toast(ToastError, "Analysis Failed", ClientApi.GetErrorMessage(outcome.error))
  }

  /** The patch `handleSave` applies: new text and name, back to `idle`, result cleared. The
      error message is not part of it. */
  function SavePatch(content: string, name: string): (p: SubmissionPatch)
    ensures p.content == Some(content) && p.studentName == Some(name)
    ensures p.status == Some(Idle) && p.result == Some(None)
    ensures p.errorMessage == None && p.id == None && p.lastUpdated == None
  {
    SubmissionPatch(None, Some(name), Some(content), Some(Idle), Some(None), None, None)
  }

  /** The "Analyze This Submission" button: shown for an idle entry outside editing. */
  predicate OffersAnalyze(isEditing: bool, sub: Submission) {
    !isEditing && sub.status == Idle
  }

  /** The error panel with its "Retry" button. */
  predicate OffersRetry(isEditing: bool, sub: Submission) {
    !isEditing && sub.status == Error
  }

  /** The result panel (score meter, model, reasoning) and the verdict badge. */
  predicate ShowsResult(isEditing: bool, sub: Submission) {
    !isEditing && sub.status == Done && sub.result.Some?
  }

  /** The badge: above 50 reads as machine-written. */
  function BadgeText(score: int): (t: string)
    ensures t == "AI Detected" <==> score > 50
    ensures t == "Human Likely" <==> score <= 50
  {
    if score > 50 then "AI Detected" else "Human Likely"
  }

  /** The read-only text: the content, or a placeholder when it is empty. */
  function ShownContent(content: string): (t: string)
    ensures content != "" ==> t == content
    ensures t != ""
  {
    if content == "" then "No content provided." else content
  }

  /** At most one action panel shows at a time, none while editing, and analysis is offered
      only for entries that are not `done`; for a settled entry the result shows exactly when
      it is `done`. */
  lemma PanelsExclusive(isEditing: bool, sub: Submission)
    ensures !(OffersAnalyze(isEditing, sub) && OffersRetry(isEditing, sub))
    ensures !(OffersAnalyze(isEditing, sub) && ShowsResult(isEditing, sub))
    ensures !(OffersRetry(isEditing, sub) && ShowsResult(isEditing, sub))
    ensures isEditing ==> !OffersAnalyze(isEditing, sub) && !OffersRetry(isEditing, sub) && !ShowsResult(isEditing, sub)
    ensures OffersAnalyze(isEditing, sub) || OffersRetry(isEditing, sub) ==> sub.status != Done
    ensures Settled(sub) ==> (ShowsResult(isEditing, sub) <==> !isEditing && sub.status == Done)
  {
  }

  /** The badge and the score meter agree: "AI Detected" is never green, and a red meter
      always reads "AI Detected". */
  lemma BadgeAgreesWithMeter(score: int)
    ensures BadgeText(score) == "AI Detected" ==> ScoreMeter.ColorClass(score) != ScoreMeter.Emerald
    ensures ScoreMeter.ColorClass(score) == ScoreMeter.Rose ==> BadgeText(score) == "AI Detected"
    ensures ScoreMeter.ColorClass(score) == ScoreMeter.Emerald ==> BadgeText(score) == "Human Likely"
  {
  }

  /** Analysing an entry that is not `done` (the only ones the card offers it for) keeps
      every entry settled, whatever the server answers. */
  lemma AnalyzeKeepsSettled(subs: seq<Submission>, id: string, outcome: Result<ClientApi.AnalysisResponse, ClientApi.Thrown>, timestamp: string)
    requires AllSettled(subs)
    requires forall i | 0 <= i < |subs| && subs[i].id == id :: subs[i].status != Done
    ensures AllSettled(Settle(SetStatusById(subs, id, Analyzing, None), id, outcome, timestamp))
  {
    SetStatusKeepsSettled(subs, id, Analyzing, None);
    var mid := SetStatusById(subs, id, Analyzing, None);
    if outcome.Success? {
      SetResultKeepsSettled(mid, id, Stamped(outcome.value, timestamp));
    } else {
      SetStatusKeepsSettled(mid, id, Error, Some(ClientApi.GetErrorMessage(outcome.error)));
    }
  }

  /** Saving keeps every entry settled. */
  lemma SaveKeepsSettled(subs: seq<Submission>, id: string, content: string, name: string, now: int)
    requires AllSettled(subs)
    ensures AllSettled(UpdateById(subs, id, SavePatch(content, name), now))
  {
    UpdateKeepsSettled(subs, id, SavePatch(content, name), now);
  }

  /** `analyzeSubmission` against the handler: a POST of `body` to `/api/analyze`, its
      response read by `analyzeSubmission`. A token that fails verification throws
      "Session Expired", any other failure "Analysis Failed", and a scored text resolves to
      the provider's verdict with the duplicate flag of the log lookup. */
  method AskServer(body: AnalyzeApi.AnalyzeBody, svc: AnalyzeApi.Services, logs: seq<AnalyzeApi.LogRow>, parseError: string)
    returns (reply: ClientApi.Reply<ClientApi.ScoreBody>, logsAfter: seq<AnalyzeApi.LogRow>)
    requires AnalyzeApi.TypedVerdict(svc, body.text, body.context)
    ensures !svc.verifyToken(body.token) ==>
      ClientApi.AnalyzeSubmission(reply) == Failure(ClientApi.ErrorValue("Session Expired")) && logsAfter == logs
    ensures svc.verifyToken(body.token) && !AnalyzeApi.Scored(svc, body) ==>
      ClientApi.AnalyzeSubmission(reply) == Failure(ClientApi.ErrorValue("Analysis Failed")) && logsAfter == logs
    ensures AnalyzeApi.Scored(svc, body) ==>
      var h := AnalyzeApi.ContentHash(svc, body.text);
      var prompt := AnalyzeApi.PromptFor(body.text, body.context);
      var score := AnalyzeApi.ParseCandidate(svc.gemini(prompt).candidateText, svc.jsonParse);
      && ClientApi.AnalyzeSubmission(reply)
         == Success(ClientApi.AnalysisResponse(score.aiScore, score.reasoning, AnalyzeApi.HashLogged(logs, h), AnalyzeApi.ModelName))
      && logsAfter == logs + [AnalyzeApi.LogRow(h, score.aiScore, AnalyzeApi.ModelName)]
  {
    var resp, trace;
    resp, logsAfter, trace := AnalyzeApi.Handle(AnalyzeApi.AnalyzeRequest("POST", Some(body)), svc, logs);
    reply := ClientApi.ScoreReply(resp, parseError);
    if !svc.verifyToken(body.token) {
      assert resp == Http.Response(401, Http.ErrorJson("Session Expired"));
    } else if !AnalyzeApi.Scored(svc, body) {
      assert resp == AnalyzeApi.Failed;
    } else {
      assert resp.status == 200 && ClientApi.Ok(resp.status);
    }
  }

  class SubmissionCard {
    const id: string
    var isEditing: bool
    var localContent: string
    var localName: string

    /** A card opens in edit mode exactly when its entry has no text yet. */
    constructor (sub: Submission)
      ensures id == sub.id
      ensures isEditing <==> sub.content == ""
      ensures localContent == sub.content && localName == sub.studentName
    {
      id := sub.id;
      isEditing := |sub.content| == 0;
      localContent := sub.content;
      localName := sub.studentName;
    }

    /** The effect on `submission.content`: the local text follows the stored text when it
        changes, discarding unsaved edits. */
    method SyncContent(content: string)
      modifies this
      ensures localContent == content
      ensures isEditing == old(isEditing) && localName == old(localName)
    {
      localContent := content;
    }

    method EditContent(value: string)
      modifies this
      ensures localContent == value
      ensures isEditing == old(isEditing) && localName == old(localName)
    {
      localContent := value;
    }

    method EditName(value: string)
      modifies this
      ensures localName == value
      ensures isEditing == old(isEditing) && localContent == old(localContent)
    {
      localName := value;
    }

    method StartEdit()
      modifies this
      ensures isEditing
      ensures localContent == old(localContent) && localName == old(localName)
    {
      isEditing := true;
    }

    /** The cancel button leaves edit mode but keeps the local text and name as typed. */
    method CancelEdit()
      modifies this
      ensures !isEditing
      ensures localContent == old(localContent) && localName == old(localName)
    {
      isEditing := false;
    }

    /** The delete button: every entry with this card's id leaves the list. */
    method Delete(data: DataState)
      modifies data
      ensures data.submissions == RemoveById(old(data.submissions), id)
      ensures forall i | 0 <= i < |data.submissions| :: data.submissions[i].id != id
      ensures data.assignmentContext == old(data.assignmentContext)
      ensures data.isGlobalAnalyzing == old(data.isGlobalAnalyzing)
    {
      data.RemoveSubmission(id);
    }

    /** `handleSave`: the local text and name become the entry's, which goes back to `idle`
        without a result (its error message stays); edit mode ends. */
    method HandleSave(data: DataState, now: int)
      modifies this, data
      ensures data.submissions == UpdateById(old(data.submissions), id, SavePatch(localContent, localName), now)
      ensures forall i | 0 <= i < |data.submissions| && old(data.submissions)[i].id == id ::
        && data.submissions[i].content == localContent && data.submissions[i].studentName == localName
        && data.submissions[i].status == Idle && data.submissions[i].result == None
        && data.submissions[i].errorMessage == old(data.submissions)[i].errorMessage
      ensures !isEditing
      ensures localContent == old(localContent) && localName == old(localName)
      ensures data.assignmentContext == old(data.assignmentContext)
      ensures data.isGlobalAnalyzing == old(data.isGlobalAnalyzing)
    {
      data.UpdateSubmission(id, SavePatch(localContent, localName), now);
      isEditing := false;
    }

    /** The synchronous part of `handleAnalyze`: without a session or with blank text it only
        raises a toast; otherwise the entry turns `analyzing` and the request to send is the
        local text, the workspace context and the token, with no model. */
    method BeginAnalyze(data: DataState, sessionToken: Option<string>)
      returns (request: Option<ClientApi.AnalyzeRequestBody>, toast: Option<Toast>)
      modifies data
      ensures NoSession(sessionToken) ==>
        request == None && toast == Some(SessionExpired) && data.submissions == old(data.submissions)
      ensures !NoSession(sessionToken) && JsString.IsBlank(localContent) ==>
        request == None && toast == Some(EmptySubmission) && data.submissions == old(data.submissions)
      ensures !NoSession(sessionToken) && !JsString.IsBlank(localContent) ==>
        && request == Some(ClientApi.AnalyzeRequestBody(localContent, old(data.assignmentContext), sessionToken.value, None))
        && toast == None
        && data.submissions == SetStatusById(old(data.submissions), id, Analyzing, None)
      ensures data.assignmentContext == old(data.assignmentContext)
      ensures data.isGlobalAnalyzing == old(data.isGlobalAnalyzing)
    {
      if NoSession(sessionToken) {
        return None, Some(SessionExpired);
      }
      if JsString.IsBlank(localContent) {
        return None, Some(EmptySubmission);
      }
      data.SetSubmissionStatus(id, Analyzing, None);
      request := Some(ClientApi.AnalyzeRequestBody(localContent, data.assignmentContext, sessionToken.value, None));
      toast := None;
    }

    /** The part of `handleAnalyze` after `analyzeSubmission` settles. */
    method FinishAnalyze(data: DataState, reply: ClientApi.Reply<ClientApi.ScoreBody>, timestamp: string)
      returns (toast: Toast)
      modifies data
      ensures data.submissions == Settle(old(data.submissions), id, ClientApi.AnalyzeSubmission(reply), timestamp)
      ensures toast == SettleToast(ClientApi.AnalyzeSubmission(reply))
      ensures data.assignmentContext == old(data.assignmentContext)
      ensures data.isGlobalAnalyzing == old(data.isGlobalAnalyzing)
    {
      var outcome := ClientApi.AnalyzeSubmission(reply);
      if outcome.Success? {
        data.SetSubmissionResult(id, Stamped(outcome.value, timestamp));
      } else {
        data.SetSubmissionStatus(id, Error, Some(ClientApi.GetErrorMessage(outcome.error)));
      }
      toast := SettleToast(outcome);
    }

    /** `handleAnalyze` as a whole. When a request goes out, the entry ends `done` with the
        server's verdict (renamed and stamped) or `error` with the message shown in the toast;
        a rejection never leaves an empty message. */
    method HandleAnalyze(data: DataState, sessionToken: Option<string>, reply: ClientApi.Reply<ClientApi.ScoreBody>, timestamp: string)
      returns (request: Option<ClientApi.AnalyzeRequestBody>, toast: Toast)
      modifies data
      ensures request.None? <==> NoSession(sessionToken) || JsString.IsBlank(localContent)
      ensures request.None? ==> data.submissions == old(data.submissions)
      ensures NoSession(sessionToken) ==> toast == SessionExpired
      ensures !NoSession(sessionToken) && JsString.IsBlank(localContent) ==> toast == EmptySubmission
      ensures request.Some? ==> toast == SettleToast(ClientApi.AnalyzeSubmission(reply))
      ensures request.Some? ==>
        data.submissions == Settle(SetStatusById(old(data.submissions), id, Analyzing, None), id, ClientApi.AnalyzeSubmission(reply), timestamp)
      ensures request.Some? && reply.Accepted? ==>
        forall i | 0 <= i < |data.submissions| && old(data.submissions)[i].id == id ::
          && data.submissions[i].status == Done
          && data.submissions[i].result == Some(AnalysisResult(reply.payload.ai_score, reply.payload.reasoning,
                                                              reply.payload.is_duplicate, reply.payload.model, timestamp))
          && data.submissions[i].errorMessage == None
      ensures request.Some? && !reply.Accepted? ==>
        forall i | 0 <= i < |data.submissions| && old(data.submissions)[i].id == id ::
          && data.submissions[i].status == Error
          && data.submissions[i].errorMessage == Some(toast.description)
          && (reply.Rejected? ==> toast.description != "")
      ensures data.assignmentContext == old(data.assignmentContext)
      ensures data.isGlobalAnalyzing == old(data.isGlobalAnalyzing)
    {
      var t;
      request, t := BeginAnalyze(data, sessionToken);
      if request.None? {
        toast := t.value;
        return;
      }
      ClientApi.RejectionMessageNonEmpty(if reply.Rejected? then reply.error else None);
      ghost var before := old(data.submissions);
      toast := FinishAnalyze(data, reply, timestamp);
      SettleEntries(before, id, ClientApi.AnalyzeSubmission(reply), timestamp);
    }

    /** One analysis end to end: the request the card builds is the body of a POST to
        `/api/analyze` (the context always present, the model absent) and the handler's reply
        reaches the card through `analyzeSubmission`. A token that fails verification leaves
        the entry in `error` with "Session Expired"; a scored reply leaves it `done` with the
        provider's score, the duplicate flag of the log lookup over the whole text and the
        server's model name; any other failure leaves "Analysis Failed". */
    method AnalyzeViaServer(data: DataState, sessionToken: Option<string>, svc: AnalyzeApi.Services,
                            logs: seq<AnalyzeApi.LogRow>, parseError: string, timestamp: string)
      returns (request: Option<ClientApi.AnalyzeRequestBody>, logsAfter: seq<AnalyzeApi.LogRow>)
      requires AnalyzeApi.TypedVerdict(svc, localContent, Some(data.assignmentContext))
      modifies data
      ensures data.assignmentContext == old(data.assignmentContext)
      ensures data.isGlobalAnalyzing == old(data.isGlobalAnalyzing)
      ensures |data.submissions| == |old(data.submissions)|
      ensures forall i | 0 <= i < |old(data.submissions)| && old(data.submissions)[i].id != id ::
        data.submissions[i] == old(data.submissions)[i]
      ensures request.None? <==> NoSession(sessionToken) || JsString.IsBlank(localContent)
      ensures request.None? ==> data.submissions == old(data.submissions) && logsAfter == logs
      ensures request.Some? ==>
        var body := AnalyzeApi.AnalyzeBody(localContent, Some(old(data.assignmentContext)), sessionToken.value);
        && (!svc.verifyToken(body.token) ==>
              && logsAfter == logs
              && forall i | 0 <= i < |data.submissions| && old(data.submissions)[i].id == id ::
                   data.submissions[i].status == Error && data.submissions[i].errorMessage == Some("Session Expired"))
        && (svc.verifyToken(body.token) && !AnalyzeApi.Scored(svc, body) ==>
              && logsAfter == logs
              && forall i | 0 <= i < |data.submissions| && old(data.submissions)[i].id == id ::
                   data.submissions[i].status == Error && data.submissions[i].errorMessage == Some("Analysis Failed"))
      ensures request.Some? ==>
        var body := AnalyzeApi.AnalyzeBody(localContent, Some(old(data.assignmentContext)), sessionToken.value);
        var h := AnalyzeApi.ContentHash(svc, localContent);
        var prompt := AnalyzeApi.PromptFor(localContent, Some(old(data.assignmentContext)));
        AnalyzeApi.Scored(svc, body) ==>
          var score := AnalyzeApi.ParseCandidate(svc.gemini(prompt).candidateText, svc.jsonParse);
          && logsAfter == logs + [AnalyzeApi.LogRow(h, score.aiScore, AnalyzeApi.ModelName)]
          && forall i | 0 <= i < |data.submissions| && old(data.submissions)[i].id == id ::
               && data.submissions[i].status == Done
               && data.submissions[i].result == Some(AnalysisResult(score.aiScore, score.reasoning,
                    AnalyzeApi.HashLogged(logs, h), AnalyzeApi.ModelName, timestamp))
               && data.submissions[i].errorMessage == None
    {
      var t;
      request, t := BeginAnalyze(data, sessionToken);
      logsAfter := logs;
      if request.None? {
        return;
      }
      var body := AnalyzeApi.AnalyzeBody(request.value.text, Some(request.value.context), request.value.token);
      var reply;
      reply, logsAfter := AskServer(body, svc, logs, parseError);
      ghost var before := old(data.submissions);
      ghost var outcome := ClientApi.AnalyzeSubmission(reply);
      var toast := FinishAnalyze(data, reply, timestamp);
      SettleEntries(before, id, outcome, timestamp);
    }
  }
}
