/** src/store/useDataStore.ts: the workspace of submissions. The store's three fields live in
    the class `DataState`; each action replaces the list by a new one built from the old with
    `map` or `filter`, and those list functions are stated and proved here as functions.
    `Date.now()` is the parameter `now`. */
module DataStore {
  import opened Wrappers
  import opened Types

  /** `Partial<Submission>`: a field that is present overrides the entry's own. `result` and
      `errorMessage` are doubly optional: present-and-null differs from absent. */
  datatype SubmissionPatch = SubmissionPatch(
    id: Option<string>,
    studentName: Option<string>,
    content: Option<string>,
    status: Option<SubmissionStatus>,
    result: Option<Option<AnalysisResult>>,
    errorMessage: Option<Option<string>>,
    lastUpdated: Option<int>)

  /** `{ ...sub, ...updates, lastUpdated: now }`. */
  function Merge(sub: Submission, patch: SubmissionPatch, now: int): Submission {
    Submission(
      patch.id.GetOr(sub.id),
      patch.studentName.GetOr(sub.studentName),
      patch.content.GetOr(sub.content),
      patch.status.GetOr(sub.status),
      patch.result.GetOr(sub.result),
      patch.errorMessage.GetOr(sub.errorMessage),
      now)
  }

  /** How many entries carry `id`. */
  function CountId(subs: seq<Submission>, id: string): nat {
    if subs == [] then 0 else (if subs[0].id == id then 1 else 0) + CountId(subs[1..], id)
  }

  /** `addSubmission`: the new entry goes first and nothing else moves. No uniqueness check:
      an id already present ends up twice. */
  function Prepend(sub: Submission, subs: seq<Submission>): (r: seq<Submission>)
    ensures |r| == |subs| + 1
    ensures r[0] == sub
    ensures forall i | 0 <= i < |subs| :: r[i + 1] == subs[i]
    ensures CountId(r, sub.id) == CountId(subs, sub.id) + 1
  {
    var r := [sub] + subs;
    assert r[1..] == subs;
    r
  }

  /** `updateSubmission`: every entry whose id matches gets the patch's fields and the new
      clock reading (whatever the patch says about `lastUpdated`); every other entry, the
      length and the order stay as they were. */
  function UpdateById(subs: seq<Submission>, id: string, patch: SubmissionPatch, now: int): (r: seq<Submission>)
    ensures |r| == |subs|
    ensures forall i | 0 <= i < |subs| && subs[i].id != id :: r[i] == subs[i]
    ensures forall i | 0 <= i < |subs| && subs[i].id == id ::
      && r[i].lastUpdated == now
      && r[i].id == (if patch.id.Some? then patch.id.value else subs[i].id)
      && (patch.content.Some? ==> r[i].content == patch.content.value)
      && (patch.content.None? ==> r[i].content == subs[i].content)
      && (patch.studentName.Some? ==> r[i].studentName == patch.studentName.value)
      && (patch.studentName.None? ==> r[i].studentName == subs[i].studentName)
      && (patch.status.Some? ==> r[i].status == patch.status.value)
      && (patch.status.None? ==> r[i].status == subs[i].status)
      && (patch.result.Some? ==> r[i].result == patch.result.value)
      && (patch.result.None? ==> r[i].result == subs[i].result)
      && (patch.errorMessage.Some? ==> r[i].errorMessage == patch.errorMessage.value)
      && (patch.errorMessage.None? ==> r[i].errorMessage == subs[i].errorMessage)
  {
    seq(|subs|, i requires 0 <= i < |subs| =>
      if subs[i].id == id then Merge(subs[i], patch, now) else subs[i])
  }

  /** `removeSubmission`: `filter(sub => sub.id !== id)`. */
  function RemoveById(subs: seq<Submission>, id: string): (r: seq<Submission>)
    ensures |r| == |subs| - CountId(subs, id)
    ensures forall i | 0 <= i < |r| :: r[i].id != id
  {
    if subs == [] then []
    else if subs[0].id == id then RemoveById(subs[1..], id)
    else [subs[0]] + RemoveById(subs[1..], id)
  }

  /** The survivors are exactly the entries with another id. */
  lemma {:induction false} RemoveKeepsOthers(subs: seq<Submission>, id: string, s: Submission)
    ensures s in RemoveById(subs, id) <==> s in subs && s.id != id
  {
    if subs != [] {
      RemoveKeepsOthers(subs[1..], id, s);
      assert s in subs <==> s == subs[0] || s in subs[1..];
    }
  }

  /** Removal works entry by entry, so the survivors keep their relative order. */
  lemma {:induction false} RemoveDistributes(a: seq<Submission>, b: seq<Submission>, id: string)
    ensures RemoveById(a + b, id) == RemoveById(a, id) + RemoveById(b, id)
  {
    if a == [] {
      assert a + b == b;
    } else {
      var ab := a + b;
      assert ab[0] == a[0];
      assert ab[1..] == a[1..] + b;
      RemoveDistributes(a[1..], b, id);
      if a[0].id != id {
        assert RemoveById(ab, id) == [a[0]] + RemoveById(a[1..] + b, id);
        assert RemoveById(a, id) == [a[0]] + RemoveById(a[1..], id);
      }
    }
  }

  /** Removing twice is removing once. */
  lemma {:induction false} RemoveIdempotent(subs: seq<Submission>, id: string)
    ensures RemoveById(RemoveById(subs, id), id) == RemoveById(subs, id)
  {
    if subs != [] {
      RemoveIdempotent(subs[1..], id);
      if subs[0].id != id {
        var r := RemoveById(subs, id);
        assert r[1..] == RemoveById(subs[1..], id);
      }
    }
  }

  /** `setSubmissionResult`: matching entries become `done` with the result attached and no
      error message; their id, name, content and `lastUpdated` are untouched. Other entries,
      the length and the order are unchanged. */
  function SetResultById(subs: seq<Submission>, id: string, res: AnalysisResult): (r: seq<Submission>)
    ensures |r| == |subs|
    ensures forall i | 0 <= i < |subs| && subs[i].id != id :: r[i] == subs[i]
    ensures forall i | 0 <= i < |subs| && subs[i].id == id ::
      && r[i].status == Done && r[i].result == Some(res) && r[i].errorMessage == None
      && r[i].id == subs[i].id && r[i].studentName == subs[i].studentName
      && r[i].content == subs[i].content && r[i].lastUpdated == subs[i].lastUpdated
  {
    seq(|subs|, i requires 0 <= i < |subs| =>
      if subs[i].id == id then subs[i].(status := Done, result := Some(res), errorMessage := None)
      else subs[i])
  }

  /** `setSubmissionStatus`: matching entries take the status and the given error message
      (none when no error is given); their result is left as it was, so an `error` entry may
      keep an earlier result. Other entries, the length and the order are unchanged. */
  function SetStatusById(subs: seq<Submission>, id: string, status: SubmissionStatus, error: Option<string>): (r: seq<Submission>)
    ensures |r| == |subs|
    ensures forall i | 0 <= i < |subs| && subs[i].id != id :: r[i] == subs[i]
    ensures forall i | 0 <= i < |subs| && subs[i].id == id ::
      && r[i].status == status && r[i].errorMessage == error && r[i].result == subs[i].result
      && r[i].id == subs[i].id && r[i].studentName == subs[i].studentName
      && r[i].content == subs[i].content && r[i].lastUpdated == subs[i].lastUpdated
  {
    seq(|subs|, i requires 0 <= i < |subs| =>
      if subs[i].id == id then subs[i].(status := status, errorMessage := error) else subs[i])
  }

  /** The shape every entry keeps through the client's own flows: it holds a result exactly
      when its status is `done`. `setSubmissionStatus` alone can break it, on an entry that is
      already `done`, which the card never asks for. */
  predicate Settled(s: Submission) {
    s.result.Some? <==> s.status == Done
  }

  predicate AllSettled(subs: seq<Submission>) {
    forall i | 0 <= i < |subs| :: Settled(subs[i])
  }

  lemma PrependKeepsSettled(sub: Submission, subs: seq<Submission>)
    requires Settled(sub) && AllSettled(subs)
    ensures AllSettled(Prepend(sub, subs))
  {
    var r := Prepend(sub, subs);
    forall i | 0 <= i < |r| ensures Settled(r[i]) {
      if i > 0 {
        assert r[i] == subs[i - 1];
      }
    }
  }

  /** A patch that sets status and result together, consistently, keeps the shape. */
  lemma UpdateKeepsSettled(subs: seq<Submission>, id: string, patch: SubmissionPatch, now: int)
    requires AllSettled(subs)
    requires patch.status.Some? && patch.result.Some?
    requires patch.result.value.Some? <==> patch.status.value == Done
    ensures AllSettled(UpdateById(subs, id, patch, now))
  {
  }

  lemma RemoveKeepsSettled(subs: seq<Submission>, id: string)
    requires AllSettled(subs)
    ensures AllSettled(RemoveById(subs, id))
  {
    var r := RemoveById(subs, id);
    forall i | 0 <= i < |r| ensures Settled(r[i]) {
      RemoveKeepsOthers(subs, id, r[i]);
    }
  }

  lemma SetResultKeepsSettled(subs: seq<Submission>, id: string, res: AnalysisResult)
    requires AllSettled(subs)
    ensures AllSettled(SetResultById(subs, id, res))
  {
  }

  /** Moving entries that are not `done` to another status other than `done` keeps the shape;
      so does anything done to entries with another id. */
  lemma SetStatusKeepsSettled(subs: seq<Submission>, id: string, status: SubmissionStatus, error: Option<string>)
    requires AllSettled(subs)
    requires status != Done
    requires forall i | 0 <= i < |subs| && subs[i].id == id :: subs[i].status != Done
    ensures AllSettled(SetStatusById(subs, id, status, error))
  {
  }

  /** The store. The list actions never touch `assignmentContext` or `isGlobalAnalyzing`. */
  class DataState {
    var submissions: seq<Submission>
    var assignmentContext: string
    var isGlobalAnalyzing: bool

    /** The initial state: no submissions, an empty context, not analyzing. */
    constructor ()
      ensures submissions == [] && assignmentContext == "" && !isGlobalAnalyzing
    {
      submissions := [];
      assignmentContext := "";
      isGlobalAnalyzing := false;
    }

    method SetContext(context: string)
      modifies this
      ensures assignmentContext == context
      ensures submissions == old(submissions) && isGlobalAnalyzing == old(isGlobalAnalyzing)
    {
      assignmentContext := context;
    }

    method AddSubmission(sub: Submission)
      modifies this
      ensures submissions == Prepend(sub, old(submissions))
      ensures assignmentContext == old(assignmentContext) && isGlobalAnalyzing == old(isGlobalAnalyzing)
    {
      submissions := Prepend(sub, submissions);
    }

    method UpdateSubmission(id: string, updates: SubmissionPatch, now: int)
      modifies this
      ensures submissions == UpdateById(old(submissions), id, updates, now)
      ensures assignmentContext == old(assignmentContext) && isGlobalAnalyzing == old(isGlobalAnalyzing)
    {
      submissions := UpdateById(submissions, id, updates, now);
    }

    method RemoveSubmission(id: string)
      modifies this
      ensures submissions == RemoveById(old(submissions), id)
      ensures assignmentContext == old(assignmentContext) && isGlobalAnalyzing == old(isGlobalAnalyzing)
    {
      submissions := RemoveById(submissions, id);
    }

    method SetSubmissionResult(id: string, result: AnalysisResult)
      modifies this
      ensures submissions == SetResultById(old(submissions), id, result)
      ensures assignmentContext == old(assignmentContext) && isGlobalAnalyzing == old(isGlobalAnalyzing)
    {
      submissions := SetResultById(submissions, id, result);
    }

    method SetSubmissionStatus(id: string, status: SubmissionStatus, error: Option<string>)
      modifies this
      ensures submissions == SetStatusById(old(submissions), id, status, error)
      ensures assignmentContext == old(assignmentContext) && isGlobalAnalyzing == old(isGlobalAnalyzing)
    {
      submissions := SetStatusById(submissions, id, status, error);
    }

    method SetGlobalAnalyzing(isAnalyzing: bool)
      modifies this
      ensures isGlobalAnalyzing == isAnalyzing
      ensures submissions == old(submissions) && assignmentContext == old(assignmentContext)
    {
      isGlobalAnalyzing := isAnalyzing;
    }

    /** Empties the list and the context; the analyzing flag stays as it was. */
    method ClearAll()
      modifies this
      ensures submissions == [] && assignmentContext == ""
      ensures isGlobalAnalyzing == old(isGlobalAnalyzing)
    {
      submissions := [];
      assignmentContext := "";
    }
  }
}
