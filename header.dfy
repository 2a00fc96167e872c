/** src/components/layout/Header.tsx: the statistics shown above the workspace and the
    "Add Student" action. `Date.now()` is the parameter `now`; `crypto.randomUUID` and
    `Math.random` are the inputs of `Crypto.GenerateId`. */
module Header {
  import opened Wrappers
  import opened Types
  import opened DataStore
  import Crypto

  /** The entries counted as analysed: `filter(s => s.status === 'done').length`. */
  function AnalyzedCount(subs: seq<Submission>): (n: nat)
    ensures n <= |subs|
    ensures n == 0 <==> forall i | 0 <= i < |subs| :: subs[i].status != Done
  {
    if subs == [] then 0
    else (if subs[0].status == Done then 1 else 0) + AnalyzedCount(subs[1..])
  }

  /** `curr.result?.aiScore || 0`: an entry without a result adds nothing. */
  function ScoreOf(s: Submission): int {
    if s.result.Some? then s.result.value.aiScore else 0
  }

  /** The `reduce` over every entry, whatever its status. */
  function TotalScore(subs: seq<Submission>): int {
    if subs == [] then 0 else ScoreOf(subs[0]) + TotalScore(subs[1..])
  }

  /** The total looks only at results: two lists whose entries hold the same results, in the
      same order, have the same total, whatever their statuses, names or texts. */
  lemma {:induction false} TotalScoreIgnoresStatus(a: seq<Submission>, b: seq<Submission>)
    requires |a| == |b|
    requires forall i | 0 <= i < |a| :: a[i].result == b[i].result
    ensures TotalScore(a) == TotalScore(b)
  {
    if a != [] {
      assert a[0].result == b[0].result;
      TotalScoreIgnoresStatus(a[1..], b[1..]);
    }
  }

  /** `Math.round(p / q)` for a positive `q`: the nearest integer, halves rounded up. */
  function RoundHalfUp(p: int, q: int): (r: int)
    requires q > 0
    ensures 2 * q * r <= 2 * p + q < 2 * q * (r + 1)
  {
    (2 * p + q) / (2 * q)
  }

  /** The displayed average: zero with nothing analysed, otherwise the total over the
      analysed count, rounded to nearest. */
  function AvgScore(subs: seq<Submission>): (avg: int)
    ensures AnalyzedCount(subs) == 0 ==> avg == 0
    ensures AnalyzedCount(subs) > 0 ==>
      2 * AnalyzedCount(subs) * avg <= 2 * TotalScore(subs) + AnalyzedCount(subs) < 2 * AnalyzedCount(subs) * (avg + 1)
  {
    var n := AnalyzedCount(subs);
    if n > 0 then RoundHalfUp(TotalScore(subs), n) else 0
  }

  /** The average is shown in rose above 50 and in emerald otherwise. */
  predicate AvgIsRose(subs: seq<Submission>) {
    AvgScore(subs) > 50
  }

  /** "Analyze All" is disabled with an empty list or while a batch runs. */
  predicate AnalyzeAllDisabled(subs: seq<Submission>, isGlobalAnalyzing: bool) {
    |subs| == 0 || isGlobalAnalyzing
  }

  const NewStudentName := "New Student"

  /** The entry `handleAddStudent` adds: empty, idle, without a result or an error. */
  function NewStudent(id: string, now: int): (s: Submission)
    ensures s.id == id && s.studentName == NewStudentName && s.content == ""
    ensures s.status == Idle && s.result == None && s.errorMessage == None && s.lastUpdated == now
    ensures Settled(s)
  {
    Submission(id, NewStudentName, "", Idle, None, None, now)
  }

  /** `handleAddStudent`: a fresh entry with a generated id goes to the front of the list. */
  method HandleAddStudent(data: DataState, randomUuid: Option<string>, rs: seq<Crypto.Nibble>, now: int)
    returns (id: string)
    requires |rs| == Crypto.UuidPlaceholders
    modifies data
    ensures id == Crypto.GenerateId(randomUuid, rs)
    ensures data.submissions == Prepend(NewStudent(id, now), old(data.submissions))
    ensures data.assignmentContext == old(data.assignmentContext)
    ensures data.isGlobalAnalyzing == old(data.isGlobalAnalyzing)
  {
    id := Crypto.GenerateId(randomUuid, rs);
    data.AddSubmission(NewStudent(id, now));
  }

  /** Adding a student changes the count shown but neither the analysed count, the total
      nor the average, and it enables "Analyze All" unless a batch runs. */
  lemma AddStudentKeepsAverage(id: string, now: int, subs: seq<Submission>)
    ensures |Prepend(NewStudent(id, now), subs)| == |subs| + 1
    ensures AnalyzedCount(Prepend(NewStudent(id, now), subs)) == AnalyzedCount(subs)
    ensures TotalScore(Prepend(NewStudent(id, now), subs)) == TotalScore(subs)
    ensures AvgScore(Prepend(NewStudent(id, now), subs)) == AvgScore(subs)
    ensures AvgIsRose(Prepend(NewStudent(id, now), subs)) == AvgIsRose(subs)
    ensures !AnalyzeAllDisabled(Prepend(NewStudent(id, now), subs), false)
  {
    var r := Prepend(NewStudent(id, now), subs);
    assert r[1..] == subs;
  }

  /** With every entry settled and every score in 0..100, the total is at most 100 per
      analysed entry. */
  lemma {:induction false} TotalScoreBounded(subs: seq<Submission>)
    requires AllSettled(subs)
    requires forall i | 0 <= i < |subs| && subs[i].result.Some? :: ScoreInRange(subs[i].result.value)
    ensures 0 <= TotalScore(subs) <= 100 * AnalyzedCount(subs)
  {
    if subs != [] {
      assert Settled(subs[0]);
      TotalScoreBounded(subs[1..]);
    }
  }

  lemma RoundHalfUpBounded(p: int, q: int)
    requires q > 0 && 0 <= p <= 100 * q
    ensures 0 <= RoundHalfUp(p, q) <= 100
  {
    var r := RoundHalfUp(p, q);
    assert 2 * q * r <= 201 * q;
    assert 2 * q * (r + 1) > 0;
  }

  /** The average shown is a percentage when the entries are settled and the scores stay
      in their documented range. */
  lemma AvgInRange(subs: seq<Submission>)
    requires AllSettled(subs)
    requires forall i | 0 <= i < |subs| && subs[i].result.Some? :: ScoreInRange(subs[i].result.value)
    ensures 0 <= AvgScore(subs) <= 100
  {
    TotalScoreBounded(subs);
    if AnalyzedCount(subs) > 0 {
      RoundHalfUpBounded(TotalScore(subs), AnalyzedCount(subs));
    }
  }

  /** Without the settled shape the average is not bounded: an `error` entry that kept a
      result adds its score to the total but not to the count. */
  lemma AvgCanExceedHundred()
    ensures var done := Submission("a", "A", "x", Done, Some(AnalysisResult(100, "", false, "m", "t")), None, 0);
            var stale := Submission("b", "B", "y", Error, Some(AnalysisResult(100, "", false, "m", "t")), Some("e"), 0);
            && ScoreInRange(done.result.value) && ScoreInRange(stale.result.value)
            && AvgScore([done, stale]) == 200
  {
    var done := Submission("a", "A", "x", Done, Some(AnalysisResult(100, "", false, "m", "t")), None, 0);
    var stale := Submission("b", "B", "y", Error, Some(AnalysisResult(100, "", false, "m", "t")), Some("e"), 0);
    var subs := [done, stale];
    assert subs[1..] == [stale];
    assert [stale][1..] == [];
    assert AnalyzedCount([stale]) == 0;
    assert AnalyzedCount(subs) == 1;
    assert TotalScore([stale]) == 100;
    assert TotalScore(subs) == 200;
  }
}
