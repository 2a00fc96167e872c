/** The shared record types of the client (src/types/index.ts). */
module Types {
  import opened Wrappers

  /** `SubmissionStatus`: exactly one of four states. */
  datatype SubmissionStatus = Idle | Analyzing | Done | Error

  /** `AnalysisResult`. `aiScore` is documented as 0..100 but nothing enforces it;
      `timestamp` is an ISO date string produced on the client. */
  datatype AnalysisResult = AnalysisResult(
    aiScore: int,
    reasoning: string,
    isDuplicate: bool,
    modelUsed: string,
    timestamp: string)

  /** `Submission`. `result` may be `null` (None) and `errorMessage` may be absent (None);
      `lastUpdated` is a millisecond clock reading. */
  datatype Submission = Submission(
    id: string,
    studentName: string,
    content: string,
    status: SubmissionStatus,
    result: Option<AnalysisResult>,
    errorMessage: Option<string>,
    lastUpdated: int)

  /** `AuthSession` (`label` is a reserved word in Dafny, hence `userLabel`), declared by the client but not used by any core operation. */
  datatype AuthSession = AuthSession(token: string, userLabel: string, expiresAt: int)

  /** A score is in the documented range. */
  predicate ScoreInRange(r: AnalysisResult) {
    0 <= r.aiScore <= 100
  }
}
