/** The responses the two serverless handlers (api/auth.ts, api/analyze.ts) return. */
module Http {

  datatype Body =
    | PlainText(text: string)
    | ErrorJson(error: string)
    | SessionJson(token: string, userLabel: string, expiresIn: int)
    | ScoreJson(ai_score: int, reasoning: string, is_duplicate: bool, model: string)
      /** A 200 of `/api/analyze` whose `ai_score` and `reasoning` are copied from a parsed
          value of another shape: absent, or not a number and a string. */
    | UntypedScoreJson(is_duplicate: bool, model: string)

  datatype Response = Response(status: int, body: Body)

  const MethodNotAllowed := Response(405, PlainText("Method Not Allowed"))
}
