# AiAuditor submission-analysis workflow in Dafny

AiAuditor is a web tool for teachers. They paste students' texts, and a serverless endpoint
asks a language model how likely each text is to be machine-written. Teachers reach the
workspace by entering an access PIN at a terminal screen. This project models that workflow
and proves properties of it:

- the two serverless handlers: `api/auth.ts`, the PIN login, and `api/analyze.ts`, the scoring;
- the client helpers that call them (`src/lib/api.ts`) and the lowercase hex and UUID helpers
  (`src/lib/crypto.ts`);
- the three zustand stores (submissions, session, UI preferences);
- the logic of the components that change them: the PIN form, the header statistics, the
  score meter colour and the submission card's edit and analyse lifecycle.

Everything the handlers call out to is an input record (`Services`): SHA-256, JWT signing and
verification, the health of the database, the Gemini reply, `JSON.parse` as a partial
function, and the clock. The handlers are methods. Each returns its HTTP response and the
ordered trace of the calls it made; the analyse handler also returns the log table after the
request. The trace is what lets
the contracts say "nothing is hashed or queried before a 401" and "the duplicate lookup
happens before the insert".

Stores and component state are classes whose methods say, with `modifies` and `old`,
exactly what the new state is. The list updates the stores apply (`map`/`filter` over the
submissions) are functions whose properties are proved on their own. The card only ever
analyses entries that are not `done`. Under that condition every client flow keeps the
invariant "an entry holds a result exactly when it is `done`" (`DataStore.Settled`). With that
invariant and in-range scores, the header's average is a percentage. Without it, the average
can exceed 100.

The code has none of the following, and neither does the model:

- there is no batch "Analyze All" orchestration; the button has no handler;
- there is no 403 path;
- there is no model allow-list; the model name is fixed;
- the JWT carries no account reference, only the label;
- a parse failure gives a fixed fallback text, not the raw provider text.

## Model

| member | source | states |
|---|---|---|
| Crypto.ToBase16 | src/lib/crypto.ts:29 | `n.toString(16)` is a non-empty lowercase hex numeral, a single digit below 16 |
| Crypto.PadStart | src/lib/crypto.ts:29 | `padStart` reaches the width, keeps the string as a suffix and fills only the front |
| Crypto.ByteHexNibbles | src/lib/crypto.ts:29 | each byte becomes exactly two characters, its high and its low nibble digit |
| Crypto.HexEncode | src/lib/crypto.ts:28-29 | the encoding has twice as many characters as the digest has bytes, all lowercase hex |
| Crypto.HexRoundTrip | src/lib/crypto.ts:29 | decoding the hex string two digits at a time gives back every digest byte |
| Crypto.HexInjective | src/lib/crypto.ts:29 | distinct digests have distinct hex strings |
| Crypto.HashText | src/lib/crypto.ts:24-30 | `hashText` is twice the digest length and lowercase hex only |
| Crypto.HashTextDecodes | src/lib/crypto.ts:24-30 | the hash string carries the whole SHA-256 digest of the text |
| Crypto.UuidPlaceholderCount | src/lib/crypto.ts:10 | the template holds 31 placeholders (30 `x`, one `y`), so the fallback draws 31 random nibbles |
| Crypto.VariantNibble | src/lib/crypto.ts:12 | `(r & 0x3) \| 0x8` is in 8..11 and keeps the two low bits of r |
| Crypto.TemplateLayout | src/lib/crypto.ts:10 | the template is 36 characters long, with dashes at 8, 13, 18 and 23, a `4` at 14 and a `y` at 19; every other position is a placeholder |
| Crypto.FillPointwise | src/lib/crypto.ts:10-14 | the replacement turns each `x` into one hex digit and the `y` into 8, 9, a or b, and keeps every other character |
| Crypto.PlaceholdersOfLayout | src/lib/crypto.ts:10 | any 36-character string with placeholders exactly outside the five fixed positions holds 31 of them |
| Crypto.FillOfLayout | src/lib/crypto.ts:10-13 | filling any string laid out like the template gives the RFC 4122 layout, and a lowercase hex digit at every position but the four dashes |
| Crypto.FallbackId | src/lib/crypto.ts:10-14 | the fallback identifier is 36 characters long |
| Crypto.FallbackIdLayout | src/lib/crypto.ts:10-14 | the fallback is 36 characters long with dashes at 8, 13, 18 and 23, version `4` at 14 and a variant digit in 8..b at 19 (section 4.4 of RFC 4122) |
| Crypto.FallbackIdHexDigits | src/lib/crypto.ts:10-14 | every non-dash position of the fallback is a lowercase hex digit |
| Crypto.GenerateId | src/lib/crypto.ts:5-15 | `crypto.randomUUID()` is used whenever it exists; the template is used only otherwise |
| JsString.TrimStart | src/components/analysis/SubmissionCard.tsx:46 | the result is a suffix; everything dropped is white space; the result does not start with white space |
| JsString.TrimEnd | src/components/analysis/SubmissionCard.tsx:46 | the result is a prefix; everything dropped is white space; the result does not end with white space |
| JsString.Trim | api/analyze.ts:66 | `trim` never lengthens the string, and the result has no white space at either end |
| JsString.BlankIffAllWhiteSpace | src/components/analysis/SubmissionCard.tsx:46 | `!s.trim()` holds exactly when every character is white space |
| JsString.TrimUnpadded | api/analyze.ts:66 | a string without surrounding white space is unchanged by `trim` |
| JsString.DigitsOnly | src/components/auth/PinTerminal.tsx:62 | `replace(/\D/g, '')` keeps every digit as often as the input holds it and drops every other character, so the result is all digits and never longer |
| JsString.DigitsOnlyAppend | src/components/auth/PinTerminal.tsx:62 | the filter works character by character, so the digits keep their order |
| JsString.DigitsOnlyDropsNonDigit | src/components/auth/PinTerminal.tsx:62 | a single non-digit filters to the empty string |
| JsString.DigitsOnlyDropsNonDigits | src/components/auth/PinTerminal.tsx:62 | a string with no digit filters to the empty string |
| JsString.DigitsOnlyKeepsDigits | src/components/auth/PinTerminal.tsx:62 | an all-digit string passes unchanged, so filtering twice is filtering once |
| JsString.Prefix | api/analyze.ts:48 | `substring(0, n)` has length min(n, \|s\|) and is a prefix of s |
| JsString.NatToDecimal | src/components/analysis/ScoreMeter.tsx:48 | the decimal numeral is non-empty, all digits, with no leading zero |
| JsString.DecimalRoundTrip | src/components/analysis/ScoreMeter.tsx:48 | reading the numeral back gives the number |
| JsString.IntToString | src/components/analysis/ScoreMeter.tsx:48 | an integer in a template literal starts with `-` exactly when it is negative; otherwise it is all digits |
| DataStore.Prepend | src/store/useDataStore.ts:30-33 | `addSubmission` puts the entry at index 0 and shifts the others in order; the length grows by one; the id is not checked for uniqueness (its count grows by one) |
| DataStore.UpdateById | src/store/useDataStore.ts:35-40 | matching entries take every field the patch carries (id, name, text, status, result, error message) and `lastUpdated = now` even when the patch has one; fields the patch lacks are kept; other entries, length and order are unchanged |
| DataStore.RemoveById | src/store/useDataStore.ts:42-45 | no entry with the id is left, and exactly as many entries as carried the id are gone |
| DataStore.RemoveKeepsOthers | src/store/useDataStore.ts:42-45 | an entry survives removal exactly when it was present and has another id |
| DataStore.RemoveDistributes | src/store/useDataStore.ts:42-45 | removal distributes over concatenation, so the survivors keep their relative order |
| DataStore.RemoveIdempotent | src/store/useDataStore.ts:42-45 | removing an id twice is removing it once |
| DataStore.SetResultById | src/store/useDataStore.ts:47-54 | matching entries become `done` with the result and no error message; id, name, content and `lastUpdated` are untouched; other entries are unchanged |
| DataStore.SetStatusById | src/store/useDataStore.ts:56-63 | matching entries take the status and the given error (none when none is given) and keep their result; other entries are unchanged |
| DataStore.PrependKeepsSettled | src/store/useDataStore.ts:30-33 | adding a settled entry keeps every entry settled |
| DataStore.UpdateKeepsSettled | src/store/useDataStore.ts:35-40 | a patch that sets status and result consistently keeps every entry settled |
| DataStore.RemoveKeepsSettled | src/store/useDataStore.ts:42-45 | removal keeps every entry settled |
| DataStore.SetResultKeepsSettled | src/store/useDataStore.ts:47-54 | setting a result keeps every entry settled |
| DataStore.SetStatusKeepsSettled | src/store/useDataStore.ts:56-63 | moving entries that are not `done` to another status that is not `done` keeps every entry settled |
| DataStore.DataState.constructor | src/store/useDataStore.ts:24-26 | the store starts with no submissions, an empty context and not analysing |
| DataStore.DataState.SetContext | src/store/useDataStore.ts:28 | only the context changes |
| DataStore.DataState.AddSubmission | src/store/useDataStore.ts:30-33 | the list becomes `Prepend` of the old list; the other fields are unchanged |
| DataStore.DataState.UpdateSubmission | src/store/useDataStore.ts:35-40 | the list becomes `UpdateById` of the old list; the other fields are unchanged |
| DataStore.DataState.RemoveSubmission | src/store/useDataStore.ts:42-45 | the list becomes `RemoveById` of the old list; the other fields are unchanged |
| DataStore.DataState.SetSubmissionResult | src/store/useDataStore.ts:47-54 | the list becomes `SetResultById` of the old list; the other fields are unchanged |
| DataStore.DataState.SetSubmissionStatus | src/store/useDataStore.ts:56-63 | the list becomes `SetStatusById` of the old list; the other fields are unchanged |
| DataStore.DataState.SetGlobalAnalyzing | src/store/useDataStore.ts:65 | only the analysing flag changes |
| DataStore.DataState.ClearAll | src/store/useDataStore.ts:67 | the list and the context are emptied; the analysing flag is kept |
| AuthStore.AuthState.constructor | src/store/useAuthStore.ts:17-19 | the session starts signed out, and `isAuthenticated` holds exactly when a token is held |
| AuthStore.AuthState.Login | src/store/useAuthStore.ts:21-25 | the session holds exactly the given token and label, replacing any earlier ones, and stays consistent |
| AuthStore.AuthState.Logout | src/store/useAuthStore.ts:27-31 | from any state, the session returns to signed out, so a second logout changes nothing |
| AppStore.ModelId | src/store/useAppStore.ts:5 | a model is one of the two declared identifiers |
| AppStore.ModelIdInjective | src/store/useAppStore.ts:5 | the two identifiers are distinct |
| AppStore.AppState.constructor | src/store/useAppStore.ts:20-22 | the defaults are: sidebar expanded, privacy off, the flash model |
| AppStore.AppState.ToggleSidebar | src/store/useAppStore.ts:24 | the sidebar flag is negated and nothing else changes |
| AppStore.AppState.SetPrivacyMode | src/store/useAppStore.ts:25 | the privacy flag is set exactly and nothing else changes |
| AppStore.AppState.SetSelectedModel | src/store/useAppStore.ts:26 | the model is set and nothing else changes |
| ClientApi.ErrorText | src/lib/api.ts:27 | `data.error \|\| fallback` gives the error when it is present and non-empty, and the fallback otherwise |
| ClientApi.SessionReply | src/lib/api.ts:24-28 | a non-JSON body makes `response.json()` throw; a JSON body is accepted on 2xx and otherwise rejected with its `error` field |
| ClientApi.ScoreReply | src/lib/api.ts:54-58 | the same mapping for the analyse endpoint's replies |
| ClientApi.VerifyPin | src/lib/api.ts:17-35 | a non-ok reply throws `data.error` or "Access Denied"; an ok reply returns token, label and lifetime unchanged |
| ClientApi.AnalyzeSubmission | src/lib/api.ts:41-66 | a non-ok reply throws `data.error` or "Analysis failed"; an ok reply is renamed field by field |
| ClientApi.GetErrorMessage | src/lib/api.ts:71-74 | an `Error` gives its message; anything else gives the fixed unknown-error text |
| ClientApi.RejectionMessageNonEmpty | src/lib/api.ts:26-28 | a rejection from either endpoint never reaches the user as an empty message |
| AuthApi.FirstWithHash | api/auth.ts:26-32 | the lookup finds a row exactly when some row has the hash, and the row it returns has that hash |
| AuthApi.SameKeySameDigest | api/auth.ts:16-22 | two PINs with the same hex key have the same SHA-256 digest |
| AuthApi.Process | api/auth.ts:16-54 | a database failure gives 500 "System Error"; no matching row gives 401 "Invalid PIN" after digest and lookup; a match gives 200 with a token signed over only the label and an expiry of now + 7200, the row's label and `expiresIn` 7200, with the usage bump last |
| AuthApi.Handle | api/auth.ts:9-57 | non-POST gives 405 with no effects; an unreadable body gives 500; a missing PIN gives 400 before any hashing or query; otherwise `Process`: 200 exactly when the database answers and a row holds the PIN's hex digest |
| AnalyzeApi.PromptContext | api/analyze.ts:39 | an absent or empty context becomes the default; the prompt's context is never empty |
| AnalyzeApi.Excerpt | api/analyze.ts:48 | the prompt text is a prefix of at most 5000 characters, the whole text when shorter |
| AnalyzeApi.PromptSeesOnlyPrefix | api/analyze.ts:48 | texts that agree on their first 5000 characters give the same prompt |
| AnalyzeApi.RemoveFencesHead | api/analyze.ts:66 | outside a fence the first character is kept, and the output never starts with a fence |
| AnalyzeApi.RemoveFencesLeavesNoFence | api/analyze.ts:66 | after the replacement no three backticks in a row remain |
| AnalyzeApi.RemoveFencesPlain | api/analyze.ts:66 | text without backticks is unchanged |
| AnalyzeApi.RemoveFencesClosing | api/analyze.ts:66 | a trailing closing fence is removed exactly |
| AnalyzeApi.RemoveFencesShorter | api/analyze.ts:66 | the replacement never lengthens the text |
| AnalyzeApi.StripFences | api/analyze.ts:66 | the string handed to `JSON.parse` is no longer than the reply and has no surrounding white space |
| AnalyzeApi.StrippedHasNoFence | api/analyze.ts:66 | the string handed to `JSON.parse` contains no fence |
| AnalyzeApi.FencedBlock | api/analyze.ts:64-67 | a reply wrapped as a ```json block is unwrapped to its trimmed body |
| AnalyzeApi.ParseCandidate | api/analyze.ts:62-70 | a missing candidate or a parse error gives exactly the fallback `{0, "Analysis failed to parse."}`; a parsed score object replaces it; a `null` parse leaves no score; a parsed value of any other shape is kept as it is (`Untyped`) |
| AnalyzeApi.RowFor | api/analyze.ts:74-77 | the inserted row carries the content hash and `gemini-2.5-flash`, and the parsed `ai_score` when the value is a score object |
| AnalyzeApi.BodyFor | api/analyze.ts:79-83 | the 200 body carries the duplicate flag and `gemini-2.5-flash`, and the parsed score and reasoning when the value is a score object |
| AnalyzeApi.FallbackStillLogged | api/analyze.ts:62-77 | a fallback verdict is scored and logged like any other |
| AnalyzeApi.Process | api/analyze.ts:22-87 | with a verified token: 200 exactly when database, provider, parse and insert all succeed; the trace is digest, lookup, provider call, insert; `is_duplicate` is whether the log held the hash before this request's own row; the row and the reply both name `gemini-2.5-flash`; a parsed value of another shape is still logged and answered with 200; any failure is 500 with nothing logged |
| AnalyzeApi.Handle | api/analyze.ts:9-91 | non-POST gives 405; an unreadable body gives 500; a token that fails gives 401 "Session Expired" with no hashing, query or provider call; otherwise `Process` |
| AnalyzeApi.SameTextTwice | api/analyze.ts:31-82 | for two requests with the same text, possibly meeting different tokens, provider replies and databases: when both are answered with 200, the second is flagged as a duplicate, because it finds the first one's row |
| PinTerminal.PinTerminal.constructor | src/components/auth/PinTerminal.tsx:10-12 | the form starts empty, not loading, with no error and submit disabled |
| PinTerminal.PinTerminal.OnChange | src/components/auth/PinTerminal.tsx:62 | the PIN becomes the digits of the typed value, in order |
| PinTerminal.PinTerminal.BeginSubmit | src/components/auth/PinTerminal.tsx:15-20 | a PIN under 4 characters sends nothing and changes nothing; otherwise loading starts, the error clears and the PIN is sent |
| PinTerminal.PinTerminal.FinishSubmit | src/components/auth/PinTerminal.tsx:22-30 | success logs in with the returned token and label; failure shows the message, clears the PIN and leaves the session; loading ends either way |
| PinTerminal.PinTerminal.HandleSubmit | src/components/auth/PinTerminal.tsx:15-31 | the whole submit: nothing for a short PIN; otherwise success logs in with exactly the returned token and label and keeps the PIN, and failure shows `getErrorMessage` of what was thrown, clears the PIN and leaves the whole session as it was; a rejection always shows a non-empty message; loading ends |
| PinTerminal.PinTerminal.SubmitToServer | src/components/auth/PinTerminal.tsx:15-31 | end to end against the handler: login happens exactly when the database answers and a row holds the PIN's digest, with the token signed for that label and 2 h; otherwise "System Error" or "Invalid PIN", the PIN cleared and the whole session (flag, token, label) as it was; a short PIN changes nothing |
| Header.AnalyzedCount | src/components/layout/Header.tsx:10 | the count is at most the list length, and 0 exactly when no entry is `done` |
| Header.RoundHalfUp | src/components/layout/Header.tsx:14 | `Math.round(p / q)` is the integer nearest p/q, with halves rounded up |
| Header.AvgScore | src/components/layout/Header.tsx:14 | the average is 0 with nothing analysed, and otherwise the total over the analysed count, rounded |
| Header.NewStudent | src/components/layout/Header.tsx:17-24 | the new entry is "New Student": empty, idle, with no result and no error, and settled |
| Header.HandleAddStudent | src/components/layout/Header.tsx:16-25 | the list becomes the new entry, with a generated id, prepended to the old list |
| Header.AddStudentKeepsAverage | src/components/layout/Header.tsx:9-51 | adding a student raises the total count by one; it changes neither the analysed count, the total, the average nor whether the average is shown in rose, and it enables "Analyze All" |
| Header.TotalScoreIgnoresStatus | src/components/layout/Header.tsx:13 | the total depends only on the entries' results, in order, not on their statuses |
| Header.TotalScoreBounded | src/components/layout/Header.tsx:13 | with settled entries and in-range scores, the total is at most 100 per analysed entry |
| Header.RoundHalfUpBounded | src/components/layout/Header.tsx:14 | rounding a ratio within 0..100 stays within 0..100 |
| Header.AvgInRange | src/components/layout/Header.tsx:12-14 | with settled entries and in-range scores, the average is within 0..100 |
| Header.AvgCanExceedHundred | src/components/layout/Header.tsx:13-14 | without that invariant, an `error` entry that kept a result pushes the average to 200 |
| ScoreMeter.ColorClass | src/components/analysis/ScoreMeter.tsx:14-16 | emerald exactly up to 30, amber exactly from 31 to 70, rose exactly above 70 |
| ScoreMeter.ColorMonotone | src/components/analysis/ScoreMeter.tsx:14-16 | a higher score never gets a safer colour |
| ScoreMeter.Label | src/components/analysis/ScoreMeter.tsx:48 | the label is the score's numeral followed by `%` |
| ScoreMeter.LabelReadsBack | src/components/analysis/ScoreMeter.tsx:48 | for a non-negative score, the label's digits read back as the score |
| SubmissionCard.Stamped | src/components/analysis/SubmissionCard.tsx:57-60 | the stored result is the server's verdict field by field, plus the timestamp |
| SubmissionCard.SettleEntries | src/components/analysis/SubmissionCard.tsx:51-66 | every entry with the id ends `done` with the stamped verdict and no error, or ends `error` with the thrown message; the length is kept |
| SubmissionCard.SettleToast | src/components/analysis/SubmissionCard.tsx:62-66 | success toasts "Analysis Complete" with `Score: n%`; failure toasts "Analysis Failed" with the message |
| SubmissionCard.SavePatch | src/components/analysis/SubmissionCard.tsx:71-76 | the save patch sets text, name, `idle` and no result, and does not touch the error message |
| SubmissionCard.BadgeText | src/components/analysis/SubmissionCard.tsx:103-104 | "AI Detected" exactly above 50, "Human Likely" otherwise |
| SubmissionCard.ShownContent | src/components/analysis/SubmissionCard.tsx:140 | the content is shown, or a placeholder when it is empty |
| SubmissionCard.PanelsExclusive | src/components/analysis/SubmissionCard.tsx:160-173 | Analyze only for `idle`, Retry only for `error`, the result only for `done` with a result, at most one at a time and none while editing |
| SubmissionCard.BadgeAgreesWithMeter | src/components/analysis/SubmissionCard.tsx:103-104 | "AI Detected" is never green, and a red meter always reads "AI Detected" |
| SubmissionCard.AnalyzeKeepsSettled | src/components/analysis/SubmissionCard.tsx:51-65 | analysing an entry that is not `done` keeps every entry settled, whatever the reply |
| SubmissionCard.SaveKeepsSettled | src/components/analysis/SubmissionCard.tsx:70-76 | saving keeps every entry settled |
| SubmissionCard.AskServer | src/components/analysis/SubmissionCard.tsx:54 | `analyzeSubmission` against the handler throws "Session Expired" for a bad token and "Analysis Failed" for any other failure; a scored text resolves to the provider's verdict with the duplicate flag, and its log row is added |
| SubmissionCard.SubmissionCard.constructor | src/components/analysis/SubmissionCard.tsx:33-35 | the card opens in edit mode exactly when the entry has no text |
| SubmissionCard.SubmissionCard.SyncContent | src/components/analysis/SubmissionCard.tsx:37-39 | the local text follows the stored text |
| SubmissionCard.SubmissionCard.EditContent | src/components/analysis/SubmissionCard.tsx:132 | typing changes only the local text |
| SubmissionCard.SubmissionCard.EditName | src/components/analysis/SubmissionCard.tsx:94 | typing changes only the local name |
| SubmissionCard.SubmissionCard.StartEdit | src/components/analysis/SubmissionCard.tsx:119 | the edit button enters edit mode |
| SubmissionCard.SubmissionCard.CancelEdit | src/components/analysis/SubmissionCard.tsx:114 | cancel leaves edit mode and keeps the typed text |
| SubmissionCard.SubmissionCard.Delete | src/components/analysis/SubmissionCard.tsx:120 | delete removes every entry with the card's id |
| SubmissionCard.SubmissionCard.HandleSave | src/components/analysis/SubmissionCard.tsx:70-78 | matching entries take the local text and name, go back to `idle` without a result and keep their error message; edit mode ends |
| SubmissionCard.SubmissionCard.BeginAnalyze | src/components/analysis/SubmissionCard.tsx:41-51 | no token, or a token with blank text, only toasts (the token is checked first); otherwise the entry becomes `analyzing` with no error, and the request carries text, context and token but no model |
| SubmissionCard.SubmissionCard.FinishAnalyze | src/components/analysis/SubmissionCard.tsx:53-67 | the list and toast after `analyzeSubmission` settles |
| SubmissionCard.SubmissionCard.HandleAnalyze | src/components/analysis/SubmissionCard.tsx:41-68 | the request goes out exactly when a token is held and the text is not blank; otherwise the toast is "Session Expired" or "Empty Submission" and the list is unchanged; after a request the entry ends `done` with the verdict, or `error` with the toast's (non-empty for rejections) message, and the toast is the settled one |
| SubmissionCard.SubmissionCard.AnalyzeViaServer | src/components/analysis/SubmissionCard.tsx:41-68 | end to end against the handler: a failed token leaves "Session Expired", any other failure "Analysis Failed" and no log row; a scored text leaves `done` with the provider's score, the duplicate flag over the whole text, the model name and no error message, and adds the log row; entries with another id, the context and the analysing flag are unchanged |

Definitions that carry no contract of their own are stated through the members above:
`AnalyzeApi.RemoveFences` (api/analyze.ts:66) by the `RemoveFences*` lemmas, `StrippedHasNoFence`
and `FencedBlock`; `Crypto.Substitute` and `Crypto.Fill` (src/lib/crypto.ts:10-13) by
`FillPointwise` and the `FallbackId*` lemmas; `Header.TotalScore` (src/components/layout/Header.tsx:13)
by `TotalScoreIgnoresStatus`, `TotalScoreBounded` and `AddStudentKeepsAverage`;
`Header.AvgIsRose` (Header.tsx:39) and `Header.AnalyzeAllDisabled` (Header.tsx:51) are the
one-line conditions `AvgScore > 50` and "empty list or a batch running", both stated for a
new student by `AddStudentKeepsAverage`; `DataStore.Merge` (src/store/useDataStore.ts:38) by `UpdateById`;
`PinTerminal.PinTerminal.SubmitDisabled` (src/components/auth/PinTerminal.tsx:78) by the
constructor; `SubmissionCard.Settle` (SubmissionCard.tsx:53-66) by `SettleEntries` and
`HandleAnalyze`; `SubmissionCard.OffersAnalyze`, `OffersRetry` and `ShowsResult`
(SubmissionCard.tsx:160-173) by `PanelsExclusive`.

## Left out

- Rendering, animation and styling: the JSX markup, framer-motion and the Tailwind classes,
  including the class strings of the score meter's three colours (ScoreMeter.tsx:14-16); the
  model keeps only which of the three colours a score gets. `Sidebar`, `MainLayout`, `App` and the UI and
  markdown components are not part of this model.
- The wording of the Gemini prompt. Only its two variable parts, the context and the
  5000-character excerpt, are modelled.
- SHA-256, the `jose` JWT signer and verifier, `@vercel/postgres`, the Gemini `fetch`,
  `JSON.parse`, `crypto.randomUUID`, `Math.random` and the clocks. All are inputs. The
  database is reduced to one "connects" flag and one "insert succeeds" flag, so the model
  does not tell a failing query apart from a failing connection.
- AnalyzeApi.ParseCandidate: a parsed value of another shape (`Untyped`) is not broken down further, so the model does not say which `ai_score` and `reasoning` it forwards (absent ones are dropped by `JSON.stringify`) nor whether the database accepts such a row; the insert's outcome is the same input flag as for any row.
- SubmissionCard.AskServer: requires that the provider's reply does not parse to a value of another shape, because the client's `AnalysisResult` holds a numeric `aiScore` and a string `reasoning` and cannot hold the undefined or mistyped fields such a reply carries.
- SubmissionCard.SubmissionCard.AnalyzeViaServer: requires the same of the provider's reply, for the same reason.
- JSON bodies with missing or non-string fields (for example a `pin` that is a number, or a
  missing `text` that makes `substring` throw). A 2xx reply is taken to carry the fields the
  client declares.
- Characters are Unicode scalar values. JavaScript's `length`, `substring` and `trim` count
  UTF-16 code units, which differs only outside the Basic Multilingual Plane.
- The input's `maxLength={6}`, which the browser enforces, not the component.
- Asynchrony: the interleaving of overlapping analyses, and the race between concurrent
  requests with the same text. The handlers are sequential.
- The usage counter bump (`api/auth.ts:45`) is recorded only as the last effect in the trace.
  Its effect on the table is not modelled.
- Persistence of the stores to localStorage and sessionStorage, and `wait()`.
- The score meter's floating-point ring geometry. Scores are integers, which makes
  `Math.round` integer round-half-up.
- `privacyMode` and `selectedModel` are stored but never sent: the card calls
  `analyzeSubmission` with three arguments, so `model` stays absent.
- `Supabase.checkConnection` (`src/lib/supabase.ts`) is not part of this model.
- The `AuthSession` type is declared but used by no operation, so it has no behaviour to model.
