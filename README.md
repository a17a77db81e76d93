# Survey platform core, modelled in Dafny

The survey platform is a set of Go micro-services. This project models the
parts that make decisions and proves properties of them:

- **Survey service.**
  - The authorization gate every survey operation passes, with the read access granted to active surveys.
  - The write paths that run a series of repository statements inside one transaction.
  - The HTTP handlers that read the caller's identity from the `X-User-ID` and `X-User-Roles` headers and turn service errors into status codes.
  - The in-memory repository that stands in for the database.
- **Response service.**
  - Submitting a response.
  - The per-question analytics report.
  - The two CSV exports: a wide one, with one row per response, and a long one, with one row per answer.
  - The HTTP handlers, with their own roles-header parser.
- **Auth service.**
  - The profile update, which merges a request into the stored user record.

Go errors are a datatype. It keeps the `%w` wrapping chain, so `errors.Is`
and `strings.Contains(err.Error(), …)` can be stated exactly.

Several things are parameters of the operations that use them:
- what the database, the document store or the survey service answered;
- the failure a transaction statement meets;
- how times and floating-point numbers print.

Go's `int`, `strconv.Atoi` (64-bit range) and `int(float64)` truncation are
written out explicitly.

One module per source file:

| file | module | models |
|---|---|---|
| common.dfy | Common | options, results, Go errors and `%w` chains |
| gostrings.dfy | GoStrings | the `strings` and `strconv` functions the services call |
| survey_models.dfy | SurveyModels | surveys, questions, options and requests |
| repository_mock.dfy | RepositoryMock | the map-backed survey repository and its transactions |
| survey_service.dfy | SurveyService | the gate and the survey operations |
| survey_handlers.dfy | SurveyHandlers | `getUserContext` and the survey handlers |
| response_models.dfy | ResponseModels | responses, answers, survey details and analytics records |
| analytics.dfy | ResponseAnalytics | `GetSurveyAnalytics` |
| csv_export.dfy | ResponseExport | the wide and the long CSV exports |
| response_handlers.dfy | ResponseHandlers | `SubmitResponse` and the response handlers |
| user_service.dfy | UserAccounts | `UserService.GetUserByID` and `UpdateUser` |

## Model

| member | source | states |
|---|---|---|
| Common.WrappedMessageEndsWithCause | survey-service/internal/service/service.go:147 | the message of an error wrapped with `%w` ends with the message of every error it wraps |
| GoStrings.WrappedMessageContains | response-service/internal/handlers/http.go:72 | a substring of a wrapped error's message stays visible through any number of `%w` wrappings, so the handlers' `strings.Contains` checks see it |
| GoStrings.AtoiItoa | survey-service/internal/handlers/survey_handler.go:30-39 | every 64-bit integer written in decimal is read back by `strconv.Atoi` |
| GoStrings.JoinSplit | response-service/internal/handlers/http.go:91 | joining the pieces of `strings.Split` with the separator gives the string back |
| GoStrings.SplitJoin | response-service/internal/handlers/http.go:91 | splitting a join of separator-free parts gives the parts back |
| GoStrings.FieldsOfJoin | response-service/internal/handlers/http.go:88 | `strings.Fields` of a space-join of non-empty, blank-free words gives the words back |
| GoStrings.Fields | response-service/internal/handlers/http.go:88 | every field is non-empty and free of whitespace |
| GoStrings.FieldsEmptyIff | response-service/internal/handlers/http.go:88 | `strings.Fields` is empty exactly when the string is all whitespace |
| GoStrings.TrimBracketed | response-service/internal/handlers/http.go:86 | `strings.Trim(s, "[]")` of a bracketed string whose ends are not brackets is the inside |
| RepositoryMock.OptionsWithout | survey-service/internal/repository/mock/repository_mock.go:323-335 | the options kept are exactly those of other questions, unchanged |
| RepositoryMock.QuestionsWithout | survey-service/internal/repository/mock/repository_mock.go:380-392 | the questions kept are exactly those of other surveys, unchanged |
| RepositoryMock.Paginate | survey-service/internal/repository/mock/repository_mock.go:148-158 | a page starts at the offset, holds at most `limit` items, and is empty past the end |
| RepositoryMock.SelectCountsKeptSurveys | survey-service/internal/repository/mock/repository_mock.go:136-190 | the total a list reports is the number of stored surveys the filter keeps, whatever order the map is visited in |
| RepositoryMock.SelectKeepsOnlyMatches | survey-service/internal/repository/mock/repository_mock.go:136-190 | every listed survey is a stored survey the filter keeps |
| RepositoryMock.AddKeepsDense | survey-service/internal/repository/mock/repository_mock.go:112-120 | while keys are exactly 1..n, a create takes the fresh key n+1 and keeps them dense |
| RepositoryMock.CreateAfterDeleteOverwrites | survey-service/internal/repository/mock/repository_mock.go:232-240 | after a delete, the `len+1` key rule hands out a key still in use and overwrites that record |
| RepositoryMock.Tx.Commit | survey-service/internal/service/service.go:176-183 | a rejected COMMIT restores the store as it was at BEGIN; an accepted one keeps it |
| RepositoryMock.Tx.Rollback | survey-service/internal/service/service.go:168-175 | ROLLBACK restores the store as it was at BEGIN |
| RepositoryMock.MockRepository.BeginTx | survey-service/internal/repository/mock/repository_mock.go:94-99 | the error switch, or a fault on BEGIN, fails the call; otherwise a transaction over the current store starts |
| RepositoryMock.MockRepository.CommitTx | survey-service/internal/repository/mock/repository_mock.go:101-104 | the error switch is returned, and the method may change nothing (no `modifies`), so the store is untouched |
| RepositoryMock.MockRepository.RollbackTx | survey-service/internal/repository/mock/repository_mock.go:106-109 | the error switch is returned, and the store is untouched: this rollback undoes nothing |
| RepositoryMock.MockRepository.CreateSurvey | survey-service/internal/repository/mock/repository_mock.go:112-120 | with the error switch off, the survey is stored under `len+1` and that key is returned; with it on, nothing changes |
| RepositoryMock.MockRepository.GetSurvey | survey-service/internal/repository/mock/repository_mock.go:123-133 | a missing survey is "no survey", not an error; only the error switch fails |
| RepositoryMock.MockRepository.List | survey-service/internal/repository/mock/repository_mock.go:136-190 | the filter-then-slice loop returns the page of the selected surveys and their total |
| RepositoryMock.MockRepository.ListSurveysByCreatorID | survey-service/internal/repository/mock/repository_mock.go:136-161 | the page and total of the creator's surveys |
| RepositoryMock.MockRepository.ListAllSurveys | survey-service/internal/repository/mock/repository_mock.go:164-190 | the page and total of the surveys an admin, or anyone for active ones, may see |
| RepositoryMock.MockRepository.UpdateSurvey | survey-service/internal/repository/mock/repository_mock.go:193-204 | the stored record is replaced as sent, and an unknown ID changes nothing |
| RepositoryMock.MockRepository.DeleteSurvey | survey-service/internal/repository/mock/repository_mock.go:207-214 | one survey is removed, and its questions and options stay |
| RepositoryMock.MockRepository.UpdateSurveyStatus | survey-service/internal/repository/mock/repository_mock.go:217-229 | only the active flag of the survey changes |
| RepositoryMock.MockRepository.CreateQuestion | survey-service/internal/repository/mock/repository_mock.go:232-240 | the question is stored under `len+1` and that key is returned |
| RepositoryMock.MockRepository.GetQuestionByID | survey-service/internal/repository/mock/repository_mock.go:243-253 | a missing question is "no question", not an error |
| RepositoryMock.MockRepository.GetQuestionsBySurveyID | survey-service/internal/repository/mock/repository_mock.go:256-269 | the questions of the survey, in visiting order |
| RepositoryMock.MockRepository.UpdateQuestion | survey-service/internal/repository/mock/repository_mock.go:272-283 | the stored question is replaced |
| RepositoryMock.MockRepository.DeleteQuestion | survey-service/internal/repository/mock/repository_mock.go:286-293 | one question is removed, and its options stay |
| RepositoryMock.MockRepository.CreateQuestionOption | survey-service/internal/repository/mock/repository_mock.go:296-304 | the option is stored under `len+1` |
| RepositoryMock.MockRepository.GetQuestionOptionsByQuestionID | survey-service/internal/repository/mock/repository_mock.go:307-320 | the options of the question, in visiting order |
| RepositoryMock.MockRepository.DeleteQuestionOptions | survey-service/internal/repository/mock/repository_mock.go:323-335 | the delete-while-iterating loop removes exactly the question's options |
| RepositoryMock.MockRepository.DeleteQuestionsBySurveyID | survey-service/internal/repository/mock/repository_mock.go:380-392 | the delete-while-iterating loop removes exactly the survey's questions |
| RepositoryMock.MockRepository.CreateSurveyTx | survey-service/internal/repository/mock/repository_mock.go:340-342 | a statement of the transaction: rejected by the fault, failed by the error switch, or the plain create |
| RepositoryMock.MockRepository.UpdateSurveyTx | survey-service/internal/repository/mock/repository_mock.go:345-347 | as above, for the survey update |
| RepositoryMock.MockRepository.CreateQuestionTx | survey-service/internal/repository/mock/repository_mock.go:350-352 | as above, for the question create |
| RepositoryMock.MockRepository.GetQuestionsBySurveyIDTx | survey-service/internal/repository/mock/repository_mock.go:355-357 | as above, for the question list |
| RepositoryMock.MockRepository.UpdateQuestionTx | survey-service/internal/repository/mock/repository_mock.go:360-362 | as above, for the question update |
| RepositoryMock.MockRepository.DeleteQuestionTx | survey-service/internal/repository/mock/repository_mock.go:365-367 | as above, for the question delete |
| RepositoryMock.MockRepository.CreateQuestionOptionTx | survey-service/internal/repository/mock/repository_mock.go:370-372 | as above, for the option create |
| RepositoryMock.MockRepository.DeleteQuestionOptionsTx | survey-service/internal/repository/mock/repository_mock.go:375-377 | as above, for the options delete |
| RepositoryMock.MockRepository.DeleteQuestionsBySurveyIDTx | survey-service/internal/repository/mock/repository_mock.go:380-392 | as above, for the questions delete |
| SurveyService.UserAndRoles | survey-service/internal/service/service.go:77-93 | the identity is found exactly when an `int` user ID and a `[]string` roles value are both present; a missing ID is reported before missing roles |
| SurveyService.GateGrantsAdminsAndOwners | survey-service/internal/service/service.go:107-141 | access is granted exactly to admins and to the creator of an existing survey, and the granted survey is the stored one |
| SurveyService.MissingSurveyIsNotFoundEvenForAdmin | survey-service/internal/service/service.go:115-131 | the survey is fetched before roles are looked at: a missing survey is "not found" even for an admin |
| SurveyService.StrangerIsForbidden | survey-service/internal/service/service.go:129-140 | a non-admin who is not the creator is forbidden |
| SurveyService.ContextErrorIsDistinct | survey-service/internal/service/service.go:108-112 | a bad identity is an authorization-context error, neither forbidden nor not-found |
| SurveyService.ReadAccessRule | survey-service/internal/service/service.go:249-272 | with a valid identity, a survey is read exactly when it exists and is active or the caller is its owner or an admin |
| SurveyService.ReadAccessKeepsOtherDenials | survey-service/internal/service/service.go:249-272 | the read relaxation only lifts "forbidden" |
| SurveyService.TextOptions | survey-service/internal/service/service.go:220-226 | options are made from the texts in order, numbered from 1 |
| SurveyService.RequestedAreTheSurveysQuestions | survey-service/internal/service/service.go:196-235 | added to a store with none of the survey's questions, the survey's questions are exactly the requested ones, at the next keys |
| SurveyService.RequestedQuestionAt | survey-service/internal/service/service.go:198-235 | entry i of the request becomes question `n+i+1`, numbered `i+1`, with its options following |
| SurveyService.RequestedOptionAt | survey-service/internal/service/service.go:218-232 | option j of entry i lands after all options of the earlier entries, attached to its question |
| SurveyService.RequestIdsIgnored | survey-service/internal/service/service.go:198-206 | the `id` and `orderNum` a request carries for a question change nothing |
| SurveyService.RewriteKeepsCreator | survey-service/internal/service/service.go:315 | a rewrite keeps the survey's creator, whatever the request says |
| SurveyService.RewriteLeavesOnlyRequested | survey-service/internal/service/service.go:309-418 | when the questions left after the delete hold keys 1..n, the survey's questions after a rewrite are exactly the requested ones |
| SurveyService.RewritePlacesRequested | survey-service/internal/service/service.go:309-418 | when the questions left after the delete hold keys 1..n, the requested questions follow in request order under keys n+1.. |
| SurveyService.RewriteKeepsOtherSurveys | survey-service/internal/service/service.go:309-418 | when the questions left after the delete hold keys 1..n, a rewrite leaves the questions of other surveys untouched |
| SurveyService.QuestionRewriteLeavesOnlyGiven | survey-service/internal/service/service.go:497-542 | when the options left after the delete hold keys 1..n, the question's options after `UpdateQuestion` are exactly the given ones |
| SurveyService.QuestionRewritePlacesGiven | survey-service/internal/service/service.go:497-542 | when the options left after the delete hold keys 1..n, the given options follow in list order under keys n+1.. |
| SurveyService.QuestionRewriteKeepsOtherOptions | survey-service/internal/service/service.go:497-542 | when the options left after the delete hold keys 1..n, the options of other questions are untouched |
| SurveyService.RewriteOverwritesLaterSurvey | survey-service/internal/service/service.go:309-418 | with survey 2 created after survey 1, rewriting survey 1 stores its new question over survey 2's question, which is lost |
| SurveyService.QuestionRewriteOverwritesLaterOptions | survey-service/internal/service/service.go:497-542 | with question 2's option stored after question 1's, rewriting question 1 stores its new option over question 2's option, which is lost |
| SurveyService.UpdateQuestionCrossesSurveys | survey-service/internal/service/service.go:497-542 | as written, the owner of one survey can move another survey's question into their own |
| SurveyService.CheckedRewriteKeepsOwners | survey-service/internal/service/service.go:497-542 | with the stored survey checked, no question ever changes survey |
| SurveyService.SurveyService.ContainsString | survey-service/internal/service/service.go:96-103 | the scan finds the string exactly when it is in the list |
| SurveyService.SurveyService.Authorize | survey-service/internal/service/service.go:107-141 | `authorizeSurveyAccess` decides as the gate does on what the repository returns |
| SurveyService.SurveyService.GetSurvey | survey-service/internal/service/service.go:249-272 | the result is the read-access decision |
| SurveyService.SurveyService.UpdateSurvey | survey-service/internal/service/service.go:297-306 | a refusal changes nothing; otherwise the record is replaced as sent |
| SurveyService.SurveyService.DeleteSurvey | survey-service/internal/service/service.go:421-429 | a refusal changes nothing; otherwise exactly the survey is removed |
| SurveyService.SurveyService.UpdateSurveyStatus | survey-service/internal/service/service.go:486-493 | a refusal changes nothing; otherwise only the active flag changes |
| SurveyService.SurveyService.CreateSurvey | survey-service/internal/service/service.go:144-246 | the identity error, the begin error, and otherwise the survey with its questions stored in one transaction that is rolled back on any failed statement |
| SurveyService.SurveyService.UpdateSurveyWithQuestions | survey-service/internal/service/service.go:309-418 | after the gate: record replaced keeping its creator, all questions deleted, the requested ones recreated, all or nothing |
| SurveyService.SurveyService.AddQuestion | survey-service/internal/service/service.go:432-483 | after the gate: the question and its options are added, all or nothing |
| SurveyService.SurveyService.UpdateQuestion | survey-service/internal/service/service.go:497-542 | a nil question is refused; the gate is asked about the body's survey ID; then the question is replaced with its options, all or nothing |
| SurveyService.SurveyService.UpdateQuestionChecked | survey-service/internal/service/service.go:497-542 | the corrected update authorizes against the survey the question is stored under and keeps it there |
| SurveyService.SurveyService.DeleteQuestion | survey-service/internal/service/service.go:546-562 | a question is deleted only after the gate passes for the survey it is stored under |
| SurveyHandlers.GetUserContext | survey-service/internal/handlers/survey_handler.go:29-76 | the filtering loop builds the context `UserContext` describes |
| SurveyHandlers.UserIDHeaderRule | survey-service/internal/handlers/survey_handler.go:30-39 | a context is built exactly when the user-ID header is a valid integer; missing and invalid headers give their own errors |
| SurveyHandlers.UserIDHeaderRoundTrip | survey-service/internal/handlers/survey_handler.go:30-39 | every 64-bit user ID written in decimal is read back |
| SurveyHandlers.HandlerContextIsComplete | survey-service/internal/handlers/survey_handler.go:41-75 | a context built from the headers always passes the service's identity check |
| SurveyHandlers.RolesAreWords | survey-service/internal/handlers/survey_handler.go:58-70 | the roles a context receives are non-empty and hold no space |
| SurveyHandlers.BracketedRolesRoundTrip | survey-service/internal/handlers/survey_handler.go:41-70 | "[r1 r2 …]" is read back as the roles |
| SurveyHandlers.EmptyBracketsIsARole | survey-service/internal/handlers/survey_handler.go:45-50 | "[]" is too short to be unbracketed and is read as the role "[]" |
| SurveyHandlers.UnbracketedRolesRule | survey-service/internal/handlers/survey_handler.go:41-70 | a header without brackets is split at single spaces, dropping empty entries |
| SurveyHandlers.Classify | survey-service/internal/handlers/survey_handler.go:162-171 | every error maps to 404, 403 or 500 |
| SurveyHandlers.ClassifySentinels | survey-service/internal/handlers/survey_handler.go:162-171 | the not-found sentinel gives 404 and the forbidden one 403, through any wrapping |
| SurveyHandlers.ContextErrorsReadAsNotFound | survey-service/internal/handlers/survey_handler.go:162-171 | an identity error from the service would be reported as a missing survey |
| SurveyHandlers.DenialStatus | survey-service/internal/handlers/survey_handler.go:162-171 | behind header-built contexts, refusals are exactly 404 for missing surveys and 403 for strangers |
| SurveyHandlers.AddQuestionMissingSurvey | survey-service/internal/handlers/survey_handler.go:325-334 | a missing survey still reads as 404 "Survey not found or not authorized" after `AddQuestion` wraps it |
| SurveyHandlers.ReadReplyStatus | survey-service/internal/handlers/survey_handler.go:142-183 | with valid headers a survey is served with 200 exactly when it exists and the caller may read it |
| SurveyHandlers.SurveyHandler.GetSurvey | survey-service/internal/handlers/survey_handler.go:142-183 | bad ID 400, bad headers 401, otherwise the reply to the read decision |
| SurveyHandlers.SurveyHandler.CreateSurvey | survey-service/internal/handlers/survey_handler.go:79-115 | the body is bound before the headers are read; the service outcome becomes 201, 403 or 500 |
| SurveyHandlers.SurveyHandler.UpdateSurvey | survey-service/internal/handlers/survey_handler.go:186-230 | the path ID replaces the body's, and the service outcome becomes its status |
| SurveyHandlers.SurveyHandler.DeleteSurvey | survey-service/internal/handlers/survey_handler.go:233-259 | the service outcome becomes 200, 404, 403 or 500 |
| SurveyHandlers.SurveyHandler.UpdateSurveyStatus | survey-service/internal/handlers/survey_handler.go:262-299 | a body without `is_active` is refused with 400, and the service outcome becomes its status |
| SurveyHandlers.SurveyHandler.AddQuestion | survey-service/internal/handlers/survey_handler.go:304-339 | the path's survey ID replaces the body's, and the service outcome becomes its status |
| ResponseAnalytics.OptionTextMapIsLast | response-service/internal/service/service.go:175-183 | the option-text index maps each text to the ID of the last option carrying it |
| ResponseAnalytics.TextIndexOwn | response-service/internal/service/service.go:175-183 | a question no later question shares an ID with is indexed by its own options |
| ResponseAnalytics.FirstAnswerIsFirst | response-service/internal/service/service.go:227-240 | only the first answer to a question in a response is looked at |
| ResponseAnalytics.GetTally | response-service/internal/service/service.go:225-241 | a tally adds one to an option per vote for it |
| ResponseAnalytics.GetCheckboxTally | response-service/internal/service/service.go:258-281 | a known option is counted once per list element naming it; unknown IDs are never counted |
| ResponseAnalytics.ScalePointNumbers | response-service/internal/service/service.go:294-297 | the scale points are 1 to 5, each labelled with its decimal text |
| ResponseAnalytics.TextResponses | response-service/internal/service/service.go:328-337 | at most one text per response, and never an empty one |
| ResponseAnalytics.QuestionReport | response-service/internal/service/service.go:211-343 | choice and checkbox questions get one row per option with its ID and text; scale questions get five rows "1"…"5"; text questions get a text list and no rows; other types get neither |
| ResponseAnalytics.ZeroReport | response-service/internal/service/service.go:185-208 | with no responses, rows carry zero counts, scale rows are "1"…"5", and no question gets a text list |
| ResponseAnalytics.Analytics | response-service/internal/service/service.go:166-347 | the report names the survey, counts the responses, and has one entry per question in order |
| ResponseAnalytics.FindAnswer | response-service/internal/service/service.go:227-240 | the scan stops at the first answer to the question |
| ResponseAnalytics.BuildTextIndex | response-service/internal/service/service.go:175-183 | the nested loops build the option-text index |
| ResponseAnalytics.CountChoice | response-service/internal/service/service.go:220-241 | the counting loop gives the tally of the choice votes and the number of responders |
| ResponseAnalytics.TallyItems | response-service/internal/service/service.go:267-279 | the inner loop counts the list elements that name a known option |
| ResponseAnalytics.CountCheckbox | response-service/internal/service/service.go:253-281 | the counting loop gives the checkbox tally and the number of non-empty lists |
| ResponseAnalytics.CountScale | response-service/internal/service/service.go:293-316 | the counting loop gives the tally of truncated values in 1..5 and the number of responders |
| ResponseAnalytics.BuildRows | response-service/internal/service/service.go:243-251 | one row per option, with the percentage over the responders |
| ResponseAnalytics.BuildScaleRows | response-service/internal/service/service.go:318-326 | the five scale rows |
| ResponseAnalytics.CollectTexts | response-service/internal/service/service.go:328-337 | the non-empty texts, in response order |
| ResponseAnalytics.SummarizeQuestion | response-service/internal/service/service.go:211-343 | the summary of one question over at least one response |
| ResponseAnalytics.SummarizeUnanswered | response-service/internal/service/service.go:186-206 | the summary of one question with no responses |
| ResponseAnalytics.GetSurveyAnalytics | response-service/internal/service/service.go:152-348 | the two fetch errors are wrapped; otherwise the report |
| ResponseAnalytics.RowSums | response-service/internal/service/service.go:243-251 | a summary's counts add up to its options' counts, and so do its percentages |
| ResponseAnalytics.ChoiceRowsAddUp | response-service/internal/service/service.go:220-251 | for a choice question with distinct option IDs, counts add up to at most the responses, and percentages to 100 once anyone answered |
| ResponseAnalytics.DuplicateTextLosesVotes | response-service/internal/service/service.go:175-183 | of two options with the same text, the earlier one never receives a vote |
| ResponseAnalytics.ScaleRowsAddUp | response-service/internal/service/service.go:293-326 | the five counts add up to the responders, and percentages to 100 once anyone answered |
| ResponseAnalytics.CheckboxRowCounts | response-service/internal/service/service.go:253-291 | a checkbox row counts every naming element, repeats included, and its percentage is over the non-empty lists |
| ResponseAnalytics.CheckboxRepeatCountsTwice | response-service/internal/service/service.go:262-291 | one response listing an option twice gives that option count 2 and 200% |
| ResponseExport.ShowStrs | response-service/internal/service/service.go:421-425 | `%v` of a string prints the string |
| ResponseExport.Header | response-service/internal/service/service.go:376-384 | the header has three fixed columns plus one per question |
| ResponseExport.HeaderNames | response-service/internal/service/service.go:376-384 | the header is "ResponseID", "SubmittedAt", "UserID", then the question texts in order |
| ResponseExport.ColumnsOfLast | response-service/internal/service/service.go:378-384 | an answer's column and type come from the last question with its ID |
| ResponseExport.ColumnsInHeader | response-service/internal/service/service.go:378-384 | every answer column lies inside the row, after the fixed columns |
| ResponseExport.WideCellDependsOnListType | response-service/internal/service/service.go:414-425 | as written, a stored checkbox list prints as "[1 2]" while a decoded one prints "1; 2" |
| ResponseExport.WideCellIgnoresListType | response-service/internal/service/service.go:409-429 | the corrected cell depends only on the list's elements, joined with "; " |
| ResponseExport.StartRow | response-service/internal/service/service.go:393-403 | a fresh row has the header's width |
| ResponseExport.FillLastWins | response-service/internal/service/service.go:405-433 | a column holds the cell of the last answer written into it, and is empty if there is none |
| ResponseExport.WideRowCells | response-service/internal/service/service.go:392-433 | every row is as wide as the header and starts with the response ID, time and user ("Anonymous" for none) |
| ResponseExport.WideExportShape | response-service/internal/service/service.go:352-451 | the header row, then one row per response, all as wide as the header |
| ResponseExport.BuildHeader | response-service/internal/service/service.go:376-384 | the header loop and the ID-to-column and ID-to-type maps |
| ResponseExport.BuildWideRow | response-service/internal/service/service.go:392-433 | the row is built in place in an array of empty cells |
| ResponseExport.ExportSurveyResponsesCSV | response-service/internal/service/service.go:352-451 | the two fetch errors are wrapped with the survey ID; otherwise the table |
| ResponseExport.LongValueDependsOnListType | response-service/internal/handlers/response_handler.go:121-139 | as written, a stored list prints as "[a b]" while a decoded one prints "a,b" |
| ResponseExport.LongValueIgnoresListType | response-service/internal/handlers/response_handler.go:121-139 | the corrected value depends only on the list's elements, and a comma-free list is split back by its commas |
| ResponseExport.AnswerRows | response-service/internal/handlers/response_handler.go:119-152 | one row per answer |
| ResponseExport.LongRowsPlace | response-service/internal/handlers/response_handler.go:114-153 | answer j of response i is the row after all answers of earlier responses, with its five cells |
| ResponseExport.LongRowsCount | response-service/internal/handlers/response_handler.go:114-153 | one row per answer over all responses |
| ResponseExport.LongExport | response-service/internal/handlers/response_handler.go:74-165 | 400 for a bad ID, 500 for a failed fetch, otherwise the five-column header followed by one row per answer |
| ResponseExport.WriteAnswerRows | response-service/internal/handlers/response_handler.go:119-152 | the inner loop appends the rows of one response |
| ResponseExport.WriteLongRows | response-service/internal/handlers/response_handler.go:114-153 | the outer loop appends the rows of every response in order |
| ResponseExport.ExportLongCSV | response-service/internal/handlers/response_handler.go:74-165 | the handler sends what `LongExport` describes |
| ResponseHandlers.ParseRolesHeader | response-service/internal/handlers/http.go:85-97 | unless the comma-split is taken, no role is empty |
| ResponseHandlers.PrintedRolesRoundTrip | response-service/internal/handlers/http.go:85-97 | the "[r1 r2 …]" form `%v` prints is read back as the roles |
| ResponseHandlers.CommaRolesRoundTrip | response-service/internal/handlers/http.go:90-92 | a comma list of two or more roles is read back, empty entries included |
| ResponseHandlers.EmptyBracketsAreNoRoles | response-service/internal/handlers/http.go:85-97 | no header and "[]" both give no roles, where the survey handlers read "[]" as a role |
| ResponseHandlers.HeaderRoles | response-service/internal/handlers/http.go:56-68 | roles go into the context exactly when the header parses to some |
| ResponseHandlers.UserIDPrecedence | response-service/internal/handlers/http.go:39-54 | a valid user-ID header overrides the body's user; an invalid one leaves the body's user but no context ID; no header passes the body's user on |
| ResponseHandlers.SubmitStoresOnlyForActiveSurveys | response-service/internal/service/service.go:106-143 | a submission succeeds exactly when the survey was fetched, is active and the insert works, and only then stores the request's response |
| ResponseHandlers.ResponseService.SubmitResponse | response-service/internal/service/service.go:106-143 | the error and the stored responses are what `Submit` describes |
| ResponseHandlers.SubmitFailure | response-service/internal/handlers/http.go:70-78 | 403 exactly when the message says "not active" or "not found", otherwise 500 |
| ResponseHandlers.SubmitRefusals | response-service/internal/handlers/http.go:70-78 | an inactive survey, or a details error saying "not found", gives 403 through the wrapping |
| ResponseHandlers.ReadFailure | response-service/internal/handlers/http.go:217-225 | 404 exactly when the message says "not found", otherwise 500 |
| ResponseHandlers.AnalyticsStatus | response-service/internal/handlers/http.go:195-228 | a survey lookup failing with "not found" gives 404; with both fetches done, 200 with the report |
| ResponseHandlers.ExportStatus | response-service/internal/handlers/http.go:132-192 | a survey lookup failing with "not found" gives 404; a success sends one row per response after the header |
| ResponseHandlers.ResponseHandler.SubmitResponse | response-service/internal/handlers/http.go:28-82 | bind errors give 400; the response is stored with the precedence user; the outcome becomes 201, 403 or 500 |
| ResponseHandlers.ResponseHandler.ApplySubmitHeaders | response-service/internal/handlers/http.go:37-68 | the request and the context after the identity headers |
| ResponseHandlers.ResponseHandler.ReadContext | response-service/internal/handlers/http.go:108-120 | the read handlers forward a user ID only from a valid header |
| ResponseHandlers.ResponseHandler.GetSurveyResponses | response-service/internal/handlers/http.go:100-129 | 400 for a bad ID, 500 with the error, or 200 with the responses |
| ResponseHandlers.ResponseHandler.ExportSurveyResponsesCSV | response-service/internal/handlers/http.go:132-192 | 400 for a bad ID; the authorization header is forwarded; 404, 500 or 200 with the table |
| ResponseHandlers.ResponseHandler.GetSurveyAnalytics | response-service/internal/handlers/http.go:195-228 | 400 for a bad ID; 404, 500 or 200 with the report |
| UserAccounts.Lookup | auth-service/internal/service/user.go:40-43 | the record is found exactly when the query works and the ID is stored |
| UserAccounts.Merge | auth-service/internal/service/user.go:45-61 | email changes only to a non-empty, different address; empty names are kept; ID, username, password, active flag and roles never change |
| UserAccounts.UpdateTouchesOnlyTheProfile | auth-service/internal/service/user.go:34-70 | an update changes at most the caller's record, stores exactly what it returns, and stores nothing on error |
| UserAccounts.UpdateFailsOnlyWhen | auth-service/internal/service/user.go:34-70 | an update fails exactly when the lookup fails, the new email is taken, or the save fails |
| UserAccounts.UpdateKeepsEmailsUnique | auth-service/internal/service/user.go:46-52 | when the email lookup works, no two users ever share an email |
| UserAccounts.MergeIdempotent | auth-service/internal/service/user.go:45-61 | sending the same update twice leaves the record as the first did |
| UserAccounts.UserService.GetUserByID | auth-service/internal/service/user.go:25-31 | the stored record, or the lookup's error wrapped in "error getting user: " |
| UserAccounts.UserService.UpdateUser | auth-service/internal/service/user.go:34-70 | the field-by-field update returns and stores what `UpdateOutcome` describes |

## Left out

- The listing operation `GetSurveys` of the survey service and its handler: they only pass the repository's list through, and the repository list is modelled.
- The HTTP request `getSurveyDetails` that fetches a survey from the survey service: its outcome is a parameter, a survey or an error.
- The SQL and document-store repositories: the survey side uses the in-memory repository, and the response side takes what the store returned as a parameter.
- The mock's transaction methods ignore their transaction: the model adds a fault parameter that rejects one statement, so that the rollback paths are reachable. On a fault, ROLLBACK and a rejected COMMIT restore the BEGIN state as a database transaction does (`Tx.Rollback`, `Tx.Commit`); the mock's `MockTx` undoes nothing, and without a fault the two agree. The all-or-nothing clauses of SurveyService.SurveyService.CreateSurvey, UpdateSurveyWithQuestions, AddQuestion and UpdateQuestion therefore describe the database behaviour, which the mock alone never reaches.
- Panic recovery in the deferred rollback is not modelled.
- Floating point: percentages are exact ratios, and `int(float64)` is truncation toward zero on reals, with no NaN, infinities or overflow.
- How times, object IDs and numbers print (`%v`, RFC 3339) is a parameter.
- CSV quoting and the writer's errors, which cannot happen on an in-memory buffer, are not modelled; the exports produce the table of cells.
- The export file name, which depends on the clock, is not modelled.
- JSON binding and its validation tags are a parameter: a bound body or the binding error's text.
- Go pointers are values; aliasing between the request and the stored record is not modelled.
- Logging is left out.
- SurveyService.RewriteLeavesOnlyRequested: holds only when the questions left after deleting the survey's own hold keys 1..n; otherwise the `len+1` rule overwrites live questions (`RewriteOverwritesLaterSurvey`).
- SurveyService.RewritePlacesRequested: holds only under the same condition on the remaining question keys.
- SurveyService.RewriteKeepsOtherSurveys: holds only under the same condition; when another survey's question has a higher key, a rewrite overwrites it (`RewriteOverwritesLaterSurvey`).
- SurveyService.QuestionRewriteLeavesOnlyGiven: holds only when the options left after deleting the question's own hold keys 1..n; otherwise the `len+1` rule overwrites live options (`QuestionRewriteOverwritesLaterOptions`).
- SurveyService.QuestionRewritePlacesGiven: holds only under the same condition on the remaining option keys.
- SurveyService.QuestionRewriteKeepsOtherOptions: holds only under the same condition; when another question's option has a higher key, `UpdateQuestion` overwrites it (`QuestionRewriteOverwritesLaterOptions`).
- RepositoryMock.Paginate: Go panics when the offset is negative, or when the offset is below the length and the limit is negative; the model requires these inputs away (`PageInBounds`) instead of modelling the panic.
- RepositoryMock: properties of the create paths assume the keys are exactly 1..n (`Dense`), because the mock's `len+1` rule breaks after a delete (`CreateAfterDeleteOverwrites`).
- SurveyService.SurveyService.CreateSurvey: a rejected COMMIT is only logged and the call still reports success; the model does the same.
- ResponseExport.ExportSurveyResponsesCSV: the answer cells use the corrected `WideCell`, so a checkbox list stored as `primitive.A` reads "1; 2" where the program prints "[1 2]" (`WideCellDependsOnListType`).
- ResponseExport.FillLastWins: the answer cells use the corrected `WideCell`, so a checkbox list stored as `primitive.A` reads "1; 2" where the program prints "[1 2]" (`WideCellDependsOnListType`).
- ResponseExport.WideRowCells: the answer cells use the corrected `WideCell`, so a checkbox list stored as `primitive.A` reads "1; 2" where the program prints "[1 2]" (`WideCellDependsOnListType`).
- ResponseExport.BuildWideRow: the answer cells use the corrected `WideCell`, so a checkbox list stored as `primitive.A` reads "1; 2" where the program prints "[1 2]" (`WideCellDependsOnListType`).
- ResponseHandlers.ResponseHandler.ExportSurveyResponsesCSV: the 200 body is the wide export, whose answer cells use the corrected `WideCell`, so a checkbox list stored as `primitive.A` reads "1; 2" where the program prints "[1 2]" (`WideCellDependsOnListType`).
- ResponseExport.ExportLongCSV: the value cell uses the corrected `LongValue`, so a list stored as `primitive.A` reads "a,b" where the program prints "[a b]" (`LongValueDependsOnListType`).
- ResponseExport.AnswerRows: the value cell uses the corrected `LongValue`, so a list stored as `primitive.A` reads "a,b" where the program prints "[a b]" (`LongValueDependsOnListType`).
- ResponseExport.LongRowsPlace: the value cell uses the corrected `LongValue`, so a list stored as `primitive.A` reads "a,b" where the program prints "[a b]" (`LongValueDependsOnListType`).
- ResponseExport.LongExport: the value cell uses the corrected `LongValue`, so a list stored as `primitive.A` reads "a,b" where the program prints "[a b]" (`LongValueDependsOnListType`).
- ResponseExport.WriteAnswerRows: the value cell uses the corrected `LongValue`, so a list stored as `primitive.A` reads "a,b" where the program prints "[a b]" (`LongValueDependsOnListType`).
- ResponseExport.WriteLongRows: the value cell uses the corrected `LongValue`, so a list stored as `primitive.A` reads "a,b" where the program prints "[a b]" (`LongValueDependsOnListType`).
- UserAccounts.UserService.UpdateUser: a failing email lookup is a boolean parameter, and is read as "nobody holds the email", as the code does.
- The update that the code performs where the written description says questions keep their IDs: the code deletes all questions and recreates them, and the model follows the code.
- Checkbox answers are matched on option IDs, as in the code, where the description speaks of option texts.
- The description mentions an average for linear scales; the code computes none, and neither does the model.
- The description promises an empty text list for text questions when there are no responses; the code leaves it nil, and so does the model.

## Findings

| source | as written | input that shows it | evidently intended | confidence | as-written member | corrected member |
|---|---|---|---|---|---|---|
| survey-service/internal/service/service.go:497-542 | `UpdateQuestion` authorizes against the survey ID in the request body, then rewrites the stored question under that ID | the owner of survey 2 sends question 1, which belongs to survey 1, with `SurveyID: 2` | authorize against the survey the question is stored under, and keep it there | high, not executed | SurveyService.UpdateQuestionCrossesSurveys | SurveyService.CheckedRewriteKeepsOwners |
| response-service/internal/service/service.go:414-425 | the wide export joins a checkbox list only when it is `[]interface{}` or `[]string` | a checkbox answer read from the store as `primitive.A{"1","2"}` prints as "[1 2]" | join the elements with "; " whatever the list type, as analytics counts that same list | medium, not executed | ResponseExport.WideCellDependsOnListType | ResponseExport.WideCellIgnoresListType |
| response-service/internal/handlers/response_handler.go:121-139 | the long export joins a list only when it is `[]interface{}` or `[]string` | an answer read from the store as `primitive.A{"a","b"}` prints as "[a b]" | join the elements with "," whatever the list type | medium, not executed | ResponseExport.LongValueDependsOnListType | ResponseExport.LongValueIgnoresListType |
