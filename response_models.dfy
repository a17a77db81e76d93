// The records of the response service: stored responses and their answers,
// the survey definition it fetches from the survey service, and the
// analytics report it builds.
module ResponseModels {

  import opened Common

  /** A point in time, kept opaque. */
  type Time = int

  /** The dynamic value of an answer (`interface{}` in the service).  The
      three list shapes are distinct Go types: `StoredList` is `primitive.A`,
      the type the document store decodes an array into; `AnyList` is
      `[]interface{}`, what `encoding/json` decodes an array into;
      `StringList` is `[]string`.  `Other` is any remaining value, with the
      text `%v` prints for it. */
  datatype Value =
    | Str(s: string)
    | Num(x: real)
    | StoredList(items: seq<Value>)
    | AnyList(items: seq<Value>)
    | StringList(strings: seq<string>)
    | Nil
    | Other(shown: string)

  datatype Answer = Answer(questionID: int, value: Value)

  /** A stored response; `id` is the hexadecimal text of its object ID. */
  datatype Response = Response(
    id: string,
    surveyID: int,
    userID: Option<int>,
    submittedAt: Time,
    answers: seq<Answer>)

  datatype CreateResponseRequest = CreateResponseRequest(surveyID: int, userID: Option<int>, answers: seq<Answer>)

  datatype OptionDetails = OptionDetails(id: int, text: string)

  datatype QuestionDetails = QuestionDetails(id: int, text: string, qtype: string, options: seq<OptionDetails>)

  /** The survey definition as the survey service returns it. */
  datatype SurveyDetails = SurveyDetails(
    id: int,
    title: string,
    description: string,
    isActive: bool,
    questions: seq<QuestionDetails>)

  /** One row of an options summary; the percentage is an exact ratio. */
  datatype OptionSummary = OptionSummary(optionID: Option<int>, optionText: string, count: int, percentage: real)

  /** `None` stands for a nil slice, `Some([])` for an empty one. */
  datatype QuestionAnalytics = QuestionAnalytics(
    questionID: int,
    questionText: string,
    questionType: string,
    optionsSummary: Option<seq<OptionSummary>>,
    textResponses: Option<seq<string>>)

  datatype SurveyAnalytics = SurveyAnalytics(
    surveyID: int,
    surveyTitle: string,
    totalResponses: int,
    questionAnalytics: seq<QuestionAnalytics>)
}
