// The records of the survey service: surveys, their questions and the
// options of a question, plus the request shapes the service accepts.
module SurveyModels {

  import opened Common

  /** A point in time, kept opaque (nanoseconds since an epoch). */
  type Time = int

  datatype Survey = Survey(
    id: int,
    creatorID: int,
    title: string,
    description: string,
    isActive: bool,
    startDate: Time,
    endDate: Time)

  datatype Question = Question(
    id: int,
    surveyID: int,
    text: string,
    qtype: string,
    required: bool,
    orderNum: int)

  datatype QuestionOption = QuestionOption(
    id: int,
    questionID: int,
    text: string,
    orderNum: int)

  /** One entry of the question list sent with a survey create or update.
      `id` and `orderNum` are accepted but never used by the service. */
  datatype QuestionUpdateRequest = QuestionUpdateRequest(
    id: Option<int>,
    text: string,
    qtype: string,
    required: bool,
    orderNum: int,
    options: seq<string>)

  datatype CreateQuestionOptionRequest = CreateQuestionOptionRequest(text: string, orderNum: int)

  datatype CreateQuestionRequest = CreateQuestionRequest(
    surveyID: int,
    text: string,
    qtype: string,
    required: bool,
    orderNum: int,
    options: seq<CreateQuestionOptionRequest>)
}
