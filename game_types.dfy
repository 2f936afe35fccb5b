/** The records shared by every part of the quiz: questions of the catalog,
    the answers a player gives, and the session state the flow controller owns.
    Fields that are optional in the source (`?:`) are `Option`s here. */
module GameTypes {

  datatype Option<+T> = None | Some(value: T)

  datatype QuestionType = Choice | Text | Scale

  /** One multiple-choice option; `hiddenValue` is the tag only scoring reads. */
  datatype ChoiceOption = ChoiceOption(id: string, text: string, hiddenValue: string)

  datatype ScaleLabels = ScaleLabels(left: string, right: string)

  datatype Question = Question(
    id: string,
    qtype: QuestionType,
    prompt: string,
    subtext: Option<string>,
    options: Option<seq<ChoiceOption>>,
    scaleLabels: Option<ScaleLabels>)

  /** An answer's value is either a string (choice id, free text) or a number (scale). */
  datatype AnswerValue = Str(s: string) | Num(n: int)

  datatype Answer = Answer(questionId: string, value: AnswerValue, hiddenMeaning: Option<string>)

  datatype Phase = Intro | Name | Questions | Cutscene | Loading | Result

  /** `currentQuestionIndex` starts at 0 and is only ever incremented, hence `nat`. */
  datatype GameState = GameState(
    playerName: string,
    currentPhase: Phase,
    currentQuestionIndex: nat,
    answers: seq<Answer>)
}
