/** The records shared by the authoring pages and the host engine (src/lib/types.ts and the player rows). */
module QuizTypes {
  import opened Wrappers

  /** An answer option as stored with a question and loaded by the host: an immutable value. */
  datatype Choice = Choice(id: string, text: string, isCorrect: bool)

  /** An answer option while a quiz is being edited: a mutable object, shared between
      shallow copies of the options array. */
  class OptionCell {
    var id: string
    var text: string
    var isCorrect: bool

    constructor (id: string, text: string, isCorrect: bool)
      ensures this.id == id && this.text == text && this.isCorrect == isCorrect
    {
      this.id := id;
      this.text := text;
      this.isCorrect := isCorrect;
    }
  }

  /** The time limit, in seconds, of a question whose own limit is falsy. */
  const DefaultTimeLimit: int := 20

  /** A question over some representation O of its options. A time limit of 0 stands for
      every falsy value the source may see (0, null, undefined). */
  datatype Question<O> = Question(id: string, question: string, timeLimit: int, options: seq<O>)

  datatype AnswerStatus = Correct | Incorrect | NoStatus

  /** A player row; the counters and the score may be missing and are then read as 0. */
  datatype Player = Player(
    id: string,
    name: string,
    score: Option<int>,
    lastAnswerStatus: AnswerStatus,
    correctCount: Option<int>,
    wrongCount: Option<int>)
}
