/** The quiz authoring page (src/app/admin/create/page.tsx): the question list it edits, the JSON
    import and the rows it saves. `crypto.randomUUID()` is modelled as a counter that yields a new
    id at each call. */
module CreateQuiz {
  import opened Wrappers
  import opened Decimal
  import opened QuizTypes

  const BlankOptionCount: nat := 4

  /** The id handed out by the n-th call of the id generator. */
  function Uuid(n: nat): string {
    "uuid-" + NatToString(n)
  }

  /** Different calls of the id generator never hand out the same id. */
  lemma UuidInjective(m: nat, n: nat)
    requires Uuid(m) == Uuid(n)
    ensures m == n
  {
    assert Uuid(m)[5..] == NatToString(m) && Uuid(n)[5..] == NatToString(n);
    ParseAfterRender(m);
    ParseAfterRender(n);
  }

  /** The list after `splice(index, 1)`: position index gone, the rest in order. */
  function Removed<T>(s: seq<T>, index: nat): (r: seq<T>)
    requires index < |s|
    ensures |r| == |s| - 1
    ensures forall k :: 0 <= k < index ==> r[k] == s[k]
    ensures forall k :: index <= k < |r| ==> r[k] == s[k + 1]
  {
    s[..index] + s[index + 1..]
  }

  /** The time limit an imported question gets: `q.timeLimit || 20`. */
  function ImportedTimeLimit(t: Option<int>): (limit: int)
    ensures limit != 0
    ensures t.Some? && t.value != 0 ==> limit == t.value
    ensures t.None? || t.value == 0 ==> limit == DefaultTimeLimit
  {
    if t.Some? && t.value != 0 then t.value else DefaultTimeLimit
  }

  /** A parsed JSON question; a missing `options` array makes the mapping throw. */
  datatype RawOption = RawOption(text: string, isCorrect: bool)
  datatype RawQuestion = RawQuestion(question: string, timeLimit: Option<int>, options: Option<seq<RawOption>>)
  datatype JsonInput = Malformed | QuestionList(items: seq<RawQuestion>)

  /** The import goes through only when the text parses to a list whose every entry has options. */
  predicate Importable(input: JsonInput) {
    input.QuestionList? && forall i :: 0 <= i < |input.items| ==> input.items[i].options.Some?
  }

  /** An option object with the given text and flag. */
  predicate CellIs(c: OptionCell, text: string, isCorrect: bool)
    reads c
  {
    c.text == text && c.isCorrect == isCorrect
  }

  // ---------------------------------------------------------------------------
  // handleSave: validation and the question rows
  // ---------------------------------------------------------------------------

  datatype QuestionRow = QuestionRow(quizId: string, questionText: string, timeLimit: int, options: seq<OptionCell>, orderIndex: nat)

  datatype SaveOutcome =
    | MissingTitle                       // "Please enter a quiz title"
    | NoQuestions                        // "Add at least one question"
    | QuizInsertFailed                   // the quiz row could not be created
    | QuestionsInsertFailed(rows: seq<QuestionRow>)
    | Saved(rows: seq<QuestionRow>)      // then back to the dashboard

  /** `questions.map((q, index) => ({ ..., order_index: index }))`. */
  function Payload(quizId: string, questions: seq<Question<OptionCell>>): (rows: seq<QuestionRow>)
    ensures |rows| == |questions|
    ensures forall i :: 0 <= i < |rows| ==>
      rows[i] == QuestionRow(quizId, questions[i].question, questions[i].timeLimit, questions[i].options, i)
  {
    seq(|questions|, i requires 0 <= i < |questions| =>
      QuestionRow(quizId, questions[i].question, questions[i].timeLimit, questions[i].options, i))
  }

  /** handleSave: refused without a title (checked first) or without questions; otherwise one
      row per question whose order index is its position. The store's answers are parameters:
      the new quiz's id (None when that insert fails) and whether the rows were inserted. */
  function HandleSave(title: string, questions: seq<Question<OptionCell>>, quizId: Option<string>, rowsInserted: bool)
    : (o: SaveOutcome)
    ensures title == "" <==> o == MissingTitle
    ensures o == NoQuestions <==> title != "" && |questions| == 0
    ensures o == QuizInsertFailed <==> title != "" && |questions| > 0 && quizId.None?
    ensures o.Saved? <==> title != "" && |questions| > 0 && quizId.Some? && rowsInserted
    ensures (o.Saved? || o.QuestionsInsertFailed?) ==>
      && |o.rows| == |questions|
      && forall i :: 0 <= i < |o.rows| ==> o.rows[i].orderIndex == i && o.rows[i].quizId == quizId.value
    ensures (o.Saved? || o.QuestionsInsertFailed?) ==> o.rows == Payload(quizId.value, questions)
  {
    if title == "" then MissingTitle
    else if |questions| == 0 then NoQuestions
    else if quizId.None? then QuizInsertFailed
    else
      var rows := Payload(quizId.value, questions);
      if rowsInserted then Saved(rows) else QuestionsInsertFailed(rows)
  }

  // ---------------------------------------------------------------------------
  // The page state
  // ---------------------------------------------------------------------------

  class CreatePage {
    var title: string
    var questions: seq<Question<OptionCell>>
    var jsonMode: bool
    var jsonInput: string
    /** How many ids the id generator has handed out. */
    var idsIssued: nat
    /** Alerts shown to the author. */
    var alerts: seq<string>

    constructor ()
      ensures title == "" && questions == [] && !jsonMode && jsonInput == "" && idsIssued == 0 && alerts == []
    {
      title := "";
      questions := [];
      jsonMode := false;
      jsonInput := "";
      idsIssued := 0;
      alerts := [];
    }

    method NextId() returns (id: string)
      modifies this`idsIssued
      ensures id == Uuid(old(idsIssued)) && idsIssued == old(idsIssued) + 1
    {
      id := Uuid(idsIssued);
      idsIssued := idsIssued + 1;
    }

    /** addQuestion: one blank question appended (time limit 20, four empty, incorrect options). */
    method AddQuestion()
      modifies this`questions, this`idsIssued
      ensures |questions| == |old(questions)| + 1 && questions[..|old(questions)|] == old(questions)
      ensures var q := questions[|old(questions)|];
        && q.question == "" && q.timeLimit == DefaultTimeLimit && |q.options| == BlankOptionCount
        && forall k :: 0 <= k < |q.options| ==> fresh(q.options[k]) && CellIs(q.options[k], "", false)
    {
      var qid := NextId();
      var options: seq<OptionCell> := [];
      while |options| < BlankOptionCount
        invariant |options| <= BlankOptionCount && questions == old(questions)
        invariant forall k :: 0 <= k < |options| ==> fresh(options[k]) && CellIs(options[k], "", false)
        decreases BlankOptionCount - |options|
      {
        var oid := NextId();
        var cell := new OptionCell(oid, "", false);
        options := options + [cell];
      }
      questions := questions + [Question(qid, "", DefaultTimeLimit, options)];
    }

    /** updateQuestion: a copy of the list with position index replaced. */
    method UpdateQuestion(index: nat, q: Question<OptionCell>)
      requires index < |questions|
      modifies this`questions
      ensures |questions| == |old(questions)| && questions[index] == q
      ensures forall k :: 0 <= k < |questions| && k != index ==> questions[k] == old(questions)[k]
    {
      var newQuestions := questions;
      newQuestions := newQuestions[index := q];
      questions := newQuestions;
    }

    /** removeQuestion: a copy of the list with position index spliced out. */
    method RemoveQuestion(index: nat)
      requires index < |questions|
      modifies this`questions
      ensures questions == Removed(old(questions), index)
    {
      var newQuestions := questions;
      newQuestions := newQuestions[..index] + newQuestions[index + 1..];
      questions := newQuestions;
    }

    /** One imported question: a new id per question and per option, the fields copied as given,
        the time limit defaulted. */
    method ImportOne(raw: RawQuestion) returns (q: Question<OptionCell>)
      requires raw.options.Some?
      modifies this`idsIssued
      ensures q.question == raw.question && q.timeLimit == ImportedTimeLimit(raw.timeLimit)
      ensures |q.options| == |raw.options.value|
      ensures forall k :: 0 <= k < |q.options| ==>
        fresh(q.options[k]) && CellIs(q.options[k], raw.options.value[k].text, raw.options.value[k].isCorrect)
    {
      var qid := NextId();
      var raws := raw.options.value;
      var options: seq<OptionCell> := [];
      var k := 0;
      while k < |raws|
        invariant 0 <= k <= |raws| && |options| == k
        invariant forall m :: 0 <= m < k ==> fresh(options[m]) && CellIs(options[m], raws[m].text, raws[m].isCorrect)
      {
        var oid := NextId();
        var cell := new OptionCell(oid, raws[k].text, raws[k].isCorrect);
        options := options + [cell];
        k := k + 1;
      }
      q := Question(qid, raw.question, ImportedTimeLimit(raw.timeLimit), options);
    }

    /** handleJsonImport: on a parse or mapping failure only the "Invalid JSON format" alert; otherwise
        the mapped questions appended after the existing ones in input order, and the JSON box closed
        and cleared. */
    method HandleJsonImport(input: JsonInput)
      modifies this
      ensures title == old(title)
      ensures !Importable(input) ==>
        && questions == old(questions) && jsonMode == old(jsonMode) && jsonInput == old(jsonInput)
        && alerts == old(alerts) + ["Invalid JSON format"]
      ensures Importable(input) ==>
        && |questions| == |old(questions)| + |input.items|
        && questions[..|old(questions)|] == old(questions)
        && !jsonMode && jsonInput == "" && alerts == old(alerts)
        && forall i :: 0 <= i < |input.items| ==>
             var q := questions[|old(questions)| + i];
             var raw := input.items[i];
             && q.question == raw.question && q.timeLimit == ImportedTimeLimit(raw.timeLimit)
             && |q.options| == |raw.options.value|
             && forall k :: 0 <= k < |q.options| ==>
                  fresh(q.options[k]) && CellIs(q.options[k], raw.options.value[k].text, raw.options.value[k].isCorrect)
    {
      if !Importable(input) {
        alerts := alerts + ["Invalid JSON format"];
        return;
      }
      var items := input.items;
      var mapped: seq<Question<OptionCell>> := [];
      var i := 0;
      while i < |items|
        invariant 0 <= i <= |items| && |mapped| == i
        invariant title == old(title) && questions == old(questions) && alerts == old(alerts)
        invariant jsonMode == old(jsonMode) && jsonInput == old(jsonInput)
        invariant forall m :: 0 <= m < i ==>
          && mapped[m].question == items[m].question && mapped[m].timeLimit == ImportedTimeLimit(items[m].timeLimit)
          && |mapped[m].options| == |items[m].options.value|
          && forall k :: 0 <= k < |mapped[m].options| ==>
               fresh(mapped[m].options[k])
               && CellIs(mapped[m].options[k], items[m].options.value[k].text, items[m].options.value[k].isCorrect)
      {
        var q := ImportOne(items[i]);
        mapped := mapped + [q];
        i := i + 1;
      }
      questions := questions + mapped;
      jsonMode := false;
      jsonInput := "";
    }
  }
}
