/** The question editor card (src/components/game/QuestionForm.tsx). Options are OptionCell objects:
    changing an option's text writes into the object that the caller's question still holds,
    while choosing the correct option builds new objects. */
module QuestionForm {
  import opened QuizTypes

  /** The four durations the time-limit select offers. */
  const TimeLimitChoices: set<int> := {10, 20, 30, 60}

  /** The correct flags of a list of options, in order. */
  function Flags(options: seq<OptionCell>): (f: seq<bool>)
    reads set k | 0 <= k < |options| :: options[k]
    ensures |f| == |options| && forall k :: 0 <= k < |options| ==> f[k] == options[k].isCorrect
  {
    seq(|options|, k reads options requires 0 <= k < |options| => options[k].isCorrect)
  }

  /** Number of flags set, used to state how many options an editor choice marks correct. */
  function CountTrue(flags: seq<bool>): nat {
    if flags == [] then 0 else (if flags[0] then 1 else 0) + CountTrue(flags[1..])
  }

  /** The flags after choosing option k among n: true at k only. */
  function SingleChoice(n: nat, k: int): (f: seq<bool>)
    ensures |f| == n && forall i :: 0 <= i < n ==> f[i] == (i == k)
  {
    seq(n, i => i == k)
  }

  /** Choosing an option in range leaves exactly one option correct; an index out of range leaves none. */
  lemma {:induction false} SingleChoiceCount(n: nat, k: int)
    ensures CountTrue(SingleChoice(n, k)) == if 0 <= k < n then 1 else 0
  {
    if n > 0 {
      var f := SingleChoice(n, k);
      assert f[1..] == SingleChoice(n - 1, k - 1);
      SingleChoiceCount(n - 1, k - 1);
    }
  }

  /** handleOptionChange: a shallow copy of the option array, then `newOptions[k].text = t`. The
      edited object is shared: the question handed in sees the new text too. */
  method HandleOptionChange(question: Question<OptionCell>, optIndex: nat, text: string)
    returns (updated: Question<OptionCell>)
    requires optIndex < |question.options|
    modifies question.options[optIndex]
    ensures updated == question
    ensures updated.options[optIndex] == question.options[optIndex] && question.options[optIndex].text == text
    ensures forall k :: 0 <= k < |question.options| && question.options[k] != question.options[optIndex] ==>
      question.options[k].text == old(question.options[k].text)
    ensures question.options[optIndex].id == old(question.options[optIndex].id)
    ensures Flags(question.options) == old(Flags(question.options))
  {
    var newOptions := question.options;
    newOptions[optIndex].text := text;
    updated := question.(options := newOptions);
  }

  /** handleCorrectChange: new option objects, each a copy of the old one with `isCorrect` true at
      optIndex only; ids, texts, the option count and the question's other fields are kept. */
  method HandleCorrectChange(question: Question<OptionCell>, optIndex: int)
    returns (updated: Question<OptionCell>)
    ensures updated.id == question.id && updated.question == question.question
    ensures updated.timeLimit == question.timeLimit
    ensures |updated.options| == |question.options|
    ensures forall k :: 0 <= k < |updated.options| ==>
      && fresh(updated.options[k])
      && updated.options[k].id == question.options[k].id
      && updated.options[k].text == question.options[k].text
    ensures Flags(updated.options) == SingleChoice(|question.options|, optIndex)
  {
    var newOptions: seq<OptionCell> := [];
    var i := 0;
    while i < |question.options|
      invariant 0 <= i <= |question.options| && |newOptions| == i
      invariant forall k :: 0 <= k < i ==>
        && fresh(newOptions[k])
        && newOptions[k].id == question.options[k].id
        && newOptions[k].text == question.options[k].text
        && newOptions[k].isCorrect == (k == optIndex)
    {
      var o := question.options[i];
      var copy := new OptionCell(o.id, o.text, i == optIndex);
      newOptions := newOptions + [copy];
      i := i + 1;
    }
    updated := question.(options := newOptions);
  }

  /** The time-limit select: the value is one of the offered durations; nothing else changes. */
  function ChooseTimeLimit(question: Question<OptionCell>, choice: int): (updated: Question<OptionCell>)
    requires choice in TimeLimitChoices
    ensures updated.timeLimit == choice && updated.timeLimit in TimeLimitChoices
    ensures updated.id == question.id && updated.question == question.question && updated.options == question.options
  {
    question.(timeLimit := choice)
  }

  /** The question text input. */
  function ChangeText(question: Question<OptionCell>, text: string): (updated: Question<OptionCell>)
    ensures updated.question == text
    ensures updated.id == question.id && updated.timeLimit == question.timeLimit && updated.options == question.options
  {
    question.(question := text)
  }
}
