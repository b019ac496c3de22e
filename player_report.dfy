/** A player's end-of-game report (src/components/game/PlayerReport.tsx): which history is shown,
    the summary counts and accuracy, and how each answer option of a past question is highlighted. */
module PlayerReport {
  import opened Wrappers
  import HostGameOverview

  datatype HistoryItem = HistoryItem(
    questionText: string,
    isCorrect: bool,
    playerAnswerIndex: Option<int>,
    correctAnswerIndex: Option<int>,
    options: Option<seq<string>>)

  // ---------------------------------------------------------------------------
  // Which history is shown
  // ---------------------------------------------------------------------------

  /** What reading `history_<gameId>` from session storage gives: nothing stored, text that does not
      parse, or a parsed list. */
  datatype Stored = NothingStored | Unparseable | Parsed(items: seq<HistoryItem>)

  /** The recovery effect: the history passed in when it is non-empty; otherwise, when the page's
      last path segment names a game, a stored non-empty list; otherwise the history stays as it is. */
  function SelectHistory(current: seq<HistoryItem>, initial: seq<HistoryItem>, gameId: string, stored: Stored)
    : (shown: seq<HistoryItem>)
    ensures |initial| > 0 ==> shown == initial
    ensures |initial| == 0 && gameId != "" && stored.Parsed? && |stored.items| > 0 ==> shown == stored.items
    ensures |initial| == 0 && !(gameId != "" && stored.Parsed? && |stored.items| > 0) ==> shown == current
    ensures shown == initial || shown == current || (stored.Parsed? && shown == stored.items)
  {
    if |initial| > 0 then initial
    else if gameId != "" then
      match stored
      case Parsed(items) => if |items| > 0 then items else current
      case _ => current
    else current
  }

  // ---------------------------------------------------------------------------
  // stats
  // ---------------------------------------------------------------------------

  /** `history.filter(h => h.isCorrect).length`; a count over history items, not over options. */
  function CountCorrect(history: seq<HistoryItem>): (c: nat)
    ensures c <= |history|
    ensures c == 0 <==> forall k :: 0 <= k < |history| ==> !history[k].isCorrect
    ensures c == |history| <==> forall k :: 0 <= k < |history| ==> history[k].isCorrect
  {
    if history == [] then 0
    else (if history[0].isCorrect then 1 else 0) + CountCorrect(history[1..])
  }

  datatype ReportStats = ReportStats(total: nat, correct: nat, incorrect: nat, accuracy: int)

  function Stats(history: seq<HistoryItem>): (s: ReportStats)
    ensures s.total == |history| && s.correct == CountCorrect(history)
    ensures s.correct + s.incorrect == s.total
    ensures 0 <= s.accuracy <= 100
    ensures |history| == 0 ==> s.accuracy == 0
    ensures |history| > 0 ==> 2 * s.total * s.accuracy - s.total <= 200 * s.correct < 2 * s.total * s.accuracy + s.total
    ensures |history| > 0 && s.incorrect == 0 ==> s.accuracy == 100
    ensures s.correct == 0 ==> s.accuracy == 0
  {
    var total := |history|;
    var correct := CountCorrect(history);
    var accuracy := if total > 0 then HostGameOverview.RoundHalfUp(100 * correct, total) else 0;
    assert 0 <= accuracy <= 100 by {
      if total > 0 {
        HostGameOverview.RoundWithin(100 * correct, total, 0, 100);
      }
    }
    assert total > 0 && correct == total ==> accuracy == 100 by {
      if total > 0 && correct == total {
        HostGameOverview.RoundWithin(100 * correct, total, 100, 100);
      }
    }
    assert correct == 0 ==> accuracy == 0 by {
      if total > 0 && correct == 0 {
        HostGameOverview.RoundWithin(100 * correct, total, 0, 0);
      }
    }
    ReportStats(total, correct, total - correct, accuracy)
  }

  // ---------------------------------------------------------------------------
  // Answer options of one past question
  // ---------------------------------------------------------------------------

  datatype Highlight = CorrectAnswer | ChosenWrong | Dimmed

  /** The three class conditions of one option: chosen by the player, the correct one, neither. */
  predicate IsPlayerAnswer(optIndex: nat, item: HistoryItem)
    ensures item.playerAnswerIndex.None? ==> !IsPlayerAnswer(optIndex, item)
  {
    item.playerAnswerIndex == Some(optIndex)
  }

  predicate IsCorrectAnswer(optIndex: nat, item: HistoryItem)
    ensures item.correctAnswerIndex.None? ==> !IsCorrectAnswer(optIndex, item)
  {
    item.correctAnswerIndex == Some(optIndex)
  }

  predicate IsWrongAnswer(optIndex: nat, item: HistoryItem)
    ensures item.playerAnswerIndex.None? && item.correctAnswerIndex.None? ==> IsWrongAnswer(optIndex, item)
  {
    !IsCorrectAnswer(optIndex, item) && !IsPlayerAnswer(optIndex, item)
  }

  /** The one highlight an option gets: every option falls in exactly one of the three classes. */
  function Classify(optIndex: nat, item: HistoryItem): (h: Highlight)
    ensures h == CorrectAnswer <==> IsCorrectAnswer(optIndex, item)
    ensures h == ChosenWrong <==> IsPlayerAnswer(optIndex, item) && !IsCorrectAnswer(optIndex, item)
    ensures h == Dimmed <==> IsWrongAnswer(optIndex, item)
  {
    if IsCorrectAnswer(optIndex, item) then CorrectAnswer
    else if IsPlayerAnswer(optIndex, item) then ChosenWrong
    else Dimmed
  }

  /** At most one option per question is marked as the player's wrong choice. */
  lemma AtMostOneChosenWrong(item: HistoryItem, i: nat, j: nat)
    requires Classify(i, item) == ChosenWrong && Classify(j, item) == ChosenWrong
    ensures i == j
  {
  }

  /** `SHAPES[optIndex % SHAPES.length]` always names a shape. */
  function ShapeIndex(optIndex: nat, shapeCount: nat): (k: nat)
    requires shapeCount > 0
    ensures k < shapeCount
    ensures optIndex < shapeCount ==> k == optIndex
  {
    optIndex % shapeCount
  }
}
