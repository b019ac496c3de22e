/** The host-side round engine (src/components/game/HostRunner.tsx): the option shuffle, the
    per-question scoring rule and the phase/timer state machine driven by the timer and by
    "everyone answered". Network writes are recorded as effects; timers and effects are explicit
    steps; the random numbers are parameters. */
module HostRunner {
  import opened Wrappers
  import opened QuizTypes

  const PreviewSeconds: int := 5
  const PointsPerCorrect: int := 1000

  // ---------------------------------------------------------------------------
  // shuffleArray: Fisher-Yates on a copy, one random draw per position n-1 .. 1
  // ---------------------------------------------------------------------------

  /** `Math.floor(roll * bound)` for a draw 0 <= roll < 1. */
  function Pick(roll: real, bound: nat): (j: nat)
    requires 0.0 <= roll < 1.0 && bound > 0
    ensures j < bound
  {
    assert (1.0 - roll) * bound as real > 0.0;
    (roll * bound as real).Floor
  }

  /** Every draw is in [0, 1), and there is one for each position (the draw for position i is rolls[i]). */
  predicate ValidRolls(rolls: seq<real>, n: nat) {
    |rolls| >= n && forall k :: 0 <= k < |rolls| ==> 0.0 <= rolls[k] < 1.0
  }

  function Swap<T>(s: seq<T>, i: nat, j: nat): (r: seq<T>)
    requires i < |s| && j < |s|
    ensures |r| == |s|
  {
    s[i := s[j]][j := s[i]]
  }

  /** The positions i, i-1, ..., 1 of the shuffle still to be done on s. */
  function ShuffleFrom<T>(s: seq<T>, rolls: seq<real>, i: int): (r: seq<T>)
    requires i < |s| && ValidRolls(rolls, |s|)
    ensures |r| == |s|
    decreases i
  {
    if i <= 0 then s else ShuffleFrom(Swap(s, i, Pick(rolls[i], i + 1)), rolls, i - 1)
  }

  function Shuffled<T>(s: seq<T>, rolls: seq<real>): seq<T>
    requires ValidRolls(rolls, |s|)
  {
    ShuffleFrom(s, rolls, |s| - 1)
  }

  lemma SwapPermutes<T>(s: seq<T>, i: nat, j: nat)
    requires i < |s| && j < |s|
    ensures multiset(Swap(s, i, j)) == multiset(s)
  {
  }

  lemma {:induction false} ShuffleFromPermutes<T>(s: seq<T>, rolls: seq<real>, i: int)
    requires i < |s| && ValidRolls(rolls, |s|)
    ensures multiset(ShuffleFrom(s, rolls, i)) == multiset(s)
    decreases i
  {
    if i > 0 {
      var t := Swap(s, i, Pick(rolls[i], i + 1));
      SwapPermutes(s, i, Pick(rolls[i], i + 1));
      ShuffleFromPermutes(t, rolls, i - 1);
    }
  }

  /** shuffleArray: copies the input into a fresh array and swaps position i with a drawn
      position j <= i, for i from the last position down to 1. The input is a value and so
      is untouched; the result is a permutation of it. */
  method Shuffle<T>(input: seq<T>, rolls: seq<real>) returns (r: seq<T>)
    requires ValidRolls(rolls, |input|)
    ensures r == Shuffled(input, rolls)
    ensures |r| == |input| && multiset(r) == multiset(input)
  {
    var a := new T[|input|](k requires 0 <= k < |input| => input[k]);
    assert a[..] == input;
    var i := a.Length - 1;
    while i > 0
      invariant -1 <= i < a.Length && a.Length == |input|
      invariant ShuffleFrom(a[..], rolls, i) == Shuffled(input, rolls)
      decreases i
    {
      var j := Pick(rolls[i], i + 1);
      ghost var before := a[..];
      a[i], a[j] := a[j], a[i];
      assert a[..] == Swap(before, i, j);
      i := i - 1;
    }
    r := a[..];
    ShuffleFromPermutes(input, rolls, |input| - 1);
  }

  /** Number of options marked correct. Kept apart from the report's and the editor's counts:
      each counts a different record (a stored option, a history item, an editor flag), and the
      lemmas about each are stated on its own record. */
  function CountCorrect(options: seq<Choice>): nat {
    if options == [] then 0 else (if options[0].isCorrect then 1 else 0) + CountCorrect(options[1..])
  }

  function Flag(o: Choice): nat {
    if o.isCorrect then 1 else 0
  }

  lemma {:induction false} CountCorrectUpdate(s: seq<Choice>, i: nat, x: Choice)
    requires i < |s|
    ensures CountCorrect(s[i := x]) == CountCorrect(s) - Flag(s[i]) + Flag(x)
  {
    if i > 0 {
      assert s[i := x][1..] == s[1..][i - 1 := x];
      CountCorrectUpdate(s[1..], i - 1, x);
    } else {
      assert s[i := x][1..] == s[1..];
    }
  }

  lemma {:induction false} ShuffleFromKeepsCount(s: seq<Choice>, rolls: seq<real>, i: int)
    requires i < |s| && ValidRolls(rolls, |s|)
    ensures CountCorrect(ShuffleFrom(s, rolls, i)) == CountCorrect(s)
    decreases i
  {
    if i > 0 {
      var j := Pick(rolls[i], i + 1);
      CountCorrectUpdate(s, i, s[j]);
      CountCorrectUpdate(s[i := s[j]], j, s[i]);
      ShuffleFromKeepsCount(Swap(s, i, j), rolls, i - 1);
    }
  }

  /** Shuffling moves whole options: every shown option is one of the stored ones, flag included,
      and the number of correct options is unchanged. */
  lemma ShuffleKeepsCorrectness(options: seq<Choice>, rolls: seq<real>)
    requires ValidRolls(rolls, |options|)
    ensures forall k :: 0 <= k < |options| ==> Shuffled(options, rolls)[k] in options
    ensures CountCorrect(Shuffled(options, rolls)) == CountCorrect(options)
  {
    ShuffleFromPermutes(options, rolls, |options| - 1);
    PermutationMembers(Shuffled(options, rolls), options);
    ShuffleFromKeepsCount(options, rolls, |options| - 1);
  }

  /** Every element of a permutation of b is an element of b. */
  lemma PermutationMembers<T>(a: seq<T>, b: seq<T>)
    requires multiset(a) == multiset(b)
    ensures forall k :: 0 <= k < |a| ==> a[k] in b
  {
    forall k | 0 <= k < |a| ensures a[k] in b {
      assert a[k] in multiset(a);
    }
  }

  // ---------------------------------------------------------------------------
  // calculateScores: the per-player rule
  // ---------------------------------------------------------------------------

  /** `options.findIndex(o => o.isCorrect)`: the first correct option, or -1. */
  function FirstCorrect(options: seq<Choice>): (r: int)
    ensures -1 <= r < |options|
    ensures r == -1 <==> forall k :: 0 <= k < |options| ==> !options[k].isCorrect
    ensures r >= 0 ==> options[r].isCorrect && forall k :: 0 <= k < r ==> !options[k].isCorrect
  {
    if options == [] then -1
    else if options[0].isCorrect then 0
    else
      var k := FirstCorrect(options[1..]);
      if k == -1 then -1 else k + 1
  }

  /** `answers[p.id] === correctIndex`: an answer is recorded for the player and equals the index. */
  predicate Hit(answers: map<string, int>, id: string, correctIndex: int)
    ensures id !in answers ==> !Hit(answers, id, correctIndex)
  {
    id in answers && answers[id] == correctIndex
  }

  /** One player's row after a question: +1000 and a correct count for a hit; a wrong count and
      the score unchanged otherwise (a missing answer included). Missing fields start at 0. */
  function ScorePlayer(p: Player, answers: map<string, int>, correctIndex: int): (r: Player)
    ensures r.id == p.id && r.name == p.name
    ensures r.score.Some? && r.correctCount.Some? && r.wrongCount.Some?
    ensures r.lastAnswerStatus == Correct <==> Hit(answers, p.id, correctIndex)
    ensures r.lastAnswerStatus == Incorrect <==> !Hit(answers, p.id, correctIndex)
    ensures Hit(answers, p.id, correctIndex) ==>
      && OrZero(r.score) == OrZero(p.score) + PointsPerCorrect
      && OrZero(r.correctCount) == OrZero(p.correctCount) + 1
      && OrZero(r.wrongCount) == OrZero(p.wrongCount)
    ensures !Hit(answers, p.id, correctIndex) ==>
      && OrZero(r.score) == OrZero(p.score)
      && OrZero(r.correctCount) == OrZero(p.correctCount)
      && OrZero(r.wrongCount) == OrZero(p.wrongCount) + 1
  {
    var hit := Hit(answers, p.id, correctIndex);
    p.(score := Some(OrZero(p.score) + (if hit then PointsPerCorrect else 0)),
       lastAnswerStatus := if hit then Correct else Incorrect,
       correctCount := Some(OrZero(p.correctCount) + (if hit then 1 else 0)),
       wrongCount := Some(OrZero(p.wrongCount) + (if hit then 0 else 1)))
  }

  /** Exactly one of the two counters rises by one, and the score never goes down. */
  lemma ScoringRaisesOneCounter(p: Player, answers: map<string, int>, correctIndex: int)
    ensures var r := ScorePlayer(p, answers, correctIndex);
      && (OrZero(r.correctCount) - OrZero(p.correctCount)) + (OrZero(r.wrongCount) - OrZero(p.wrongCount)) == 1
      && OrZero(r.correctCount) >= OrZero(p.correctCount)
      && OrZero(r.wrongCount) >= OrZero(p.wrongCount)
      && OrZero(r.score) >= OrZero(p.score)
  {
  }

  /** `players.map(...)` of calculateScores. */
  function ScoreAll(ps: seq<Player>, answers: map<string, int>, correctIndex: int): (r: seq<Player>)
    ensures |r| == |ps|
    ensures forall i :: 0 <= i < |ps| ==> r[i] == ScorePlayer(ps[i], answers, correctIndex)
  {
    if ps == [] then [] else [ScorePlayer(ps[0], answers, correctIndex)] + ScoreAll(ps[1..], answers, correctIndex)
  }

  function TotalScore(ps: seq<Player>): int {
    if ps == [] then 0 else OrZero(ps[0].score) + TotalScore(ps[1..])
  }

  /** Players whose recorded answer is the correct index. */
  function CountHits(ps: seq<Player>, answers: map<string, int>, correctIndex: int): nat {
    if ps == [] then 0
    else (if Hit(answers, ps[0].id, correctIndex) then 1 else 0) + CountHits(ps[1..], answers, correctIndex)
  }

  /** A question adds exactly 1000 points per correct answerer to the room's total, and nothing else. */
  lemma {:induction false} ScoreAllTotal(ps: seq<Player>, answers: map<string, int>, correctIndex: int)
    ensures TotalScore(ScoreAll(ps, answers, correctIndex))
         == TotalScore(ps) + PointsPerCorrect * CountHits(ps, answers, correctIndex)
  {
    if ps != [] {
      var r := ScoreAll(ps, answers, correctIndex);
      assert r[1..] == ScoreAll(ps[1..], answers, correctIndex);
      ScoreAllTotal(ps[1..], answers, correctIndex);
    }
  }

  /** A question whose options carry no correct flag gives no points to anyone whose answer is an
      option index (FirstCorrect is then -1). */
  lemma NoCorrectOptionNoPoints(q: Question<Choice>, ps: seq<Player>, answers: map<string, int>)
    requires CountCorrect(q.options) == 0
    requires forall id :: id in answers ==> answers[id] >= 0
    ensures CountHits(ps, answers, FirstCorrect(q.options)) == 0
  {
    NoCorrectFlagged(q.options);
    NoHitsBelowZero(ps, answers);
  }

  lemma {:induction false} NoCorrectFlagged(options: seq<Choice>)
    requires CountCorrect(options) == 0
    ensures FirstCorrect(options) == -1
  {
    if options != [] {
      NoCorrectFlagged(options[1..]);
    }
  }

  lemma {:induction false} NoHitsBelowZero(ps: seq<Player>, answers: map<string, int>)
    requires forall id :: id in answers ==> answers[id] >= 0
    ensures CountHits(ps, answers, -1) == 0
  {
    if ps != [] {
      NoHitsBelowZero(ps[1..], answers);
    }
  }

  // ---------------------------------------------------------------------------
  // "Check if all players answered"
  // ---------------------------------------------------------------------------

  datatype Phase = PreviewPhase | QuestionPhase | ResultsPhase | LeaderboardPhase

  /** The early end fires in the question phase, with at least one player, when the number of
      answer keys equals the number of players. */
  predicate AllAnswered(phase: Phase, answers: map<string, int>, players: seq<Player>)
    ensures AllAnswered(phase, answers, players) ==> |answers| > 0
  {
    phase == QuestionPhase && |players| > 0 && |answers.Keys| == |players|
  }

  function Ids(ps: seq<Player>): set<string> {
    set i | 0 <= i < |ps| :: ps[i].id
  }

  predicate DistinctIds(ps: seq<Player>) {
    forall i, j :: 0 <= i < j < |ps| ==> ps[i].id != ps[j].id
  }

  lemma {:induction false} DistinctIdsCount(ps: seq<Player>)
    requires DistinctIds(ps)
    ensures |Ids(ps)| == |ps|
  {
    if ps != [] {
      var last := ps[|ps| - 1];
      var init := ps[..|ps| - 1];
      assert Ids(ps) == Ids(init) + {last.id};
      assert last.id !in Ids(init);
      DistinctIdsCount(init);
    }
  }

  /** When the answers are keyed by exactly the joined players (distinct ids), the question ends early. */
  lemma EveryPlayerAnsweredEndsQuestion(answers: map<string, int>, players: seq<Player>)
    requires DistinctIds(players) && |players| > 0
    requires answers.Keys == Ids(players)
    ensures AllAnswered(QuestionPhase, answers, players)
  {
    DistinctIdsCount(players);
  }

  /** The check counts keys, not players: an answer from an id outside the roster stands in for a
      listed player who did not answer. */
  lemma StrayAnswerCanEndEarly()
    ensures var ps := [Player("a", "A", Some(0), NoStatus, None, None), Player("b", "B", Some(0), NoStatus, None, None)];
      var answers := map["a" := 1, "late" := 2];
      AllAnswered(QuestionPhase, answers, ps) && "b" !in answers
  {
  }

  // ---------------------------------------------------------------------------
  // The host state: phase, timer, question index, answer map, players
  // ---------------------------------------------------------------------------

  /** Writes and notices the host issues; recorded, never awaited. */
  datatype Effect =
    | ScoreWrite(playerId: string, score: Option<int>, status: AnswerStatus, correctCount: Option<int>, wrongCount: Option<int>)
    | StatusReset(playerId: string)
    | SessionIndexWrite(index: int)
    | GameOverAlert

  function ScoreWrites(ps: seq<Player>): (r: seq<Effect>)
    ensures |r| == |ps|
    ensures forall i :: 0 <= i < |ps| ==>
      r[i] == ScoreWrite(ps[i].id, ps[i].score, ps[i].lastAnswerStatus, ps[i].correctCount, ps[i].wrongCount)
  {
    seq(|ps|, i requires 0 <= i < |ps| =>
      ScoreWrite(ps[i].id, ps[i].score, ps[i].lastAnswerStatus, ps[i].correctCount, ps[i].wrongCount))
  }

  function StatusResets(ps: seq<Player>): (r: seq<Effect>)
    ensures |r| == |ps| && forall i :: 0 <= i < |ps| ==> r[i] == StatusReset(ps[i].id)
  {
    seq(|ps|, i requires 0 <= i < |ps| => StatusReset(ps[i].id))
  }

  /** `players.map(p => ({ ...p, last_answer_status: null }))`. */
  function ClearStatuses(ps: seq<Player>): (r: seq<Player>)
    ensures |r| == |ps|
    ensures forall i :: 0 <= i < |ps| ==> r[i] == ps[i].(lastAnswerStatus := NoStatus)
  {
    seq(|ps|, i requires 0 <= i < |ps| => ps[i].(lastAnswerStatus := NoStatus))
  }

  /** `questions[currentQIndex]?.timeLimit || 20`. */
  function QuestionTime(questions: seq<Question<Choice>>, index: nat): (t: int)
    ensures t != 0
    ensures index < |questions| && questions[index].timeLimit != 0 ==> t == questions[index].timeLimit
    ensures index >= |questions| || questions[index].timeLimit == 0 ==> t == DefaultTimeLimit
  {
    if index < |questions| && questions[index].timeLimit != 0 then questions[index].timeLimit else DefaultTimeLimit
  }

  /** Point-wise, no player's score is lower in `after` than in `before`. */
  predicate ScoresNotLower(before: seq<Player>, after: seq<Player>) {
    |after| == |before| && forall i :: 0 <= i < |before| ==> OrZero(before[i].score) <= OrZero(after[i].score)
  }

  class Round {
    var questions: seq<Question<Choice>>
    var currentQIndex: nat
    var phase: Phase
    var timer: int
    var answers: map<string, int>
    var players: seq<Player>
    var effects: seq<Effect>

    /** The timer is idle outside the preview and question phases, and the preview countdown
        never exceeds its five seconds. */
    ghost predicate Valid()
      reads this
    {
      && ((phase == ResultsPhase || phase == LeaderboardPhase) ==> timer == 0)
      && (phase == PreviewPhase ==> 0 <= timer <= PreviewSeconds)
    }

    /** What one handleTimerEnd does, between the state before (old) and after: preview goes to
        question with the question's time limit (20 when it is falsy or the question is not loaded);
        question is scored (when loaded, with one score write per player), goes to results and stops
        the timer; results and leaderboard are left as they are. Questions, index and answers stay. */
    twostate predicate TimerEnded()
      reads this
    {
      && questions == old(questions) && currentQIndex == old(currentQIndex) && answers == old(answers)
      && (old(phase) == PreviewPhase ==>
            && phase == QuestionPhase && timer == QuestionTime(questions, currentQIndex)
            && players == old(players) && effects == old(effects))
      && (old(phase) == QuestionPhase ==>
            && phase == ResultsPhase && timer == 0
            && (currentQIndex < |questions| ==>
                  && players == ScoreAll(old(players), answers, FirstCorrect(questions[currentQIndex].options))
                  && effects == old(effects) + ScoreWrites(players))
            && (currentQIndex >= |questions| ==> players == old(players) && effects == old(effects)))
      && ((old(phase) == ResultsPhase || old(phase) == LeaderboardPhase) ==>
            phase == old(phase) && timer == old(timer) && players == old(players) && effects == old(effects))
    }

    /** The state the component mounts with: no questions yet, preview of question 0, five seconds. */
    constructor (initialPlayers: seq<Player>)
      ensures Valid()
      ensures questions == [] && currentQIndex == 0 && phase == PreviewPhase && timer == PreviewSeconds
      ensures answers == map[] && players == initialPlayers && effects == []
    {
      questions := [];
      currentQIndex := 0;
      phase := PreviewPhase;
      timer := PreviewSeconds;
      answers := map[];
      players := initialPlayers;
      effects := [];
    }

    /** The fetch callback: each stored question with its options shuffled (rolls[i] drives question i). */
    method LoadQuestions(rows: seq<Question<Choice>>, rolls: seq<seq<real>>)
      requires |rolls| == |rows|
      requires forall i :: 0 <= i < |rows| ==> ValidRolls(rolls[i], |rows[i].options|)
      requires Valid()
      modifies this`questions
      ensures Valid()
      ensures |questions| == |rows|
      ensures forall i :: 0 <= i < |rows| ==>
        questions[i] == rows[i].(options := Shuffled(rows[i].options, rolls[i]))
    {
      var loaded: seq<Question<Choice>> := [];
      var i := 0;
      while i < |rows|
        invariant 0 <= i <= |rows| && |loaded| == i
        invariant forall k :: 0 <= k < i ==> loaded[k] == rows[k].(options := Shuffled(rows[k].options, rolls[k]))
      {
        var opts := Shuffle(rows[i].options, rolls[i]);
        loaded := loaded + [rows[i].(options := opts)];
        i := i + 1;
      }
      questions := loaded;
    }

    /** The answer broadcast: `{ ...prev, [playerId]: answerIndex }`, in any phase, the last write winning. */
    method RecordAnswer(playerId: string, answerIndex: int)
      requires Valid()
      modifies this`answers
      ensures Valid()
      ensures answers == old(answers)[playerId := answerIndex]
      ensures playerId in old(answers) ==> |answers.Keys| == |old(answers).Keys|
      ensures playerId !in old(answers) ==> |answers.Keys| == |old(answers).Keys| + 1
    {
      answers := answers[playerId := answerIndex];
      if playerId in old(answers) {
        assert answers.Keys == old(answers).Keys;
      } else {
        assert answers.Keys == old(answers).Keys + {playerId};
      }
    }

    /** calculateScores: when the current question is loaded, every player is scored against its
        first correct option and one score write per player is issued; when it is not loaded the
        source throws inside the async function, and nothing changes. */
    method CalculateScores()
      requires Valid()
      modifies this`players, this`effects
      ensures Valid()
      ensures currentQIndex < |questions| ==>
        && players == ScoreAll(old(players), answers, FirstCorrect(questions[currentQIndex].options))
        && effects == old(effects) + ScoreWrites(players)
      ensures currentQIndex >= |questions| ==> players == old(players) && effects == old(effects)
      ensures ScoresNotLower(old(players), players)
    {
      if currentQIndex < |questions| {
        var correctIndex := FirstCorrect(questions[currentQIndex].options);
        players := ScoreAll(players, answers, correctIndex);
        effects := effects + ScoreWrites(players);
      }
    }

    /** handleTimerEnd: preview -> question with the question's time limit (20 when it is falsy or the
        question is not loaded); question -> scored, results, timer 0; otherwise nothing. */
    method HandleTimerEnd()
      requires Valid()
      modifies this
      ensures Valid()
      ensures TimerEnded()
      ensures ScoresNotLower(old(players), players)
    {
      if phase == PreviewPhase {
        phase := QuestionPhase;
        timer := QuestionTime(questions, currentQIndex);
      } else if phase == QuestionPhase {
        CalculateScores();
        phase := ResultsPhase;
        timer := 0;
      }
    }

    /** One run of the timer effect: a running timer drops by exactly one second; at zero (or below)
        it ends the phase. */
    method Tick()
      requires Valid()
      modifies this
      ensures Valid()
      ensures old(timer) > 0 ==>
        && timer == old(timer) - 1 && phase == old(phase) && players == old(players)
        && answers == old(answers) && currentQIndex == old(currentQIndex) && effects == old(effects)
      ensures old(timer) <= 0 ==> TimerEnded()
      ensures questions == old(questions) && currentQIndex == old(currentQIndex) && answers == old(answers)
      ensures ScoresNotLower(old(players), players)
    {
      if timer > 0 {
        timer := timer - 1;
      } else {
        HandleTimerEnd();
      }
    }

    /** The "all players answered" effect: ends the question early exactly when AllAnswered holds. */
    method CheckAllAnswered()
      requires Valid()
      modifies this
      ensures Valid()
      ensures old(AllAnswered(phase, answers, players)) ==> old(phase) == QuestionPhase && TimerEnded()
      ensures !old(AllAnswered(phase, answers, players)) ==>
        phase == old(phase) && timer == old(timer) && players == old(players) && effects == old(effects)
      ensures questions == old(questions) && currentQIndex == old(currentQIndex) && answers == old(answers)
      ensures ScoresNotLower(old(players), players)
    {
      if AllAnswered(phase, answers, players) {
        HandleTimerEnd();
      }
    }

    /** nextQuestion: results -> leaderboard; from the leaderboard, the next question's preview when
        one remains (index + 1, five seconds, answers and answer statuses cleared, the new index
        written to the session), else only a "Game Over" notice; in other phases nothing. */
    method NextQuestion()
      requires Valid()
      modifies this
      ensures Valid()
      ensures questions == old(questions)
      ensures old(phase) == ResultsPhase ==>
        && phase == LeaderboardPhase && timer == old(timer) && currentQIndex == old(currentQIndex)
        && answers == old(answers) && players == old(players) && effects == old(effects)
      ensures old(phase) == LeaderboardPhase && old(currentQIndex) < |questions| - 1 ==>
        && currentQIndex == old(currentQIndex) + 1 && phase == PreviewPhase && timer == PreviewSeconds
        && answers == map[] && players == ClearStatuses(old(players))
        && effects == old(effects) + StatusResets(old(players)) + [SessionIndexWrite(old(currentQIndex) + 1)]
      ensures old(phase) == LeaderboardPhase && old(currentQIndex) >= |questions| - 1 ==>
        && phase == old(phase) && timer == old(timer) && currentQIndex == old(currentQIndex)
        && answers == old(answers) && players == old(players) && effects == old(effects) + [GameOverAlert]
      ensures (old(phase) == PreviewPhase || old(phase) == QuestionPhase) ==>
        && phase == old(phase) && timer == old(timer) && currentQIndex == old(currentQIndex)
        && answers == old(answers) && players == old(players) && effects == old(effects)
      ensures ScoresNotLower(old(players), players)
    {
      if phase == ResultsPhase {
        phase := LeaderboardPhase;
      } else if phase == LeaderboardPhase {
        if currentQIndex < |questions| - 1 {
          var next := currentQIndex + 1;
          currentQIndex := next;
          phase := PreviewPhase;
          timer := PreviewSeconds;
          answers := map[];
          var resetPlayers := ClearStatuses(players);
          effects := effects + StatusResets(players);
          players := resetPlayers;
          effects := effects + [SessionIndexWrite(next)];
        } else {
          effects := effects + [GameOverAlert];
        }
      }
    }
  }
}
