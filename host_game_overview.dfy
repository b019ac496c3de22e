/** The end-of-game overview (src/components/game/HostGameOverview.tsx): the final ranking,
    the room statistics, per-player accuracy and the podium medals. `Math.round` of a ratio is
    stated in integer arithmetic. */
module HostGameOverview {
  import opened Wrappers
  import opened QuizTypes
  import HostRunner

  // ---------------------------------------------------------------------------
  // Rounding
  // ---------------------------------------------------------------------------

  /** `Math.round(n / d)` for d > 0: the integer nearest n / d, halves rounded up. */
  function RoundHalfUp(n: int, d: int): (r: int)
    requires d > 0
    ensures 2 * d * r - d <= 2 * n < 2 * d * r + d
  {
    var q := (2 * n + d) / (2 * d);
    assert 2 * d * q <= 2 * n + d < 2 * d * q + 2 * d;
    q
  }

  lemma MulMonotone(d: int, a: int, b: int)
    requires d > 0 && a <= b
    ensures d * a <= d * b
  {
  }

  /** A ratio between lo and hi rounds to a value between lo and hi. */
  lemma RoundWithin(n: int, d: int, lo: int, hi: int)
    requires d > 0 && lo * d <= n <= hi * d
    ensures lo <= RoundHalfUp(n, d) <= hi
  {
    var r := RoundHalfUp(n, d);
    if r > hi {
      MulMonotone(d, hi + 1, r);
      assert false;
    }
    if r < lo {
      MulMonotone(d, r, lo - 1);
      assert false;
    }
  }

  // ---------------------------------------------------------------------------
  // sortedPlayers: a copy sorted by score, highest first
  // ---------------------------------------------------------------------------

  /** The sort key: `b.score - a.score` treats a null score as 0. */
  function Key(p: Player): int {
    OrZero(p.score)
  }

  predicate SortedByScore(s: seq<Player>) {
    forall i, j :: 0 <= i < j < |s| ==> Key(s[i]) >= Key(s[j])
  }

  /** Puts p after every element whose score is at least p's (so equal scores keep their order). */
  function Insert(s: seq<Player>, p: Player): (r: seq<Player>)
    ensures |r| == |s| + 1
  {
    if s == [] then [p]
    else if Key(s[0]) >= Key(p) then [s[0]] + Insert(s[1..], p)
    else [p] + s
  }

  lemma {:induction false} InsertPermutes(s: seq<Player>, p: Player)
    ensures multiset(Insert(s, p)) == multiset(s) + multiset{p}
  {
    if s != [] && Key(s[0]) >= Key(p) {
      InsertPermutes(s[1..], p);
      assert s == [s[0]] + s[1..];
    }
  }

  lemma {:induction false} InsertSorted(s: seq<Player>, p: Player)
    requires SortedByScore(s)
    ensures SortedByScore(Insert(s, p))
  {
    if s != [] && Key(s[0]) >= Key(p) {
      InsertSorted(s[1..], p);
      InsertPermutes(s[1..], p);
      var r := Insert(s, p);
      forall k | 1 <= k < |r| ensures Key(r[0]) >= Key(r[k]) {
        assert r[k] in multiset(Insert(s[1..], p));
        assert r[k] in multiset(s[1..]) || r[k] == p;
        if r[k] != p {
          var m :| 0 <= m < |s[1..]| && s[1..][m] == r[k];
          assert s[m + 1] == r[k];
        }
      }
    }
  }

  /** `[...players].sort((a, b) => b.score - a.score)`, as a stable insertion sort of a copy. */
  function SortByScore(ps: seq<Player>): (r: seq<Player>)
    ensures |r| == |ps|
  {
    if ps == [] then [] else Insert(SortByScore(ps[..|ps| - 1]), ps[|ps| - 1])
  }

  /** sortedPlayers is a permutation of the players with scores non-increasing. */
  lemma {:induction false} SortByScoreCorrect(ps: seq<Player>)
    ensures |SortByScore(ps)| == |ps|
    ensures multiset(SortByScore(ps)) == multiset(ps)
    ensures SortedByScore(SortByScore(ps))
  {
    if ps != [] {
      var init := ps[..|ps| - 1];
      SortByScoreCorrect(init);
      InsertPermutes(SortByScore(init), ps[|ps| - 1]);
      InsertSorted(SortByScore(init), ps[|ps| - 1]);
      assert ps == init + [ps[|ps| - 1]];
    }
  }

  // ---------------------------------------------------------------------------
  // stats
  // ---------------------------------------------------------------------------

  function TotalCorrect(ps: seq<Player>): int {
    if ps == [] then 0 else OrZero(ps[0].correctCount) + TotalCorrect(ps[1..])
  }

  function TotalWrong(ps: seq<Player>): int {
    if ps == [] then 0 else OrZero(ps[0].wrongCount) + TotalWrong(ps[1..])
  }

  datatype Stats = Stats(totalPlayers: nat, avgScore: int, avgAccuracy: int, totalCorrect: int, totalWrong: int)

  function ComputeStats(players: seq<Player>, totalQuestions: nat): (s: Stats)
    ensures s.totalPlayers == |players|
    ensures s.totalCorrect == TotalCorrect(players) && s.totalWrong == TotalWrong(players)
    ensures |players| == 0 ==> s.avgScore == 0
    ensures |players| > 0 ==>
      2 * |players| * s.avgScore - |players| <= 2 * HostRunner.TotalScore(players) < 2 * |players| * s.avgScore + |players|
    ensures (totalQuestions == 0 || |players| == 0) ==> s.avgAccuracy == 0
    ensures totalQuestions > 0 && |players| > 0 ==>
      var d := |players| * totalQuestions;
      2 * d * s.avgAccuracy - d <= 200 * s.totalCorrect < 2 * d * s.avgAccuracy + d
  {
    var totalPlayers := |players|;
    var totalScore := HostRunner.TotalScore(players);
    var avgScore := if totalPlayers > 0 then RoundHalfUp(totalScore, totalPlayers) else 0;
    var totalCorrect := TotalCorrect(players);
    var totalWrong := TotalWrong(players);
    var avgAccuracy :=
      if totalQuestions > 0 && totalPlayers > 0 then RoundHalfUp(100 * totalCorrect, totalPlayers * totalQuestions) else 0;
    Stats(totalPlayers, avgScore, avgAccuracy, totalCorrect, totalWrong)
  }

  /** Correct counts that never exceed the number of questions (as the engine keeps them) give an
      average accuracy between 0 and 100 percent. */
  lemma {:induction false} AvgAccuracyInRange(players: seq<Player>, totalQuestions: nat)
    requires forall i :: 0 <= i < |players| ==> 0 <= OrZero(players[i].correctCount) <= totalQuestions
    ensures 0 <= ComputeStats(players, totalQuestions).avgAccuracy <= 100
  {
    if totalQuestions > 0 && |players| > 0 {
      TotalCorrectBounded(players, totalQuestions);
      var d := |players| * totalQuestions;
      RoundWithin(100 * TotalCorrect(players), d, 0, 100);
    }
  }

  lemma {:induction false} TotalCorrectBounded(players: seq<Player>, totalQuestions: nat)
    requires forall i :: 0 <= i < |players| ==> 0 <= OrZero(players[i].correctCount) <= totalQuestions
    ensures 0 <= TotalCorrect(players) <= |players| * totalQuestions
  {
    if players != [] {
      TotalCorrectBounded(players[1..], totalQuestions);
      assert |players| * totalQuestions == totalQuestions + (|players| - 1) * totalQuestions;
    }
  }

  /** The accuracy shown beside a player: `round(100 * correct_count / totalQuestions)`, 0 without questions. */
  function PlayerAccuracy(p: Player, totalQuestions: nat): (a: int)
    ensures totalQuestions == 0 ==> a == 0
    ensures totalQuestions > 0 ==>
      2 * totalQuestions * a - totalQuestions <= 200 * OrZero(p.correctCount) < 2 * totalQuestions * a + totalQuestions
    ensures 0 <= OrZero(p.correctCount) <= totalQuestions ==> 0 <= a <= 100
  {
    if totalQuestions > 0 then
      var c := OrZero(p.correctCount);
      assert 0 <= c <= totalQuestions ==> 0 <= RoundHalfUp(100 * c, totalQuestions) <= 100 by {
        if 0 <= c <= totalQuestions {
          RoundWithin(100 * c, totalQuestions, 0, 100);
        }
      }
      RoundHalfUp(100 * c, totalQuestions)
    else 0
  }

  // ---------------------------------------------------------------------------
  // Medals
  // ---------------------------------------------------------------------------

  datatype Medal = Trophy | SilverMedal | Award

  /** getMedalIcon: an icon for ranks 0, 1 and 2, none otherwise. */
  function MedalIcon(rank: int): (m: Option<Medal>)
    ensures m.Some? <==> 0 <= rank <= 2
    ensures rank == 0 ==> m == Some(Trophy)
    ensures rank == 1 ==> m == Some(SilverMedal)
    ensures rank == 2 ==> m == Some(Award)
  {
    if rank == 0 then Some(Trophy)
    else if rank == 1 then Some(SilverMedal)
    else if rank == 2 then Some(Award)
    else None
  }

  datatype Badge = MedalBadge(medal: Medal) | NumberBadge(number: int)

  /** The rank cell: `index < 3 ? getMedalIcon(index) : index + 1`. */
  function RankBadge(index: nat): (b: Badge)
    ensures index < 3 <==> b.MedalBadge?
    ensures index < 3 ==> b == MedalBadge(MedalIcon(index).value)
    ensures index >= 3 ==> b == NumberBadge(index + 1)
  {
    if index < 3 then MedalBadge(MedalIcon(index).value) else NumberBadge(index + 1)
  }

  /** The three podium places show three different medals. */
  lemma PodiumMedalsDistinct(i: nat, j: nat)
    requires i < 3 && j < 3 && i != j
    ensures RankBadge(i) != RankBadge(j)
  {
  }
}
