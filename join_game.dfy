/** Joining a game (src/app/play/page.tsx): the PIN field, and the sequence of checks that ends in
    a new player row. The store is a value queried the way the page queries it; the random suffix
    draw, the player's answer to the rename prompt and the outcome of the insert are parameters. */
module JoinGame {
  import opened Wrappers
  import opened Decimal

  const PinLength: nat := 6

  // ---------------------------------------------------------------------------
  // The PIN field: at most six characters typed, then upper-cased (ASCII case mapping only)
  // ---------------------------------------------------------------------------

  /** `toUpperCase()` restricted to ASCII: a-z become A-Z and every other character is kept as it
      is. Letters outside ASCII, which JavaScript also maps (some to two characters), are outside
      this model. */
  function UpperChar(c: char): (u: char)
    ensures !('a' <= u <= 'z')
    ensures 'a' <= c <= 'z' ==> 'A' <= u <= 'Z' && u as int == c as int - 32
    ensures !('a' <= c <= 'z') ==> u == c
  {
    if 'a' <= c <= 'z' then (c as int - 32) as char else c
  }

  /** The field's value after typing: the browser keeps at most six characters, then the handler
      upper-cases them one for one (so the six-character bound holds for the ASCII case map). */
  function PinInput(typed: string): (pin: string)
    ensures |pin| <= PinLength
    ensures |pin| == if |typed| <= PinLength then |typed| else PinLength
    ensures forall k :: 0 <= k < |pin| ==> pin[k] == UpperChar(typed[k]) && !('a' <= pin[k] <= 'z')
  {
    var kept := if |typed| <= PinLength then typed else typed[..PinLength];
    seq(|kept|, k requires 0 <= k < |kept| => UpperChar(kept[k]))
  }

  /** Typing the field's own value again changes nothing. */
  lemma PinInputIdempotent(typed: string)
    ensures PinInput(PinInput(typed)) == PinInput(typed)
  {
  }

  // ---------------------------------------------------------------------------
  // The duplicate-name suggestion
  // ---------------------------------------------------------------------------

  /** `Math.floor(1000 + Math.random() * 9000)`. */
  function Suffix(roll: real): (n: int)
    requires 0.0 <= roll < 1.0
    ensures 1000 <= n <= 9999
  {
    (1000.0 + roll * 9000.0).Floor
  }

  /** `${name}#${uniqueSuffix}`: the name, a hash and four digits. */
  function SuggestedName(name: string, roll: real): (s: string)
    requires 0.0 <= roll < 1.0
    ensures |s| == |name| + 5 && s[..|name|] == name && s[|name|] == '#'
    ensures IsDigits(s[|name| + 1..]) && s[|name| + 1] != '0' && ParseDigits(s[|name| + 1..]) == Suffix(roll)
  {
    var n := Suffix(roll);
    assert Pow10(3) == 1000 && Pow10(4) == 10 * Pow10(3);
    LengthOfRender(n, 4);
    NoLeadingZero(n);
    ParseAfterRender(n);
    var s := name + "#" + NatToString(n);
    assert s[|name| + 1..] == NatToString(n);
    s
  }

  // ---------------------------------------------------------------------------
  // The store as the page sees it
  // ---------------------------------------------------------------------------

  datatype SessionRow = SessionRow(id: string, pin: string, status: string)
  datatype PlayerRow = PlayerRow(id: string, sessionId: string, name: string, score: int)
  datatype Store = Store(sessions: seq<SessionRow>, players: seq<PlayerRow>)

  /** The rows a chain of `.eq(...)` filters selects, in table order. */
  function Select<R(!new)>(rows: seq<R>, matches: R -> bool): (r: seq<R>)
    ensures |r| <= |rows|
    ensures forall x :: x in r <==> x in rows && matches(x)
  {
    if rows == [] then []
    else
      assert rows == [rows[0]] + rows[1..];
      (if matches(rows[0]) then [rows[0]] else []) + Select(rows[1..], matches)
  }

  predicate MatchAt<R>(rows: seq<R>, matches: R -> bool, k: int) {
    0 <= k < |rows| && matches(rows[k])
  }

  /** The query selects nothing exactly when no row matches. */
  lemma {:induction false} NoMatchIff<R(!new)>(rows: seq<R>, matches: R -> bool)
    ensures |Select(rows, matches)| == 0 <==> forall k :: !MatchAt(rows, matches, k)
  {
    if rows != [] {
      NoMatchIff(rows[1..], matches);
      assert forall k :: 1 <= k < |rows| ==> (MatchAt(rows, matches, k) <==> MatchAt(rows[1..], matches, k - 1));
      if matches(rows[0]) {
        assert MatchAt(rows, matches, 0);
      } else {
        assert forall k :: MatchAt(rows[1..], matches, k) ==> MatchAt(rows, matches, k + 1);
      }
    }
  }

  /** Row k matches and no other row does. */
  ghost predicate Unique<R>(rows: seq<R>, matches: R -> bool, k: int) {
    MatchAt(rows, matches, k) && forall m :: MatchAt(rows, matches, m) ==> m == k
  }

  /** The query selects a single row exactly when exactly one row matches. */
  lemma {:induction false} OneMatchIff<R(!new)>(rows: seq<R>, matches: R -> bool)
    ensures |Select(rows, matches)| == 1 <==> exists k :: Unique(rows, matches, k)
  {
    if rows != [] {
      OneMatchIff(rows[1..], matches);
      NoMatchIff(rows[1..], matches);
      if matches(rows[0]) {
        UniqueAfterMatchingHead(rows, matches);
      } else {
        UniqueAfterOtherHead(rows, matches);
      }
    }
  }

  lemma UniqueAfterMatchingHead<R>(rows: seq<R>, matches: R -> bool)
    requires rows != [] && matches(rows[0])
    ensures (exists k :: Unique(rows, matches, k)) <==> forall k :: !MatchAt(rows[1..], matches, k)
  {
    var tail := rows[1..];
    assert MatchAt(rows, matches, 0);
    assert forall j :: MatchAt(tail, matches, j) ==> MatchAt(rows, matches, j + 1);
    if forall k :: !MatchAt(tail, matches, k) {
      forall m | MatchAt(rows, matches, m) ensures m == 0 {
        if m != 0 {
          assert MatchAt(tail, matches, m - 1);
        }
      }
      assert Unique(rows, matches, 0);
    }
  }

  lemma UniqueAfterOtherHead<R>(rows: seq<R>, matches: R -> bool)
    requires rows != [] && !matches(rows[0])
    ensures (exists k :: Unique(rows, matches, k)) <==> exists k :: Unique(rows[1..], matches, k)
  {
    var tail := rows[1..];
    assert forall j :: MatchAt(tail, matches, j) ==> MatchAt(rows, matches, j + 1);
    assert forall m :: MatchAt(rows, matches, m) ==> m >= 1 && MatchAt(tail, matches, m - 1);
    if exists k :: Unique(tail, matches, k) {
      var k :| Unique(tail, matches, k);
      assert Unique(rows, matches, k + 1);
    }
    if exists k :: Unique(rows, matches, k) {
      var k :| Unique(rows, matches, k);
      assert Unique(tail, matches, k - 1);
    }
  }

  /** `.eq('pin', pin)`. */
  function PinMatch(pin: string): SessionRow -> bool {
    (s: SessionRow) => s.pin == pin
  }

  /** `.eq('game_session_id', sessionId).eq('name', name)`. */
  function NameMatch(sessionId: string, name: string): PlayerRow -> bool {
    (p: PlayerRow) => p.sessionId == sessionId && p.name == name
  }

  /** The sessions with the PIN: every one of them, and nothing else. */
  function SessionsWithPin(sessions: seq<SessionRow>, pin: string): (r: seq<SessionRow>)
    ensures forall s :: s in r <==> s in sessions && s.pin == pin
  {
    Select(sessions, PinMatch(pin))
  }

  /** The players of the session with the name: every one of them, and nothing else. */
  function PlayersNamed(players: seq<PlayerRow>, sessionId: string, name: string): (r: seq<PlayerRow>)
    ensures forall p :: p in r <==> p in players && p.sessionId == sessionId && p.name == name
  {
    Select(players, NameMatch(sessionId, name))
  }

  /** `.select('id, status').eq('pin', pin).single()`: a session exactly when one row carries the
      PIN, and then that row; an error (here None) for no row and for several. */
  function LookupSession(store: Store, pin: string): (r: Option<SessionRow>)
    ensures r.Some? <==>
      exists k :: 0 <= k < |store.sessions| && store.sessions[k].pin == pin
        && forall m :: 0 <= m < |store.sessions| && store.sessions[m].pin == pin ==> m == k
    ensures r.Some? ==> r.value.pin == pin && r.value in store.sessions
  {
    var ss := store.sessions;
    OneMatchIff(ss, PinMatch(pin));
    assert forall k :: MatchAt(ss, PinMatch(pin), k) <==> 0 <= k < |ss| && ss[k].pin == pin;
    assert forall k :: Unique(ss, PinMatch(pin), k) <==>
      0 <= k < |ss| && ss[k].pin == pin && forall m :: 0 <= m < |ss| && ss[m].pin == pin ==> m == k;
    var rows := SessionsWithPin(store.sessions, pin);
    if |rows| == 1 then
      assert rows[0] in rows;
      Some(rows[0])
    else None
  }

  /** `.select('id').eq('game_session_id', id).eq('name', name).maybeSingle()` reports a player
      exactly when one row of that session carries the name; for several rows it errors, the page
      ignores the error, and the name counts as free. */
  function NameTaken(store: Store, sessionId: string, name: string): (taken: bool)
    ensures taken <==>
      exists k :: 0 <= k < |store.players| && store.players[k].sessionId == sessionId && store.players[k].name == name
        && forall m :: 0 <= m < |store.players| && store.players[m].sessionId == sessionId && store.players[m].name == name ==> m == k
  {
    var ps := store.players;
    OneMatchIff(ps, NameMatch(sessionId, name));
    assert forall k :: MatchAt(ps, NameMatch(sessionId, name), k) <==>
      0 <= k < |ps| && ps[k].sessionId == sessionId && ps[k].name == name;
    assert forall k :: Unique(ps, NameMatch(sessionId, name), k) <==>
      0 <= k < |ps| && ps[k].sessionId == sessionId && ps[k].name == name
      && forall m :: 0 <= m < |ps| && ps[m].sessionId == sessionId && ps[m].name == name ==> m == k;
    |PlayersNamed(store.players, sessionId, name)| == 1
  }

  // ---------------------------------------------------------------------------
  // handleJoin
  // ---------------------------------------------------------------------------

  datatype JoinOutcome =
    | EmptyPin                          // "Please enter a Game PIN"
    | PinNotFound                       // "Game PIN not found"
    | GameFinished                      // "Game already finished"
    | RenameDeclined(suggestion: string) // the player refused the suffixed name
    | JoinFailed                        // "Error joining game"
    | Joined(created: PlayerRow)        // then on to /play/<session id>

  /** The checks in the page's order. `confirmRename` is the player's answer to the rename prompt,
      `suffixRoll` the random draw for the suffix, `insertFails` whether the store refuses the row,
      `newId` the id the store gives the new row. */
  method HandleJoin(store: Store, pin: string, name: string, suffixRoll: real, confirmRename: bool,
                    insertFails: bool, newId: string)
    returns (outcome: JoinOutcome)
    requires 0.0 <= suffixRoll < 1.0
    ensures pin == "" <==> outcome == EmptyPin
    ensures outcome == PinNotFound <==> pin != "" && LookupSession(store, pin).None?
    ensures outcome == GameFinished <==>
      pin != "" && LookupSession(store, pin).Some? && LookupSession(store, pin).value.status == "finished"
    ensures outcome.RenameDeclined? <==>
      && pin != "" && LookupSession(store, pin).Some? && LookupSession(store, pin).value.status != "finished"
      && NameTaken(store, LookupSession(store, pin).value.id, name) && !confirmRename
    ensures outcome.RenameDeclined? ==> outcome.suggestion == SuggestedName(name, suffixRoll)
    ensures outcome.Joined? ==>
      && pin != "" && LookupSession(store, pin).Some? && !insertFails
      && var session := LookupSession(store, pin).value;
      && session.status != "finished"
      && outcome.created.id == newId && outcome.created.sessionId == session.id && outcome.created.score == 0
      && outcome.created.name == (if NameTaken(store, session.id, name) then SuggestedName(name, suffixRoll) else name)
    ensures outcome == JoinFailed ==> insertFails
  {
    if pin == "" {
      return EmptyPin;
    }
    var session := LookupSession(store, pin);
    if session.None? {
      return PinNotFound;
    }
    if session.value.status == "finished" {
      return GameFinished;
    }
    var finalName := name;
    if NameTaken(store, session.value.id, name) {
      var suggestedName := SuggestedName(name, suffixRoll);
      if !confirmRename {
        return RenameDeclined(suggestedName);
      }
      finalName := suggestedName;
    }
    if insertFails {
      return JoinFailed;
    }
    return Joined(PlayerRow(newId, session.value.id, finalName, 0));
  }

  /** The name query finds no row exactly when no player of that session carries the name. */
  lemma NoneNamedIff(players: seq<PlayerRow>, sessionId: string, name: string)
    ensures |PlayersNamed(players, sessionId, name)| == 0 <==>
      forall k :: 0 <= k < |players| ==> !(players[k].sessionId == sessionId && players[k].name == name)
  {
    NoMatchIff(players, NameMatch(sessionId, name));
    assert forall k :: MatchAt(players, NameMatch(sessionId, name), k) <==>
      0 <= k < |players| && players[k].sessionId == sessionId && players[k].name == name;
  }

  /** A name that several rows of the session already carry is not reported as taken: the query
      then errors and the page keeps the name as typed. */
  lemma DuplicatedNameIsKept()
    ensures var store := Store([SessionRow("s", "123456", "waiting")],
                               [PlayerRow("p1", "s", "Ana", 0), PlayerRow("p2", "s", "Ana", 0)]);
      && !NameTaken(store, "s", "Ana")
      && exists k :: 0 <= k < |store.players| && store.players[k].name == "Ana"
  {
  }
}
