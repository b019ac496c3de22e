/** Join codes and medal colours (src/lib/game-logic.ts). */
module GameLogic {
  import opened Decimal

  /** `Math.floor(100000 + Math.random() * 900000)`, the random draw given as `roll`. */
  function GeneratePin(roll: real): (pin: int)
    requires 0.0 <= roll < 1.0
    ensures 100000 <= pin <= 999999
  {
    (100000.0 + roll * 900000.0).Floor
  }

  /** The join code as the string the source hands out (`.toString()` of the number). */
  function PinString(roll: real): (s: string)
    requires 0.0 <= roll < 1.0
    ensures |s| == 6 && IsDigits(s) && s[0] != '0'
    ensures ParseDigits(s) == GeneratePin(roll)
  {
    var n := GeneratePin(roll);
    assert Pow10(5) == 100000 && Pow10(6) == 10 * Pow10(5);
    LengthOfRender(n, 6);
    NoLeadingZero(n);
    ParseAfterRender(n);
    NatToString(n)
  }

  datatype MedalColor = Yellow400 | Slate300 | Amber600 | Slate500

  function GetMedalColor(rank: int): (c: MedalColor)
    ensures rank == 0 <==> c == Yellow400
    ensures rank == 1 <==> c == Slate300
    ensures rank == 2 <==> c == Amber600
    ensures rank !in {0, 1, 2} <==> c == Slate500
  {
    match rank
    case 0 => Yellow400
    case 1 => Slate300
    case 2 => Amber600
    case _ => Slate500
  }
}
