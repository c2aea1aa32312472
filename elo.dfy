/**
 * The rating engine: expected score, K-factor, and the rounded ELO update
 * `round(current + K * (actual - expected))`.
 */
module Elo {

  /** The rating every player starts with. */
  const InitialRating := 1200

  /**
   * `calculateExpectedScore`. Its formula `1 / (1 + 10^((opponent - player) / 400))`
   * needs a real power, so the model takes the function as a parameter and keeps only
   * what its documentation promises: the expected score lies strictly between 0 and 1.
   */
  type ExpectedScoreFn = f: (int, int) -> real | forall a: int, b: int :: 0.0 < f(a, b) < 1.0
    witness (a: int, b: int) => 0.5

  function ExpectedScore(es: ExpectedScoreFn, playerRating: int, opponentRating: int): (e: real)
    ensures 0.0 < e < 1.0
  {
    es(playerRating, opponentRating)
  }

  /** `Math.round`: the nearest integer, halves rounded upward (toward +infinity). */
  function JsRound(x: real): (r: int)
    ensures r as real - 0.5 <= x < r as real + 0.5
  {
    (x + 0.5).Floor
  }

  /** K is 40 for a player with fewer than 20 games and 20 otherwise; team games scale it by 0.75. */
  function KFactor(gamesPlayed: nat, isTeamGame: bool): real
  {
    var k := if gamesPlayed < 20 then 40.0 else 20.0;
    if isTeamGame then k * 0.75 else k
  }

  /** `calculateNewRating`: `actualScore` is 1 for a win and 0 for a loss. */
  function NewRating(es: ExpectedScoreFn, currentRating: int, opponentRating: int,
                     actualScore: int, gamesPlayed: nat, isTeamGame: bool): int
  {
    var k := KFactor(gamesPlayed, isTeamGame);
    var expected := ExpectedScore(es, currentRating, opponentRating);
    JsRound(currentRating as real + k * (actualScore as real - expected))
  }

  /** `Math.round((r1 + r2) / 2)`: the rounded average rating of a two-player team. */
  function TeamAverage(r1: int, r2: int): (avg: int)
    ensures avg == (r1 + r2 + 1) / 2
    ensures r1 <= r2 ==> r1 <= avg <= r2
    ensures r2 <= r1 ==> r2 <= avg <= r1
  {
    JsRound((r1 + r2) as real / 2.0)
  }

  /** The four K values and the threshold at exactly 20 games. */
  lemma KFactorValues(gamesPlayed: nat, isTeamGame: bool)
    ensures !isTeamGame ==> (KFactor(gamesPlayed, isTeamGame) == 40.0 <==> gamesPlayed < 20)
    ensures !isTeamGame ==> (KFactor(gamesPlayed, isTeamGame) == 20.0 <==> gamesPlayed >= 20)
    ensures isTeamGame ==> (KFactor(gamesPlayed, isTeamGame) == 30.0 <==> gamesPlayed < 20)
    ensures isTeamGame ==> (KFactor(gamesPlayed, isTeamGame) == 15.0 <==> gamesPlayed >= 20)
    ensures KFactor(gamesPlayed, isTeamGame) == KFactor(gamesPlayed, false) * (if isTeamGame then 0.75 else 1.0)
  {
  }

  /** K is a whole number, so a rounded step never overshoots it. */
  lemma KFactorIsWhole(gamesPlayed: nat, isTeamGame: bool)
    ensures KFactor(gamesPlayed, isTeamGame) == KFactor(gamesPlayed, isTeamGame).Floor as real
    ensures KFactor(gamesPlayed, isTeamGame) > 0.0
  {
  }

  /** Rounding a value strictly between two integers gives a result between them. */
  lemma RoundBetween(x: real, lo: int, hi: int)
    requires lo as real < x < hi as real
    ensures lo <= JsRound(x) <= hi
  {
  }

  /** A win never lowers the rating and raises it by at most K. */
  lemma WinNeverLowers(es: ExpectedScoreFn, currentRating: int, opponentRating: int,
                       gamesPlayed: nat, isTeamGame: bool)
    ensures currentRating <= NewRating(es, currentRating, opponentRating, 1, gamesPlayed, isTeamGame)
    ensures (NewRating(es, currentRating, opponentRating, 1, gamesPlayed, isTeamGame) - currentRating) as real
            <= KFactor(gamesPlayed, isTeamGame)
  {
    var k := KFactor(gamesPlayed, isTeamGame);
    var e := ExpectedScore(es, currentRating, opponentRating);
    KFactorIsWhole(gamesPlayed, isTeamGame);
    var step := k * (1.0 - e);
    assert 0.0 < step < k;
    RoundBetween(currentRating as real + step, currentRating, currentRating + k.Floor);
  }

  /** A loss never raises the rating and lowers it by at most K. */
  lemma LossNeverRaises(es: ExpectedScoreFn, currentRating: int, opponentRating: int,
                        gamesPlayed: nat, isTeamGame: bool)
    ensures NewRating(es, currentRating, opponentRating, 0, gamesPlayed, isTeamGame) <= currentRating
    ensures (currentRating - NewRating(es, currentRating, opponentRating, 0, gamesPlayed, isTeamGame)) as real
            <= KFactor(gamesPlayed, isTeamGame)
  {
    var k := KFactor(gamesPlayed, isTeamGame);
    var e := ExpectedScore(es, currentRating, opponentRating);
    KFactorIsWhole(gamesPlayed, isTeamGame);
    var step := k * (0.0 - e);
    assert -k < step < 0.0;
    RoundBetween(currentRating as real + step, currentRating - k.Floor, currentRating);
  }

  /**
   * Equal ratings (expected score one half): newcomers move by 20, newcomers in a team
   * game by 15, and experienced team players by +8 on a win but only -7 on a loss,
   * because `Math.round` takes 7.5 up and -7.5 up as well.
   */
  lemma EvenMatch(es: ExpectedScoreFn, r: int)
    requires es(r, r) == 0.5
    ensures NewRating(es, r, r, 1, 0, false) == r + 20
    ensures NewRating(es, r, r, 0, 0, false) == r - 20
    ensures NewRating(es, r, r, 1, 19, true) == r + 15
    ensures NewRating(es, r, r, 0, 19, true) == r - 15
    ensures NewRating(es, r, r, 1, 20, false) == r + 10
    ensures NewRating(es, r, r, 1, 20, true) == r + 8
    ensures NewRating(es, r, r, 0, 20, true) == r - 7
  {
  }
}
