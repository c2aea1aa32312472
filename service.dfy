/**
 * The server's state and its write path, statement by statement: the three tables are
 * fields that `getOrCreatePlayer`, `updatePlayerRating` and the two save handlers
 * update in place. Each method is proved to produce the state the `Ledger` functions
 * describe, so every lemma about those functions holds of the running tables.
 */
module Service {
  import opened Wrappers
  import opened Text
  import opened Elo
  import opened Tables
  import Ledger
  import LedgerProps
  import Stats

  class Tracker {
    var players: seq<Player>
    var singles: seq<SingleGame>
    var teams: seq<TeamGame>
    /** `calculateExpectedScore`, fixed for the lifetime of the server. */
    const es: ExpectedScoreFn

    /** The tables as one value. */
    function State(): Db
      reads this
    {
      Db(players, singles, teams)
    }

    /** One player per case-insensitive name, and every recorded name has a player. */
    ghost predicate Valid()
      reads this
    {
      Tables.Valid(State())
    }

    /** A fresh database: all three tables empty. */
    constructor (es: ExpectedScoreFn)
      ensures State() == EmptyDb && this.es == es
      ensures Valid() && Ledger.Consistent(State())
    {
      players, singles, teams := [], [], [];
      this.es := es;
    }

    /**
     * `getOrCreatePlayer(name)`: the player with the same lower-cased name, or a new
     * one inserted with rating 1200 and no games.
     */
    method GetOrCreatePlayer(name: string) returns (id: nat, p: Player)
      modifies this
      ensures (players, id) == Resolve(old(players), name)
      ensures id < |players| && p == players[id]
      ensures singles == old(singles) && teams == old(teams)
      ensures old(Valid()) ==> Valid()
    {
      var found := FindLower(players, Lower(name));
      if found.Some? {
        id := found.value;
      } else {
        id := |players|;
        players := players + [Player(name, InitialRating, 0)];
      }
      p := players[id];
      if old(Valid()) {
        ResolveKeepsUnique(old(players), name);
        ResolveKeepsRows(old(players), name, players, id);
        Ledger.RegisteredGrow(old(players), players, AllMatches(State()));
      }
    }

    /** The four `getOrCreatePlayer` calls of `/saveTeam`, in their order. */
    method GetOrCreateTeam(wa: string, wd: string, la: string, ld: string)
      returns (waId: nat, wdId: nat, laId: nat, ldId: nat,
               waPlayer: Player, wdPlayer: Player, laPlayer: Player, ldPlayer: Player)
      modifies this
      ensures (players, [waId, wdId, laId, ldId]) == ResolveAll(old(players), [wa, wd, la, ld])
      ensures waId < |players| && wdId < |players| && laId < |players| && ldId < |players|
      ensures waPlayer == players[waId] && wdPlayer == players[wdId]
      ensures laPlayer == players[laId] && ldPlayer == players[ldId]
      ensures singles == old(singles) && teams == old(teams)
      ensures old(Valid()) ==> Valid()
    {
      ghost var ps0 := players;
      waId, waPlayer := GetOrCreatePlayer(wa);
      ghost var ps1 := players;
      wdId, wdPlayer := GetOrCreatePlayer(wd);
      ghost var ps2 := players;
      laId, laPlayer := GetOrCreatePlayer(la);
      ghost var ps3 := players;
      ldId, ldPlayer := GetOrCreatePlayer(ld);
      ResolveFour(ps0, wa, wd, la, ld, ps1, waId, ps2, wdId, ps3, laId, players, ldId);
      ResolveKeepsRows(ps1, wd, ps2, wdId);
      ResolveKeepsRows(ps2, la, ps3, laId);
      ResolveKeepsRows(ps3, ld, players, ldId);
    }

    /** `updatePlayerRating(id, newRating, increment)`: `UPDATE players ... WHERE id = $3`. */
    method UpdatePlayerRating(id: nat, newRating: int, gamesPlayedIncrement: nat := 1)
      modifies this
      ensures players == SetRating(old(players), id, newRating, gamesPlayedIncrement)
      ensures singles == old(singles) && teams == old(teams)
      ensures old(Valid()) ==> Valid()
    {
      if id < |players| {
        var row := players[id];
        players := players[id := Player(row.name, newRating, row.gamesPlayed + gamesPlayedIncrement)];
      }
      if old(Valid()) {
        assert forall i :: 0 <= i < |players| ==> players[i].name == old(players)[i].name;
        Ledger.RegisteredGrow(old(players), players, AllMatches(State()));
      }
    }

    /**
     * `/saveSingle`. A missing or empty name is rejected with nothing changed; otherwise
     * the tables become those of `Ledger.RecordSingle` and the response is its ratings.
     * A balanced ledger stays balanced exactly when the two players differ.
     */
    method SaveSingle(winner: Option<string>, loser: Option<string>, date: int)
      returns (r: Result<Ledger.SingleRatings, Ledger.SaveError>)
      requires Valid()
      modifies this
      ensures Valid()
      ensures r.Failure? <==> !Ledger.Given(winner) || !Ledger.Given(loser)
      ensures r.Failure? ==> r.error == Ledger.MissingName && State() == old(State())
      ensures r.Success? ==>
                (State(), r.value) == Ledger.RecordSingle(old(State()), es, winner.value, loser.value, date)
      ensures r.Success? && old(Ledger.Consistent(State())) ==>
                (Ledger.Consistent(State()) <==> Lower(winner.value) != Lower(loser.value))
    {
      if !Ledger.Given(winner) || !Ledger.Given(loser) {
        return Failure(Ledger.MissingName);
      }
      ghost var db := State();
      var w, l := winner.value, loser.value;
      var winnerId, winnerPlayer := GetOrCreatePlayer(w);
      ghost var ps1 := players;
      var loserId, loserPlayer := GetOrCreatePlayer(l);
      ResolveTwo(db.players, w, l, ps1, winnerId, players, loserId);
      ghost var resolved := players;

      var winnerNewRating := NewRating(es, winnerPlayer.rating, loserPlayer.rating, 1, winnerPlayer.gamesPlayed, false);
      var loserNewRating := NewRating(es, loserPlayer.rating, winnerPlayer.rating, 0, loserPlayer.gamesPlayed, false);
      singles := singles + [SingleGame(date, Slot(w, winnerPlayer.rating, winnerNewRating),
                                             Slot(l, loserPlayer.rating, loserNewRating))];
      UpdatePlayerRating(winnerId, winnerNewRating);
      UpdatePlayerRating(loserId, loserNewRating);
      r := Success(Ledger.SingleRatings(Ledger.Change(w, winnerPlayer.rating, winnerNewRating),
                                        Ledger.Change(l, loserPlayer.rating, loserNewRating)));
      Ledger.RecordSingleAt(db, es, w, l, date, resolved, winnerId, loserId, winnerPlayer, loserPlayer,
                            winnerNewRating, loserNewRating);
      LedgerProps.SingleConservation(db, es, w, l, date);
    }

    /**
     * `/saveTeam`. A missing or empty name is rejected with nothing changed; otherwise
     * the tables become those of `Ledger.RecordTeam` and the response is its ratings.
     * A balanced ledger stays balanced exactly when the four players differ.
     */
    method SaveTeam(winnerAttack: Option<string>, winnerDefense: Option<string>,
                    loserAttack: Option<string>, loserDefense: Option<string>, date: int)
      returns (r: Result<Ledger.TeamRatings, Ledger.SaveError>)
      requires Valid()
      modifies this
      ensures Valid()
      ensures r.Failure? <==> !Ledger.Given(winnerAttack) || !Ledger.Given(winnerDefense) ||
                              !Ledger.Given(loserAttack) || !Ledger.Given(loserDefense)
      ensures r.Failure? ==> r.error == Ledger.MissingName && State() == old(State())
      ensures r.Success? ==>
                (State(), r.value) == Ledger.RecordTeam(old(State()), es, winnerAttack.value, winnerDefense.value,
                                                        loserAttack.value, loserDefense.value, date)
      ensures r.Success? && old(Ledger.Consistent(State())) ==>
                (Ledger.Consistent(State()) <==>
                 Ledger.DistinctKeys([winnerAttack.value, winnerDefense.value, loserAttack.value, loserDefense.value]))
    {
      if !Ledger.Given(winnerAttack) || !Ledger.Given(winnerDefense) ||
         !Ledger.Given(loserAttack) || !Ledger.Given(loserDefense) {
        return Failure(Ledger.MissingName);
      }
      ghost var db := State();
      var wa, wd, la, ld := winnerAttack.value, winnerDefense.value, loserAttack.value, loserDefense.value;
      var waId, wdId, laId, ldId, waPlayer, wdPlayer, laPlayer, ldPlayer := GetOrCreateTeam(wa, wd, la, ld);
      ghost var resolved := players;

      var winningTeamAvgRating := TeamAverage(waPlayer.rating, wdPlayer.rating);
      var losingTeamAvgRating := TeamAverage(laPlayer.rating, ldPlayer.rating);
      var waNew := NewRating(es, waPlayer.rating, losingTeamAvgRating, 1, waPlayer.gamesPlayed, true);
      var wdNew := NewRating(es, wdPlayer.rating, losingTeamAvgRating, 1, wdPlayer.gamesPlayed, true);
      var laNew := NewRating(es, laPlayer.rating, winningTeamAvgRating, 0, laPlayer.gamesPlayed, true);
      var ldNew := NewRating(es, ldPlayer.rating, winningTeamAvgRating, 0, ldPlayer.gamesPlayed, true);
      var game := TeamGame(date, Slot(wa, waPlayer.rating, waNew), Slot(wd, wdPlayer.rating, wdNew),
                           Slot(la, laPlayer.rating, laNew), Slot(ld, ldPlayer.rating, ldNew));
      teams := teams + [game];
      UpdatePlayerRating(waId, waNew);
      ghost var q1 := players;
      UpdatePlayerRating(wdId, wdNew);
      ghost var q2 := players;
      UpdatePlayerRating(laId, laNew);
      ghost var q3 := players;
      UpdatePlayerRating(ldId, ldNew);
      r := Success(Ledger.TeamRatings(Ledger.Change(wa, waPlayer.rating, waNew),
                                      Ledger.Change(wd, wdPlayer.rating, wdNew),
                                      Ledger.Change(la, laPlayer.rating, laNew),
                                      Ledger.Change(ld, ldPlayer.rating, ldNew)));
      ghost var after := Db(SetRating(SetRating(SetRating(SetRating(resolved, waId, waNew, 1), wdId, wdNew, 1),
                                                laId, laNew, 1), ldId, ldNew, 1), db.singles, db.teams + [game]);
      assert State() == after by {
        assert q1 == SetRating(resolved, waId, waNew, 1);
        assert q2 == SetRating(q1, wdId, wdNew, 1);
        assert q3 == SetRating(q2, laId, laNew, 1);
        assert players == SetRating(q3, ldId, ldNew, 1);
        assert singles == db.singles && teams == db.teams + [game];
      }
      Ledger.RecordTeamAt(db, es, wa, wd, la, ld, date, resolved, waId, wdId, laId, ldId,
                          waPlayer, wdPlayer, laPlayer, ldPlayer, waNew, wdNew, laNew, ldNew);
      LedgerProps.TeamConservation(db, es, wa, wd, la, ld, date);
    }

    /** `/stats`, read from the current tables, which it leaves unchanged. */
    method Leaderboard() returns (rows: seq<Stats.StatRow>)
      ensures Stats.Reports(State(), rows)
    {
      rows := Stats.Leaderboard(State());
    }
  }
}
