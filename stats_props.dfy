/**
 * What a `/stats` response says about the tables: each row's counters are the name's
 * records in the match columns, its rating is the live rating of the player with that
 * name (1200 and no games when there is none), its history has at most five changes,
 * and the wins and losses of all rows add up to the recorded matches.
 */
module StatsProps {
  import opened Wrappers
  import opened Text
  import opened Elo
  import opened Sorting
  import opened Tables
  import opened History
  import opened Stats

  /** `LastWith` finds a player exactly when some player carries the name. */
  lemma {:induction false} LastWithSpec(ps: seq<Player>, key: string)
    ensures LastWith(ps, key).None? <==> !Known(ps, key)
    ensures LastWith(ps, key).Some? ==>
              exists i :: 0 <= i < |ps| && Lower(ps[i].name) == key && LastWith(ps, key).value == ps[i]
    decreases |ps|
  {
    if ps != [] && Lower(ps[|ps| - 1].name) != key {
      var init := ps[..|ps| - 1];
      LastWithSpec(init, key);
      assert forall i :: 0 <= i < |init| ==> init[i] == ps[i];
      if !Known(init, key) {
        forall i | 0 <= i < |ps| ensures Lower(ps[i].name) != key {
          if i < |init| {
            assert init[i] == ps[i];
          }
        }
      }
    } else if ps != [] {
      assert Lower(ps[|ps| - 1].name) == key;
    }
  }

  /** With one player per name, `LastWith` finds that player. */
  lemma {:induction false} LastWithUnique(ps: seq<Player>, key: string, i: nat)
    requires UniqueNames(ps) && i < |ps| && Lower(ps[i].name) == key
    ensures LastWith(ps, key) == Some(ps[i])
    decreases |ps|
  {
    if i < |ps| - 1 {
      var init := ps[..|ps| - 1];
      assert Lower(ps[|ps| - 1].name) != key;
      assert UniqueNames(init) by {
        forall a, b | 0 <= a < b < |init| ensures Lower(init[a].name) != Lower(init[b].name) {
          assert init[a] == ps[a] && init[b] == ps[b];
        }
      }
      LastWithUnique(init, key, i);
    }
  }

  lemma SingleKnown(db: Db, key: string, slot: nat)
    requires Valid(db) && slot < 2 && key in SingleColumn(db.singles, slot)
    ensures Known(db.players, key)
  {
    var i :| 0 <= i < |db.singles| && SingleColumn(db.singles, slot)[i] == key;
    var ms := AllMatches(db);
    assert ms[i] == db.singles[i].AsMatch();
    assert Known(db.players, Lower(ms[i].slots[slot].name));
  }

  lemma TeamKnown(db: Db, key: string, slot: nat)
    requires Valid(db) && slot < 4 && key in TeamColumn(db.teams, slot)
    ensures Known(db.players, key)
  {
    var i :| 0 <= i < |db.teams| && TeamColumn(db.teams, slot)[i] == key;
    var ms := AllMatches(db);
    assert ms[|db.singles| + i] == db.teams[i].AsMatch();
    assert Known(db.players, Lower(ms[|db.singles| + i].slots[slot].name));
  }

  /** In a valid database every name that appears in a match belongs to a player. */
  lemma AppearsKnown(db: Db, key: string)
    requires Valid(db) && Appears(db, key)
    ensures Known(db.players, key)
  {
    if key in SingleColumn(db.singles, 0) {
      SingleKnown(db, key, 0);
    } else if key in SingleColumn(db.singles, 1) {
      SingleKnown(db, key, 1);
    } else if key in TeamColumn(db.teams, 0) {
      TeamKnown(db, key, 0);
    } else if key in TeamColumn(db.teams, 1) {
      TeamKnown(db, key, 1);
    } else if key in TeamColumn(db.teams, 2) {
      TeamKnown(db, key, 2);
    } else {
      TeamKnown(db, key, 3);
    }
  }

  /**
   * The counters of a row: single wins and losses are the name's records in the winner
   * and loser columns, team wins and losses count the attack and the defense columns
   * together, and the totals are the sums.
   */
  lemma RowCounters(db: Db, rows: seq<StatRow>, i: nat)
    requires Reports(db, rows) && i < |rows|
    ensures var key, s := Lower(rows[i].player.name), rows[i].player;
            && s.singleWins == multiset(SingleColumn(db.singles, 0))[key]
            && s.singleLosses == multiset(SingleColumn(db.singles, 1))[key]
            && s.teamWins == multiset(TeamColumn(db.teams, 0))[key] + multiset(TeamColumn(db.teams, 1))[key]
            && s.teamLosses == multiset(TeamColumn(db.teams, 2))[key] + multiset(TeamColumn(db.teams, 3))[key]
            && s.totalWins == s.singleWins + s.teamWins
            && s.totalLosses == s.singleLosses + s.teamLosses
  {
    var key := Lower(rows[i].player.name);
    assert rows[i] == RowFor(db, key);
  }

  /** In a valid database a row carries the live rating and games played of its player. */
  lemma RowRatingOfPlayer(db: Db, rows: seq<StatRow>, i: nat)
    requires Reports(db, rows) && Valid(db) && i < |rows|
    ensures exists id :: 0 <= id < |db.players| && Lower(db.players[id].name) == Lower(rows[i].player.name) &&
                         rows[i].player.rating == db.players[id].rating &&
                         rows[i].player.gamesPlayed == db.players[id].gamesPlayed
  {
    var key := Lower(rows[i].player.name);
    AppearsKnown(db, key);
    var id :| 0 <= id < |db.players| && Lower(db.players[id].name) == key;
    LastWithUnique(db.players, key, id);
    assert rows[i] == RowFor(db, key);
  }

  /** A row whose name no player carries shows the initial rating and no games. */
  lemma RowRatingDefault(db: Db, rows: seq<StatRow>, i: nat)
    requires Reports(db, rows) && i < |rows| && !Known(db.players, Lower(rows[i].player.name))
    ensures rows[i].player.rating == InitialRating && rows[i].player.gamesPlayed == 0
  {
    var key := Lower(rows[i].player.name);
    LastWithSpec(db.players, key);
    assert rows[i] == RowFor(db, key);
  }

  /** A row's history is `getLastFiveRatingChanges` of its name: at most five changes. */
  lemma RowHistory(db: Db, rows: seq<StatRow>, i: nat)
    requires Reports(db, rows) && i < |rows|
    ensures rows[i].ratingHistory == RatingHistory(rows[i].player.name, db)
    ensures |rows[i].ratingHistory| <= HistoryLength
  {
    var key := Lower(rows[i].player.name);
    assert rows[i] == RowFor(db, key);
  }

  /** The number of records of the names `ks` in `m`. */
  function Occurrences(ks: seq<string>, m: multiset<string>): nat {
    if ks == [] then 0 else Occurrences(ks[..|ks| - 1], m) + m[ks[|ks| - 1]]
  }

  lemma {:induction false} OccurrencesNone(ks: seq<string>)
    ensures Occurrences(ks, multiset{}) == 0
    decreases |ks|
  {
    if ks != [] {
      OccurrencesNone(ks[..|ks| - 1]);
    }
  }

  lemma {:induction false} OccurrencesAdd(ks: seq<string>, a: multiset<string>, b: multiset<string>)
    ensures Occurrences(ks, a + b) == Occurrences(ks, a) + Occurrences(ks, b)
    decreases |ks|
  {
    if ks != [] {
      OccurrencesAdd(ks[..|ks| - 1], a, b);
    }
  }

  lemma {:induction false} OccurrencesOne(ks: seq<string>, x: string)
    requires Distinct(ks)
    ensures Occurrences(ks, multiset{x}) == if x in ks then 1 else 0
    decreases |ks|
  {
    if ks != [] {
      var init := ks[..|ks| - 1];
      assert Distinct(init) by {
        forall i, j | 0 <= i < j < |init| ensures init[i] != init[j] {
          assert init[i] == ks[i] && init[j] == ks[j];
        }
      }
      OccurrencesOne(init, x);
      assert x in ks <==> x in init || x == ks[|ks| - 1];
      if x == ks[|ks| - 1] {
        forall i | 0 <= i < |init| ensures init[i] != x {
          assert ks[i] != ks[|ks| - 1];
        }
      }
    }
  }

  /** Distinct names that cover a column count each of its records once. */
  lemma {:induction false} OccurrencesAll(ks: seq<string>, c: seq<string>)
    requires Distinct(ks) && forall j :: 0 <= j < |c| ==> c[j] in ks
    ensures Occurrences(ks, multiset(c)) == |c|
    decreases |c|
  {
    if c == [] {
      OccurrencesNone(ks);
    } else {
      var init := c[..|c| - 1];
      assert c == init + [c[|c| - 1]];
      assert multiset(c) == multiset(init) + multiset{c[|c| - 1]};
      OccurrencesAll(ks, init);
      OccurrencesAdd(ks, multiset(init), multiset{c[|c| - 1]});
      OccurrencesOne(ks, c[|c| - 1]);
    }
  }

  function SumWins(rows: seq<StatRow>): nat {
    if rows == [] then 0 else SumWins(rows[..|rows| - 1]) + rows[|rows| - 1].player.totalWins
  }

  function SumLosses(rows: seq<StatRow>): nat {
    if rows == [] then 0 else SumLosses(rows[..|rows| - 1]) + rows[|rows| - 1].player.totalLosses
  }

  /** The lower-cased names of the rows. */
  function RowNames(rows: seq<StatRow>): (ks: seq<string>)
    ensures |ks| == |rows| && forall i :: 0 <= i < |rows| ==> ks[i] == Lower(rows[i].player.name)
  {
    seq(|rows|, i requires 0 <= i < |rows| => Lower(rows[i].player.name))
  }

  lemma {:induction false} SumsAsOccurrences(rows: seq<StatRow>, wins: multiset<string>, losses: multiset<string>)
    requires forall i :: 0 <= i < |rows| ==> rows[i].player.totalWins == wins[Lower(rows[i].player.name)]
    requires forall i :: 0 <= i < |rows| ==> rows[i].player.totalLosses == losses[Lower(rows[i].player.name)]
    ensures SumWins(rows) == Occurrences(RowNames(rows), wins)
    ensures SumLosses(rows) == Occurrences(RowNames(rows), losses)
    decreases |rows|
  {
    if rows != [] {
      var init := rows[..|rows| - 1];
      assert RowNames(rows)[..|rows| - 1] == RowNames(init);
      SumsAsOccurrences(init, wins, losses);
    }
  }

  /** Every name recorded in a winner column, single or team. */
  function WinColumns(db: Db): seq<string> {
    SingleColumn(db.singles, 0) + TeamColumn(db.teams, 0) + TeamColumn(db.teams, 1)
  }

  /** Every name recorded in a loser column, single or team. */
  function LossColumns(db: Db): seq<string> {
    SingleColumn(db.singles, 1) + TeamColumn(db.teams, 2) + TeamColumn(db.teams, 3)
  }

  /** A row's totals are its name's records among all winner and all loser columns. */
  lemma RowTotals(db: Db, rows: seq<StatRow>, i: nat)
    requires Reports(db, rows) && i < |rows|
    ensures rows[i].player.totalWins == multiset(WinColumns(db))[Lower(rows[i].player.name)]
    ensures rows[i].player.totalLosses == multiset(LossColumns(db))[Lower(rows[i].player.name)]
  {
    RowCounters(db, rows, i);
  }

  /** The rows' names are distinct. */
  lemma RowNamesDistinct(db: Db, rows: seq<StatRow>)
    requires Reports(db, rows)
    ensures Distinct(RowNames(rows))
  {
    var ks := RowNames(rows);
    forall i, j | 0 <= i < j < |ks| ensures ks[i] != ks[j] {
      assert Lower(rows[i].player.name) != Lower(rows[j].player.name);
    }
  }

  /** Every name that appears in a match has a row. */
  lemma AppearsHasRow(db: Db, rows: seq<StatRow>, key: string)
    requires Reports(db, rows) && Appears(db, key)
    ensures key in RowNames(rows)
  {
    var i :| 0 <= i < |rows| && Lower(rows[i].player.name) == key;
    assert RowNames(rows)[i] == key;
  }

  /** Every name recorded in a winner or loser column has a row. */
  lemma RowNamesCover(db: Db, rows: seq<StatRow>)
    requires Reports(db, rows)
    ensures forall j :: 0 <= j < |WinColumns(db)| ==> WinColumns(db)[j] in RowNames(rows)
    ensures forall j :: 0 <= j < |LossColumns(db)| ==> LossColumns(db)[j] in RowNames(rows)
  {
    var wins, losses := WinColumns(db), LossColumns(db);
    forall j | 0 <= j < |wins| ensures wins[j] in RowNames(rows) {
      assert wins[j] in wins;
      AppearsHasRow(db, rows, wins[j]);
    }
    forall j | 0 <= j < |losses| ensures losses[j] in RowNames(rows) {
      assert losses[j] in losses;
      AppearsHasRow(db, rows, losses[j]);
    }
  }

  /**
   * Wins and losses add up: over all rows they count every single game once and every
   * team game twice (attack and defense), so each recorded win and loss exactly once.
   */
  lemma TotalsAddUp(db: Db, rows: seq<StatRow>)
    requires Reports(db, rows)
    ensures SumWins(rows) == |db.singles| + 2 * |db.teams|
    ensures SumLosses(rows) == |db.singles| + 2 * |db.teams|
  {
    forall i | 0 <= i < |rows|
      ensures rows[i].player.totalWins == multiset(WinColumns(db))[Lower(rows[i].player.name)]
      ensures rows[i].player.totalLosses == multiset(LossColumns(db))[Lower(rows[i].player.name)]
    {
      RowTotals(db, rows, i);
    }
    SumsAsOccurrences(rows, multiset(WinColumns(db)), multiset(LossColumns(db)));
    RowNamesDistinct(db, rows);
    RowNamesCover(db, rows);
    OccurrencesAll(RowNames(rows), WinColumns(db));
    OccurrencesAll(RowNames(rows), LossColumns(db));
  }
}
