/**
 * The match ledger as a function of the tables: the `/saveSingle` and `/saveTeam`
 * handlers resolve every participant, compute every new rating from the pre-match
 * snapshots, append one record holding the before/after pairs and then write each new
 * rating with one more game played.
 */
module Ledger {
  import opened Wrappers
  import opened Text
  import opened Elo
  import opened Sorting
  import opened Tables
  import opened History

  /** One entry of the handler's `ratings` response. */
  datatype RatingChange = RatingChange(name: string, oldRating: int, newRating: int, change: int)

  datatype SingleRatings = SingleRatings(winner: RatingChange, loser: RatingChange)

  datatype TeamRatings = TeamRatings(winnerAttack: RatingChange, winnerDefense: RatingChange,
                                     loserAttack: RatingChange, loserDefense: RatingChange)

  /** The 400 answer "a name is required in all fields of a game". */
  datatype SaveError = MissingName

  /** A request field that is present and not the empty string (a truthy string). */
  predicate Given(field: Option<string>) {
    field.Some? && field.value != ""
  }

  function Change(name: string, before: int, after: int): RatingChange {
    RatingChange(name, before, after, after - before)
  }

  /** The effect of `/saveSingle` for given winner and loser names. */
  function RecordSingle(db: Db, es: ExpectedScoreFn, winner: string, loser: string, date: int)
    : (Db, SingleRatings)
  {
    var r := ResolveAll(db.players, [winner, loser]);
    var ps, ids := r.0, r.1;
    var w, l := ps[ids[0]], ps[ids[1]];
    var wNew := NewRating(es, w.rating, l.rating, 1, w.gamesPlayed, false);
    var lNew := NewRating(es, l.rating, w.rating, 0, l.gamesPlayed, false);
    var game := SingleGame(date, Slot(winner, w.rating, wNew), Slot(loser, l.rating, lNew));
    (Db(ApplyAll(ps, ids, [wNew, lNew]), db.singles + [game], db.teams),
     SingleRatings(Change(winner, w.rating, wNew), Change(loser, l.rating, lNew)))
  }

  /** `RecordSingle` evaluated at a given resolution of its two names. */
  lemma RecordSingleAt(db: Db, es: ExpectedScoreFn, winner: string, loser: string, date: int,
                       ps: seq<Player>, winnerId: nat, loserId: nat, w: Player, l: Player, wNew: int, lNew: int)
    requires ResolveAll(db.players, [winner, loser]) == (ps, [winnerId, loserId])
    requires winnerId < |ps| && loserId < |ps| && ps[winnerId] == w && ps[loserId] == l
    requires wNew == NewRating(es, w.rating, l.rating, 1, w.gamesPlayed, false)
    requires lNew == NewRating(es, l.rating, w.rating, 0, l.gamesPlayed, false)
    ensures RecordSingle(db, es, winner, loser, date) ==
            (Db(SetRating(SetRating(ps, winnerId, wNew, 1), loserId, lNew, 1),
                db.singles + [SingleGame(date, Slot(winner, w.rating, wNew), Slot(loser, l.rating, lNew))],
                db.teams),
             SingleRatings(Change(winner, w.rating, wNew), Change(loser, l.rating, lNew)))
  {
    ApplyTwo(ps, winnerId, loserId, wNew, lNew);
  }

  /** `/saveSingle`: rejected before anything is read or written when a name is missing. */
  function SaveSingle(db: Db, es: ExpectedScoreFn, winner: Option<string>, loser: Option<string>,
                      date: int): (r: Result<(Db, SingleRatings), SaveError>)
    ensures r.Failure? <==> !Given(winner) || !Given(loser)
    ensures r.Failure? ==> r.error == MissingName
    ensures r.Success? ==> r.value == RecordSingle(db, es, winner.value, loser.value, date)
  {
    if !Given(winner) || !Given(loser) then Failure(MissingName)
    else Success(RecordSingle(db, es, winner.value, loser.value, date))
  }

  /**
   * The effect of `/saveTeam`. Each player keeps their own rating and games played;
   * the opponent rating is the rounded average of the other team.
   */
  function RecordTeam(db: Db, es: ExpectedScoreFn, winnerAttack: string, winnerDefense: string,
                      loserAttack: string, loserDefense: string, date: int): (Db, TeamRatings)
  {
    var r := ResolveAll(db.players, [winnerAttack, winnerDefense, loserAttack, loserDefense]);
    var ps, ids := r.0, r.1;
    var wa, wd, la, ld := ps[ids[0]], ps[ids[1]], ps[ids[2]], ps[ids[3]];
    var winningAvg := TeamAverage(wa.rating, wd.rating);
    var losingAvg := TeamAverage(la.rating, ld.rating);
    var waNew := NewRating(es, wa.rating, losingAvg, 1, wa.gamesPlayed, true);
    var wdNew := NewRating(es, wd.rating, losingAvg, 1, wd.gamesPlayed, true);
    var laNew := NewRating(es, la.rating, winningAvg, 0, la.gamesPlayed, true);
    var ldNew := NewRating(es, ld.rating, winningAvg, 0, ld.gamesPlayed, true);
    var game := TeamGame(date, Slot(winnerAttack, wa.rating, waNew), Slot(winnerDefense, wd.rating, wdNew),
                         Slot(loserAttack, la.rating, laNew), Slot(loserDefense, ld.rating, ldNew));
    (Db(ApplyAll(ps, ids, [waNew, wdNew, laNew, ldNew]), db.singles, db.teams + [game]),
     TeamRatings(Change(winnerAttack, wa.rating, waNew), Change(winnerDefense, wd.rating, wdNew),
                 Change(loserAttack, la.rating, laNew), Change(loserDefense, ld.rating, ldNew)))
  }

  /** `RecordTeam` evaluated at a given resolution of its four names. */
  lemma RecordTeamAt(db: Db, es: ExpectedScoreFn, winnerAttack: string, winnerDefense: string,
                     loserAttack: string, loserDefense: string, date: int, ps: seq<Player>,
                     i0: nat, i1: nat, i2: nat, i3: nat, wa: Player, wd: Player, la: Player, ld: Player,
                     waNew: int, wdNew: int, laNew: int, ldNew: int)
    requires ResolveAll(db.players, [winnerAttack, winnerDefense, loserAttack, loserDefense]) == (ps, [i0, i1, i2, i3])
    requires i0 < |ps| && i1 < |ps| && i2 < |ps| && i3 < |ps|
    requires ps[i0] == wa && ps[i1] == wd && ps[i2] == la && ps[i3] == ld
    requires waNew == NewRating(es, wa.rating, TeamAverage(la.rating, ld.rating), 1, wa.gamesPlayed, true)
    requires wdNew == NewRating(es, wd.rating, TeamAverage(la.rating, ld.rating), 1, wd.gamesPlayed, true)
    requires laNew == NewRating(es, la.rating, TeamAverage(wa.rating, wd.rating), 0, la.gamesPlayed, true)
    requires ldNew == NewRating(es, ld.rating, TeamAverage(wa.rating, wd.rating), 0, ld.gamesPlayed, true)
    ensures RecordTeam(db, es, winnerAttack, winnerDefense, loserAttack, loserDefense, date) ==
            (Db(SetRating(SetRating(SetRating(SetRating(ps, i0, waNew, 1), i1, wdNew, 1), i2, laNew, 1), i3, ldNew, 1),
                db.singles,
                db.teams + [TeamGame(date, Slot(winnerAttack, wa.rating, waNew), Slot(winnerDefense, wd.rating, wdNew),
                                     Slot(loserAttack, la.rating, laNew), Slot(loserDefense, ld.rating, ldNew))]),
             TeamRatings(Change(winnerAttack, wa.rating, waNew), Change(winnerDefense, wd.rating, wdNew),
                         Change(loserAttack, la.rating, laNew), Change(loserDefense, ld.rating, ldNew)))
  {
    ApplyFour(ps, [i0, i1, i2, i3], [waNew, wdNew, laNew, ldNew]);
  }

  /** `/saveTeam`: rejected before anything is read or written when a name is missing. */
  function SaveTeam(db: Db, es: ExpectedScoreFn, winnerAttack: Option<string>, winnerDefense: Option<string>,
                    loserAttack: Option<string>, loserDefense: Option<string>, date: int)
    : (r: Result<(Db, TeamRatings), SaveError>)
    ensures r.Failure? <==> !Given(winnerAttack) || !Given(winnerDefense) || !Given(loserAttack) || !Given(loserDefense)
    ensures r.Failure? ==> r.error == MissingName
    ensures r.Success? ==> r.value == RecordTeam(db, es, winnerAttack.value, winnerDefense.value,
                                                 loserAttack.value, loserDefense.value, date)
  {
    if !Given(winnerAttack) || !Given(winnerDefense) || !Given(loserAttack) || !Given(loserDefense) then
      Failure(MissingName)
    else
      Success(RecordTeam(db, es, winnerAttack.value, winnerDefense.value, loserAttack.value, loserDefense.value, date))
  }

  /** No two of the names are equal ignoring case. */
  predicate DistinctKeys(names: seq<string>) {
    forall i, j :: 0 <= i < j < |names| ==> Lower(names[i]) != Lower(names[j])
  }

  /** The lower-cased names, the keys the participants are looked up by. */
  function Keys(names: seq<string>): (keys: seq<string>)
    ensures |keys| == |names| && forall k :: 0 <= k < |names| ==> keys[k] == Lower(names[k])
  {
    seq(|names|, k requires 0 <= k < |names| => Lower(names[k]))
  }

  // ---------------------------------------------------------------------------
  // The ledger invariant

  /** A player's rating is 1200 plus the changes recorded for them, and their games
      played is the number of matches recorded for them. */
  ghost predicate Balanced(p: Player, ms: seq<Match>) {
    var es := MatchEntries(Lower(p.name), ms);
    p.rating == InitialRating + SumDeltas(es) && p.gamesPlayed == |es|
  }

  ghost predicate AllBalanced(ps: seq<Player>, ms: seq<Match>) {
    forall i :: 0 <= i < |ps| ==> Balanced(ps[i], ms)
  }

  ghost predicate Consistent(db: Db) {
    AllBalanced(db.players, AllMatches(db))
  }

  /** The players after resolving `names` and writing `afters` to them in order. */
  function Participate(ps: seq<Player>, names: seq<string>, afters: seq<int>): seq<Player>
    requires |names| == |afters|
  {
    var r := ResolveAll(ps, names);
    ApplyAll(r.0, r.1, afters)
  }

  /** The slots of the record of a match whose participants `names` end with `afters`. */
  function Snapshot(ps: seq<Player>, names: seq<string>, afters: seq<int>): (slots: seq<Slot>)
    requires |names| == |afters|
    ensures |slots| == |names|
    ensures forall k :: 0 <= k < |names| ==> slots[k] == Slot(names[k], PreRating(ps, names[k]), afters[k])
  {
    seq(|names|, k requires 0 <= k < |names| => Slot(names[k], PreRating(ps, names[k]), afters[k]))
  }

  lemma InsertMatch(key: string, a: seq<Match>, m: Match, b: seq<Match>)
    ensures MatchEntries(key, a + [m] + b) == MatchEntries(key, a) + EntryOf(m, key) + MatchEntries(key, b)
    ensures SumDeltas(MatchEntries(key, a + [m] + b)) == SumDeltas(MatchEntries(key, a + b)) + SumDeltas(EntryOf(m, key))
    ensures |MatchEntries(key, a + [m] + b)| == |MatchEntries(key, a + b)| + |EntryOf(m, key)|
  {
    MatchEntriesAppend(key, a + [m], b);
    MatchEntriesAppend(key, a, [m]);
    MatchEntriesAppend(key, a, b);
    assert [m][..0] == [];
    assert MatchEntries(key, [m]) == EntryOf(m, key);
    var x, y, z := MatchEntries(key, a), EntryOf(m, key), MatchEntries(key, b);
    SumDeltasAppend(x + y, z);
    SumDeltasAppend(x, y);
    SumDeltasAppend(x, z);
  }

  lemma RegisteredGrow(ps: seq<Player>, ps': seq<Player>, ms: seq<Match>)
    requires Registered(ps, ms)
    requires |ps| <= |ps'| && forall i :: 0 <= i < |ps| ==> ps'[i].name == ps[i].name
    ensures Registered(ps', ms)
  {
    forall i, k | 0 <= i < |ms| && 0 <= k < |ms[i].slots| ensures Known(ps', Lower(ms[i].slots[k].name)) {
      var j :| 0 <= j < |ps| && Lower(ps[j].name) == Lower(ms[i].slots[k].name);
      assert ps'[j].name == ps[j].name;
    }
  }

  /** Resolution creates only players no match mentions, so balance is kept. */
  lemma ResolveAllBalanced(ps: seq<Player>, ms: seq<Match>, names: seq<string>)
    requires UniqueNames(ps) && Registered(ps, ms) && AllBalanced(ps, ms)
    ensures AllBalanced(ResolveAll(ps, names).0, ms)
  {
    var ps' := ResolveAll(ps, names).0;
    ResolveAllAdds(ps, names);
    forall i | 0 <= i < |ps'| ensures Balanced(ps'[i], ms) {
      if i < |ps| {
        assert ps'[i] == ps'[..|ps|][i];
      } else {
        assert NewPlayer(ps, names, ps'[i]);
        UnknownHasNoEntries(ps, ms, Lower(ps'[i].name));
      }
    }
  }

  lemma OccursOnce(ids: seq<nat>, j: nat)
    requires j < |ids| && forall j' :: 0 <= j' < |ids| && ids[j'] == ids[j] ==> j' == j
    ensures multiset(ids)[ids[j]] == 1
  {
    assert ids == ids[..j] + [ids[j]] + ids[j + 1..];
    assert ids[j] !in ids[..j];
    assert ids[j] !in ids[j + 1..];
  }

  /** The record's entry for the participant in slot `j`, when all keys differ. */
  lemma EntryOfParticipant(ps: seq<Player>, names: seq<string>, afters: seq<int>, date: int, j: nat)
    requires |names| == |afters| && j < |names| && DistinctKeys(names)
    ensures EntryOf(Match(date, Snapshot(ps, names, afters)), Lower(names[j]))
            == [Entry(date, afters[j] - PreRating(ps, names[j]))]
  {
    var slots := Snapshot(ps, names, afters);
    var d := FirstDelta(slots, Lower(names[j]));
    FirstDeltaSpec(slots, Lower(names[j]));
    assert Lower(slots[j].name) == Lower(names[j]);
    var k :| 0 <= k < |slots| && FirstSlotOf(slots, Lower(names[j]), k) && d.value == slots[k].after - slots[k].before;
    assert k == j;
  }

  lemma EntryOfOutsider(ps: seq<Player>, names: seq<string>, afters: seq<int>, date: int, key: string)
    requires |names| == |afters| && forall k :: 0 <= k < |names| ==> Lower(names[k]) != key
    ensures EntryOf(Match(date, Snapshot(ps, names, afters)), key) == []
  {
    FirstDeltaSpec(Snapshot(ps, names, afters), key);
  }

  lemma EntryOfSomeone(ps: seq<Player>, names: seq<string>, afters: seq<int>, date: int, j: nat)
    requires |names| == |afters| && j < |names|
    ensures |EntryOf(Match(date, Snapshot(ps, names, afters)), Lower(names[j]))| == 1
  {
    var slots := Snapshot(ps, names, afters);
    FirstDeltaSpec(slots, Lower(names[j]));
    assert Lower(slots[j].name) == Lower(names[j]);
  }

  /** A participant ends with the rating written for their slot and one more game. */
  lemma ParticipantUpdated(ps: seq<Player>, names: seq<string>, afters: seq<int>, i: nat, k: nat)
    requires UniqueNames(ps) && |names| == |afters| && DistinctKeys(names)
    requires i < |Participate(ps, names, afters)| && k < |names|
    requires Lower(Participate(ps, names, afters)[i].name) == Lower(names[k])
    ensures Participate(ps, names, afters)[i].rating == afters[k]
    ensures Participate(ps, names, afters)[i].gamesPlayed == PreGames(ps, names[k]) + 1
  {
    var r := ResolveAll(ps, names);
    var ps1, ids := r.0, r.1;
    ResolveAllAdds(ps, names);
    ResolveAllSnapshots(ps, names);
    ApplyAllEffect(ps1, ids, afters);
    assert Lower(ps1[i].name) == Lower(names[k]);
    assert ids[k] == i;
    forall j' | 0 <= j' < |ids| && ids[j'] == ids[k] ensures j' == k {
      assert Lower(names[j']) == Lower(names[k]);
    }
    OccursOnce(ids, k);
  }

  /** A player who is not a participant is an old player and is unchanged. */
  lemma OutsiderUnchanged(ps: seq<Player>, names: seq<string>, afters: seq<int>, i: nat)
    requires UniqueNames(ps) && |names| == |afters|
    requires i < |Participate(ps, names, afters)|
    requires forall k :: 0 <= k < |names| ==> Lower(Participate(ps, names, afters)[i].name) != Lower(names[k])
    ensures i < |ps| && Participate(ps, names, afters)[i] == ps[i]
  {
    var r := ResolveAll(ps, names);
    var ps1, ids := r.0, r.1;
    ApplyAllUntouched(ps1, ids, afters);
    assert forall k :: 0 <= k < |names| ==> Lower(ps1[i].name) != Lower(names[k]);
    assert i !in ids;
    ResolveAllNew(ps, names);
    assert ps1[i] == ps1[..|ps|][i];
  }

  /** Every participant is in the table afterwards, and the old players keep their names. */
  lemma ParticipantsKnown(ps: seq<Player>, names: seq<string>, afters: seq<int>)
    requires UniqueNames(ps) && |names| == |afters|
    ensures UniqueNames(Participate(ps, names, afters))
    ensures |ps| <= |Participate(ps, names, afters)|
    ensures forall i :: 0 <= i < |ps| ==> Participate(ps, names, afters)[i].name == ps[i].name
    ensures forall k :: 0 <= k < |names| ==> Known(Participate(ps, names, afters), Lower(names[k]))
  {
    var r := ResolveAll(ps, names);
    var ps1, ids := r.0, r.1;
    var ps' := ApplyAll(ps1, ids, afters);
    ResolveAllAdds(ps, names);
    assert forall i :: 0 <= i < |ps| ==> ps1[i] == ps1[..|ps|][i];
    forall k | 0 <= k < |names| ensures Known(ps', Lower(names[k])) {
      assert Lower(ps'[ids[k]].name) == Lower(names[k]);
    }
  }

  /** A participant's balance after a match with pairwise different participants. */
  lemma ParticipantBalanced(ps: seq<Player>, a: seq<Match>, b: seq<Match>,
                            names: seq<string>, afters: seq<int>, date: int, i: nat, j: nat)
    requires UniqueNames(ps) && AllBalanced(ResolveAll(ps, names).0, a + b)
    requires |names| == |afters| && DistinctKeys(names)
    requires i < |Participate(ps, names, afters)| && j < |names|
    requires Lower(names[j]) == Lower(Participate(ps, names, afters)[i].name)
    ensures Balanced(Participate(ps, names, afters)[i], a + [Match(date, Snapshot(ps, names, afters))] + b)
  {
    var r := ResolveAll(ps, names);
    var ps1, ids := r.0, r.1;
    var ps' := Participate(ps, names, afters);
    var m := Match(date, Snapshot(ps, names, afters));
    var key := Lower(ps'[i].name);
    InsertMatch(key, a, m, b);
    assert ps1[i].name == ps'[i].name;
    assert Balanced(ps1[i], a + b);
    EntryOfParticipant(ps, names, afters, date, j);
    ParticipantUpdated(ps, names, afters, i, j);
    ResolveAllSnapshots(ps, names);
    ResolveAllAdds(ps, names);
    assert Lower(ps1[ids[j]].name) == Lower(ps1[i].name);
    assert ids[j] == i;
  }

  /** The balance of a player outside the match is untouched by it. */
  lemma OutsiderBalanced(ps: seq<Player>, a: seq<Match>, b: seq<Match>,
                         names: seq<string>, afters: seq<int>, date: int, i: nat)
    requires UniqueNames(ps) && AllBalanced(ResolveAll(ps, names).0, a + b)
    requires |names| == |afters|
    requires i < |Participate(ps, names, afters)|
    requires forall k :: 0 <= k < |names| ==> Lower(names[k]) != Lower(Participate(ps, names, afters)[i].name)
    ensures Balanced(Participate(ps, names, afters)[i], a + [Match(date, Snapshot(ps, names, afters))] + b)
  {
    var ps1 := ResolveAll(ps, names).0;
    var ps' := Participate(ps, names, afters);
    var m := Match(date, Snapshot(ps, names, afters));
    var key := Lower(ps'[i].name);
    InsertMatch(key, a, m, b);
    EntryOfOutsider(ps, names, afters, date, key);
    OutsiderUnchanged(ps, names, afters, i);
    assert ps1[i] == ps1[..|ps|][i];
    assert ps1[i].name == ps'[i].name;
    assert Balanced(ps1[i], a + b);
  }

  /** The balance of one player after a match with pairwise different participants. */
  lemma BalancedAfter(ps: seq<Player>, a: seq<Match>, b: seq<Match>,
                      names: seq<string>, afters: seq<int>, date: int, i: nat)
    requires UniqueNames(ps) && AllBalanced(ResolveAll(ps, names).0, a + b)
    requires |names| == |afters| && DistinctKeys(names)
    requires i < |Participate(ps, names, afters)|
    ensures Balanced(Participate(ps, names, afters)[i], a + [Match(date, Snapshot(ps, names, afters))] + b)
  {
    var key := Lower(Participate(ps, names, afters)[i].name);
    if j :| 0 <= j < |names| && Lower(names[j]) == key {
      ParticipantBalanced(ps, a, b, names, afters, date, i, j);
    } else {
      OutsiderBalanced(ps, a, b, names, afters, date, i);
    }
  }

  /** A player whose name fills two slots gets two games but one entry. */
  lemma UnbalancedAfter(ps: seq<Player>, a: seq<Match>, b: seq<Match>,
                        names: seq<string>, afters: seq<int>, date: int, j1: nat, j2: nat)
    requires UniqueNames(ps) && AllBalanced(ResolveAll(ps, names).0, a + b)
    requires |names| == |afters| && j1 < j2 < |names| && Lower(names[j1]) == Lower(names[j2])
    ensures !AllBalanced(Participate(ps, names, afters), a + [Match(date, Snapshot(ps, names, afters))] + b)
  {
    var r := ResolveAll(ps, names);
    var ps1, ids := r.0, r.1;
    var ps' := Participate(ps, names, afters);
    var m := Match(date, Snapshot(ps, names, afters));
    ResolveAllAdds(ps, names);
    var i := ids[j1];
    assert ids[j2] == i;
    RepeatCountsTwice(ids, j1, j2);
    assert ps'[i].gamesPlayed >= ps1[i].gamesPlayed + 2 by {
      ApplyAllEffect(ps1, ids, afters);
    }
    assert ps'[i].name == ps1[i].name;
    var key := Lower(ps1[i].name);
    assert key == Lower(names[j1]);
    assert Balanced(ps1[i], a + b);
    assert ps1[i].gamesPlayed == |MatchEntries(key, a + b)|;
    InsertMatch(key, a, m, b);
    EntryOfSomeone(ps, names, afters, date, j1);
    assert |MatchEntries(key, a + [m] + b)| == |MatchEntries(key, a + b)| + 1;
    assert !Balanced(ps'[i], a + [m] + b);
  }

  /** With pairwise different participants, every player stays balanced. */
  lemma AllBalancedAfter(ps: seq<Player>, a: seq<Match>, b: seq<Match>,
                         names: seq<string>, afters: seq<int>, date: int)
    requires UniqueNames(ps) && AllBalanced(ResolveAll(ps, names).0, a + b)
    requires |names| == |afters| && DistinctKeys(names)
    ensures AllBalanced(Participate(ps, names, afters), a + [Match(date, Snapshot(ps, names, afters))] + b)
  {
    var ps' := Participate(ps, names, afters);
    var ms := a + [Match(date, Snapshot(ps, names, afters))] + b;
    forall i | 0 <= i < |ps'| ensures Balanced(ps'[i], ms) {
      BalancedAfter(ps, a, b, names, afters, date, i);
    }
  }

  /** With a name in two slots, some player is no longer balanced. */
  lemma RepeatUnbalanced(ps: seq<Player>, a: seq<Match>, b: seq<Match>,
                         names: seq<string>, afters: seq<int>, date: int)
    requires UniqueNames(ps) && AllBalanced(ResolveAll(ps, names).0, a + b)
    requires |names| == |afters| && !DistinctKeys(names)
    ensures !AllBalanced(Participate(ps, names, afters), a + [Match(date, Snapshot(ps, names, afters))] + b)
  {
    var j1, j2 :| 0 <= j1 < j2 < |names| && Lower(names[j1]) == Lower(names[j2]);
    UnbalancedAfter(ps, a, b, names, afters, date, j1, j2);
  }

  /**
   * The ledger invariant survives recording a match exactly when the participants are
   * pairwise different ignoring case.
   */
  lemma AddMatchBalance(ps: seq<Player>, a: seq<Match>, b: seq<Match>,
                        names: seq<string>, afters: seq<int>, date: int)
    requires UniqueNames(ps) && Registered(ps, a + b) && AllBalanced(ps, a + b)
    requires |names| == |afters|
    ensures AllBalanced(Participate(ps, names, afters), a + [Match(date, Snapshot(ps, names, afters))] + b)
            <==> DistinctKeys(names)
  {
    ResolveAllBalanced(ps, a + b, names);
    if DistinctKeys(names) {
      AllBalancedAfter(ps, a, b, names, afters, date);
    } else {
      RepeatUnbalanced(ps, a, b, names, afters, date);
    }
  }
}

module LedgerProps {
  import opened Wrappers
  import opened Text
  import opened Elo
  import opened Tables
  import opened History
  import opened Ledger

  /** The winner's and the loser's new ratings, computed from the pre-match table. */
  function SingleAfters(ps: seq<Player>, es: ExpectedScoreFn, winner: string, loser: string): seq<int> {
    [NewRating(es, PreRating(ps, winner), PreRating(ps, loser), 1, PreGames(ps, winner), false),
     NewRating(es, PreRating(ps, loser), PreRating(ps, winner), 0, PreGames(ps, loser), false)]
  }

  /**
   * The four new ratings of a team match, from the pre-match table: each player's own
   * rating and games played against the rounded average of the other team.
   */
  function TeamAfters(ps: seq<Player>, es: ExpectedScoreFn, names: seq<string>): seq<int>
    requires |names| == 4
  {
    var winningAvg := TeamAverage(PreRating(ps, names[0]), PreRating(ps, names[1]));
    var losingAvg := TeamAverage(PreRating(ps, names[2]), PreRating(ps, names[3]));
    [NewRating(es, PreRating(ps, names[0]), losingAvg, 1, PreGames(ps, names[0]), true),
     NewRating(es, PreRating(ps, names[1]), losingAvg, 1, PreGames(ps, names[1]), true),
     NewRating(es, PreRating(ps, names[2]), winningAvg, 0, PreGames(ps, names[2]), true),
     NewRating(es, PreRating(ps, names[3]), winningAvg, 0, PreGames(ps, names[3]), true)]
  }

  /**
   * `/saveSingle` reads both snapshots before writing: the record holds the pre-match
   * ratings and the new ones computed from them, the response reports the same pairs.
   */
  lemma RecordSingleSnapshot(db: Db, es: ExpectedScoreFn, winner: string, loser: string, date: int)
    requires UniqueNames(db.players)
    ensures RecordSingle(db, es, winner, loser, date).0 ==
            Db(Participate(db.players, [winner, loser], SingleAfters(db.players, es, winner, loser)),
               db.singles + [SingleGame(date,
                   Slot(winner, PreRating(db.players, winner), SingleAfters(db.players, es, winner, loser)[0]),
                   Slot(loser, PreRating(db.players, loser), SingleAfters(db.players, es, winner, loser)[1]))],
               db.teams)
    ensures RecordSingle(db, es, winner, loser, date).1 ==
            SingleRatings(Change(winner, PreRating(db.players, winner), SingleAfters(db.players, es, winner, loser)[0]),
                          Change(loser, PreRating(db.players, loser), SingleAfters(db.players, es, winner, loser)[1]))
  {
    ResolveAllSnapshots(db.players, [winner, loser]);
  }

  /**
   * `/saveTeam` reads all four snapshots before writing; both members of a team face
   * the same rounded average of the other team.
   */
  lemma RecordTeamSnapshot(db: Db, es: ExpectedScoreFn, winnerAttack: string, winnerDefense: string,
                           loserAttack: string, loserDefense: string, date: int)
    requires UniqueNames(db.players)
    ensures var names := [winnerAttack, winnerDefense, loserAttack, loserDefense];
            var afters := TeamAfters(db.players, es, names);
            var ps := db.players;
            RecordTeam(db, es, winnerAttack, winnerDefense, loserAttack, loserDefense, date).0 ==
            Db(Participate(ps, names, afters), db.singles,
               db.teams + [TeamGame(date,
                   Slot(winnerAttack, PreRating(ps, winnerAttack), afters[0]),
                   Slot(winnerDefense, PreRating(ps, winnerDefense), afters[1]),
                   Slot(loserAttack, PreRating(ps, loserAttack), afters[2]),
                   Slot(loserDefense, PreRating(ps, loserDefense), afters[3]))]) &&
            RecordTeam(db, es, winnerAttack, winnerDefense, loserAttack, loserDefense, date).1 ==
            TeamRatings(Change(winnerAttack, PreRating(ps, winnerAttack), afters[0]),
                        Change(winnerDefense, PreRating(ps, winnerDefense), afters[1]),
                        Change(loserAttack, PreRating(ps, loserAttack), afters[2]),
                        Change(loserDefense, PreRating(ps, loserDefense), afters[3]))
  {
    ResolveAllSnapshots(db.players, [winnerAttack, winnerDefense, loserAttack, loserDefense]);
  }

  lemma RegisteredInsert(ps: seq<Player>, a: seq<Match>, m: Match, b: seq<Match>)
    requires Registered(ps, a + b)
    requires forall k :: 0 <= k < |m.slots| ==> Known(ps, Lower(m.slots[k].name))
    ensures Registered(ps, a + [m] + b)
  {
    var ms := a + [m] + b;
    forall i, k | 0 <= i < |ms| && 0 <= k < |ms[i].slots| ensures Known(ps, Lower(ms[i].slots[k].name)) {
      if i < |a| {
        assert ms[i] == (a + b)[i];
      } else if i > |a| {
        assert ms[i] == (a + b)[i - 1];
      }
    }
  }

  /** Recording a match whose slots are `Snapshot(...)` keeps the table invariant and
      keeps the ledger balanced exactly when the participants differ. */
  lemma AddMatchValid(ps: seq<Player>, a: seq<Match>, b: seq<Match>,
                      names: seq<string>, afters: seq<int>, date: int)
    requires UniqueNames(ps) && Registered(ps, a + b) && |names| == |afters|
    ensures UniqueNames(Participate(ps, names, afters))
    ensures Registered(Participate(ps, names, afters), a + [Match(date, Snapshot(ps, names, afters))] + b)
  {
    var ps' := Participate(ps, names, afters);
    var m := Match(date, Snapshot(ps, names, afters));
    ParticipantsKnown(ps, names, afters);
    RegisteredGrow(ps, ps', a + b);
    RegisteredInsert(ps', a, m, b);
  }

  /** The single-match record as a match of the generic ledger. */
  lemma SingleAsMatch(db: Db, es: ExpectedScoreFn, winner: string, loser: string, date: int)
    requires UniqueNames(db.players)
    ensures RecordSingle(db, es, winner, loser, date).0.players ==
              Participate(db.players, [winner, loser], SingleAfters(db.players, es, winner, loser))
    ensures AllMatches(RecordSingle(db, es, winner, loser, date).0) ==
              SingleMatches(db.singles) +
              [Match(date, Snapshot(db.players, [winner, loser], SingleAfters(db.players, es, winner, loser)))] +
              TeamMatches(db.teams)
  {
    var names := [winner, loser];
    var afters := SingleAfters(db.players, es, winner, loser);
    var snap := Snapshot(db.players, names, afters);
    ResolveAllSnapshots(db.players, names);
    var r := ResolveAll(db.players, names);
    var w, l := r.0[r.1[0]], r.0[r.1[1]];
    assert w.rating == PreRating(db.players, winner) && w.gamesPlayed == PreGames(db.players, winner);
    assert l.rating == PreRating(db.players, loser) && l.gamesPlayed == PreGames(db.players, loser);
    var wNew := NewRating(es, w.rating, l.rating, 1, w.gamesPlayed, false);
    var lNew := NewRating(es, l.rating, w.rating, 0, l.gamesPlayed, false);
    assert [wNew, lNew] == afters;
    var g := SingleGame(date, Slot(winner, w.rating, wNew), Slot(loser, l.rating, lNew));
    assert g.AsMatch() == Match(date, snap);
    var db' := RecordSingle(db, es, winner, loser, date).0;
    assert db' == Db(ApplyAll(r.0, r.1, [wNew, lNew]), db.singles + [g], db.teams);
    SingleMatchesAppend(db.singles, g);
  }

  /**
   * A team match goes last, so it is the generic insert with nothing after it; stated
   * as its own lemma to keep that rearrangement out of the larger proofs.
   */
  lemma AppendAssoc(s: seq<Match>, t: seq<Match>, m: Match)
    ensures s + (t + [m]) == s + t + [m] + []
  {
  }

  lemma TeamAsMatch(db: Db, es: ExpectedScoreFn, names: seq<string>, date: int)
    requires UniqueNames(db.players) && |names| == 4
    ensures RecordTeam(db, es, names[0], names[1], names[2], names[3], date).0.players ==
              Participate(db.players, names, TeamAfters(db.players, es, names))
    ensures AllMatches(RecordTeam(db, es, names[0], names[1], names[2], names[3], date).0) ==
              SingleMatches(db.singles) + TeamMatches(db.teams) +
              [Match(date, Snapshot(db.players, names, TeamAfters(db.players, es, names)))] + []
  {
    assert names == [names[0], names[1], names[2], names[3]];
    var afters := TeamAfters(db.players, es, names);
    var snap := Snapshot(db.players, names, afters);
    ResolveAllSnapshots(db.players, names);
    var r := ResolveAll(db.players, names);
    var wa, wd, la, ld := r.0[r.1[0]], r.0[r.1[1]], r.0[r.1[2]], r.0[r.1[3]];
    assert wa.rating == PreRating(db.players, names[0]) && wa.gamesPlayed == PreGames(db.players, names[0]);
    assert wd.rating == PreRating(db.players, names[1]) && wd.gamesPlayed == PreGames(db.players, names[1]);
    assert la.rating == PreRating(db.players, names[2]) && la.gamesPlayed == PreGames(db.players, names[2]);
    assert ld.rating == PreRating(db.players, names[3]) && ld.gamesPlayed == PreGames(db.players, names[3]);
    var winningAvg := TeamAverage(wa.rating, wd.rating);
    var losingAvg := TeamAverage(la.rating, ld.rating);
    var waNew := NewRating(es, wa.rating, losingAvg, 1, wa.gamesPlayed, true);
    var wdNew := NewRating(es, wd.rating, losingAvg, 1, wd.gamesPlayed, true);
    var laNew := NewRating(es, la.rating, winningAvg, 0, la.gamesPlayed, true);
    var ldNew := NewRating(es, ld.rating, winningAvg, 0, ld.gamesPlayed, true);
    assert [waNew, wdNew, laNew, ldNew] == afters;
    var g := TeamGame(date, Slot(names[0], wa.rating, waNew), Slot(names[1], wd.rating, wdNew),
                      Slot(names[2], la.rating, laNew), Slot(names[3], ld.rating, ldNew));
    assert g.AsMatch() == Match(date, snap);
    var db' := RecordTeam(db, es, names[0], names[1], names[2], names[3], date).0;
    assert db' == Db(ApplyAll(r.0, r.1, [waNew, wdNew, laNew, ldNew]), db.singles, db.teams + [g]);
    TeamMatchesAppend(db.teams, g);
    var s, t := SingleMatches(db.singles), TeamMatches(db.teams);
    AppendAssoc(s, t, Match(date, snap));
  }

  /**
   * Ledger conservation for `/saveSingle`: the table invariant is kept, and a balanced
   * ledger (rating = 1200 + recorded changes, games = recorded matches, for every
   * player) stays balanced if and only if winner and loser differ ignoring case.
   */
  lemma SingleConservation(db: Db, es: ExpectedScoreFn, winner: string, loser: string, date: int)
    requires Valid(db)
    ensures Valid(RecordSingle(db, es, winner, loser, date).0)
    ensures Consistent(db) ==>
              (Consistent(RecordSingle(db, es, winner, loser, date).0) <==> Lower(winner) != Lower(loser))
  {
    SingleAsMatch(db, es, winner, loser, date);
    var afters := SingleAfters(db.players, es, winner, loser);
    var s, t := SingleMatches(db.singles), TeamMatches(db.teams);
    AddMatchValid(db.players, s, t, [winner, loser], afters, date);
    if Consistent(db) {
      AddMatchBalance(db.players, s, t, [winner, loser], afters, date);
    }
  }

  /** Ledger conservation for `/saveTeam`, with the four participants. */
  lemma TeamConservation(db: Db, es: ExpectedScoreFn, winnerAttack: string, winnerDefense: string,
                         loserAttack: string, loserDefense: string, date: int)
    requires Valid(db)
    ensures Valid(RecordTeam(db, es, winnerAttack, winnerDefense, loserAttack, loserDefense, date).0)
    ensures Consistent(db) ==>
              (Consistent(RecordTeam(db, es, winnerAttack, winnerDefense, loserAttack, loserDefense, date).0)
               <==> DistinctKeys([winnerAttack, winnerDefense, loserAttack, loserDefense]))
  {
    var names := [winnerAttack, winnerDefense, loserAttack, loserDefense];
    TeamAsMatch(db, es, names, date);
    var afters := TeamAfters(db.players, es, names);
    var s, t := SingleMatches(db.singles), TeamMatches(db.teams);
    AddMatchValid(db.players, s + t, [], names, afters, date);
    if Consistent(db) {
      assert s + t + [] == s + t;
      AddMatchBalance(db.players, s + t, [], names, afters, date);
    }
  }

  /**
   * The players `qs` after writing a match whose participants `names` got `afters`,
   * compared with the players `ps` before it: every participant is present, carries the
   * rating written for them and one more game, and every other player is unchanged.
   */
  ghost predicate Effect(ps: seq<Player>, names: seq<string>, afters: seq<int>, qs: seq<Player>)
    requires |names| == |afters|
  {
    && (forall k :: 0 <= k < |names| ==> Known(qs, Lower(names[k])))
    && (forall i, k :: 0 <= i < |qs| && 0 <= k < |names| && Lower(qs[i].name) == Lower(names[k]) ==>
          qs[i].rating == afters[k] && qs[i].gamesPlayed == PreGames(ps, names[k]) + 1)
    && (forall i :: 0 <= i < |qs| && Lower(qs[i].name) !in Keys(names) ==> i < |ps| && qs[i] == ps[i])
  }

  /** Writing a match with pairwise different participants has exactly that effect. */
  lemma MatchEffect(ps: seq<Player>, names: seq<string>, afters: seq<int>)
    requires UniqueNames(ps) && |names| == |afters| && DistinctKeys(names)
    ensures Effect(ps, names, afters, Participate(ps, names, afters))
  {
    ParticipantsKnown(ps, names, afters);
    var ps' := Participate(ps, names, afters);
    forall i, k | 0 <= i < |ps'| && 0 <= k < |names| && Lower(ps'[i].name) == Lower(names[k])
      ensures ps'[i].rating == afters[k] && ps'[i].gamesPlayed == PreGames(ps, names[k]) + 1
    {
      ParticipantUpdated(ps, names, afters, i, k);
    }
    forall i | 0 <= i < |ps'| && Lower(ps'[i].name) !in Keys(names)
      ensures i < |ps| && ps'[i] == ps[i]
    {
      assert forall k :: 0 <= k < |names| ==> Keys(names)[k] == Lower(names[k]);
      OutsiderUnchanged(ps, names, afters, i);
    }
  }

  /** `/saveSingle` with two different players has the effect above on the player table. */
  lemma SingleEffect(db: Db, es: ExpectedScoreFn, winner: string, loser: string, date: int)
    requires UniqueNames(db.players) && Lower(winner) != Lower(loser)
    ensures Effect(db.players, [winner, loser], SingleAfters(db.players, es, winner, loser),
                   RecordSingle(db, es, winner, loser, date).0.players)
  {
    SingleAsMatch(db, es, winner, loser, date);
    MatchEffect(db.players, [winner, loser], SingleAfters(db.players, es, winner, loser));
  }

  /** `/saveTeam` with four different players has the effect above on the player table. */
  lemma TeamEffect(db: Db, es: ExpectedScoreFn, names: seq<string>, date: int)
    requires UniqueNames(db.players) && |names| == 4 && DistinctKeys(names)
    ensures Effect(db.players, names, TeamAfters(db.players, es, names),
                   RecordTeam(db, es, names[0], names[1], names[2], names[3], date).0.players)
  {
    TeamAsMatch(db, es, names, date);
    MatchEffect(db.players, names, TeamAfters(db.players, es, names));
  }

  /**
   * A single match whose winner and loser are the same player ignoring case is
   * accepted: that player ends with the loser's new rating (written last) and two more
   * games, while the record holds one match.
   */
  lemma SelfMatch(db: Db, es: ExpectedScoreFn, winner: string, loser: string, date: int)
    requires UniqueNames(db.players) && Lower(winner) == Lower(loser)
    ensures var ps' := RecordSingle(db, es, winner, loser, date).0.players;
            forall i :: 0 <= i < |ps'| && Lower(ps'[i].name) == Lower(winner) ==>
              ps'[i].rating == SingleAfters(db.players, es, winner, loser)[1] &&
              ps'[i].gamesPlayed == PreGames(db.players, winner) + 2
    ensures UniqueNames(RecordSingle(db, es, winner, loser, date).0.players)
    ensures Known(RecordSingle(db, es, winner, loser, date).0.players, Lower(winner))
  {
    var names := [winner, loser];
    var afters := SingleAfters(db.players, es, winner, loser);
    SingleAsMatch(db, es, winner, loser, date);
    var r := ResolveAll(db.players, names);
    var ps1, ids := r.0, r.1;
    var ps' := ApplyAll(ps1, ids, afters);
    ResolveAllAdds(db.players, names);
    ResolveAllSnapshots(db.players, names);
    ApplyAllEffect(ps1, ids, afters);
    forall i | 0 <= i < |ps'| && Lower(ps'[i].name) == Lower(winner)
      ensures ps'[i].rating == afters[1] && ps'[i].gamesPlayed == PreGames(db.players, winner) + 2
    {
      assert ids[0] == i && ids[1] == i;
      assert multiset(ids)[i] == 2;
    }
    assert ps'[ids[0]].name == ps1[ids[0]].name;
  }

  // ---------------------------------------------------------------------------
  // Replaying a history of requests

  /** A request body posted to `/saveSingle` or `/saveTeam`, with the server's date. */
  datatype Submission =
    | SingleSubmission(winner: Option<string>, loser: Option<string>, date: int)
    | TeamSubmission(winnerAttack: Option<string>, winnerDefense: Option<string>,
                     loserAttack: Option<string>, loserDefense: Option<string>, date: int)

  /** The tables after one request; a rejected request leaves them as they were. */
  function Submit(db: Db, es: ExpectedScoreFn, s: Submission): Db {
    match s
    case SingleSubmission(w, l, date) =>
      (match SaveSingle(db, es, w, l, date)
       case Success(v) => v.0
       case Failure(_) => db)
    case TeamSubmission(wa, wd, la, ld, date) =>
      (match SaveTeam(db, es, wa, wd, la, ld, date)
       case Success(v) => v.0
       case Failure(_) => db)
  }

  /** The tables after the requests `subs`, in order, starting from empty tables. */
  function Replay(es: ExpectedScoreFn, subs: seq<Submission>): Db
    decreases |subs|
  {
    if subs == [] then EmptyDb
    else Submit(Replay(es, subs[..|subs| - 1]), es, subs[|subs| - 1])
  }

  /** A request whose names, when all given, are pairwise different ignoring case. */
  predicate DistinctParticipants(s: Submission) {
    match s
    case SingleSubmission(w, l, _) =>
      Given(w) && Given(l) ==> DistinctKeys([w.value, l.value])
    case TeamSubmission(wa, wd, la, ld, _) =>
      Given(wa) && Given(wd) && Given(la) && Given(ld) ==>
        DistinctKeys([wa.value, wd.value, la.value, ld.value])
  }

  /** One request keeps the tables valid, and keeps a balanced ledger balanced exactly
      when it is rejected or its participants differ. */
  lemma SubmitConservation(db: Db, es: ExpectedScoreFn, s: Submission)
    requires Valid(db) && Consistent(db)
    ensures Valid(Submit(db, es, s))
    ensures Consistent(Submit(db, es, s)) <==> DistinctParticipants(s)
  {
    match s
    case SingleSubmission(w, l, date) =>
      if Given(w) && Given(l) {
        SingleConservation(db, es, w.value, l.value, date);
        assert DistinctKeys([w.value, l.value]) <==> Lower(w.value) != Lower(l.value);
      }
    case TeamSubmission(wa, wd, la, ld, date) =>
      if Given(wa) && Given(wd) && Given(la) && Given(ld) {
        TeamConservation(db, es, wa.value, wd.value, la.value, ld.value, date);
      }
  }

  /**
   * From empty tables, any history of requests with pairwise different participants
   * leaves every player's rating at 1200 plus the changes recorded for them and their
   * games played at the number of matches recorded for them.
   */
  lemma {:induction false} ReplayConsistent(es: ExpectedScoreFn, subs: seq<Submission>)
    requires forall i :: 0 <= i < |subs| ==> DistinctParticipants(subs[i])
    ensures Valid(Replay(es, subs)) && Consistent(Replay(es, subs))
    decreases |subs|
  {
    if subs != [] {
      var init := subs[..|subs| - 1];
      assert forall i :: 0 <= i < |init| ==> init[i] == subs[i];
      ReplayConsistent(es, init);
      SubmitConservation(Replay(es, init), es, subs[|subs| - 1]);
    }
  }
}
