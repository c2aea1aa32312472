/**
 * The three tables of the ledger (players, single games, team games) as values, the
 * case-insensitive player lookup, `getOrCreatePlayer` and `updatePlayerRating`.
 * A player's surrogate key `id` is its position in the player table.
 */
module Tables {
  import opened Wrappers
  import opened Text
  import Elo

  datatype Player = Player(name: string, rating: int, gamesPlayed: nat)

  /** One participant column group of a match record: the name as submitted and the
      rating snapshot before and after the match. */
  datatype Slot = Slot(name: string, before: int, after: int)

  /** A recorded match of either kind: its date and its slots in column order. */
  datatype Match = Match(date: int, slots: seq<Slot>)

  /** A row of `single_game_results`. */
  datatype SingleGame = SingleGame(date: int, winner: Slot, loser: Slot) {
    function AsMatch(): Match {
      Match(date, [winner, loser])
    }
  }

  /** A row of `team_game_results`. */
  datatype TeamGame = TeamGame(date: int, winnerAttack: Slot, winnerDefense: Slot,
                               loserAttack: Slot, loserDefense: Slot) {
    function AsMatch(): Match {
      Match(date, [winnerAttack, winnerDefense, loserAttack, loserDefense])
    }
  }

  datatype Db = Db(players: seq<Player>, singles: seq<SingleGame>, teams: seq<TeamGame>)

  const EmptyDb := Db([], [], [])

  /**
   * The two result tables read as matches, row by row. `SingleMatches` and `TeamMatches`
   * are one projection written once per row type, since the row types share no trait.
   */
  function SingleMatches(gs: seq<SingleGame>): (ms: seq<Match>)
    ensures |ms| == |gs| && forall i :: 0 <= i < |gs| ==> ms[i] == gs[i].AsMatch()
  {
    seq(|gs|, i requires 0 <= i < |gs| => gs[i].AsMatch())
  }

  function TeamMatches(gs: seq<TeamGame>): (ms: seq<Match>)
    ensures |ms| == |gs| && forall i :: 0 <= i < |gs| ==> ms[i] == gs[i].AsMatch()
  {
    seq(|gs|, i requires 0 <= i < |gs| => gs[i].AsMatch())
  }

  lemma SingleMatchesAppend(gs: seq<SingleGame>, g: SingleGame)
    ensures SingleMatches(gs + [g]) == SingleMatches(gs) + [g.AsMatch()]
  {
  }

  lemma TeamMatchesAppend(gs: seq<TeamGame>, g: TeamGame)
    ensures TeamMatches(gs + [g]) == TeamMatches(gs) + [g.AsMatch()]
  {
  }

  /** Both match tables, singles first (the order of the `UNION ALL`). */
  function AllMatches(db: Db): seq<Match> {
    SingleMatches(db.singles) + TeamMatches(db.teams)
  }

  /** Some player's lower-cased name is `key`. */
  ghost predicate Known(ps: seq<Player>, key: string) {
    exists i :: 0 <= i < |ps| && Lower(ps[i].name) == key
  }

  /** A case-insensitive name maps to at most one player. */
  ghost predicate UniqueNames(ps: seq<Player>) {
    forall i, j :: 0 <= i < j < |ps| ==> Lower(ps[i].name) != Lower(ps[j].name)
  }

  /** Every name in every match belongs to some player. */
  ghost predicate Registered(ps: seq<Player>, ms: seq<Match>) {
    forall i, k :: 0 <= i < |ms| && 0 <= k < |ms[i].slots| ==> Known(ps, Lower(ms[i].slots[k].name))
  }

  /** The invariant the ledger operations keep. */
  ghost predicate Valid(db: Db) {
    UniqueNames(db.players) && Registered(db.players, AllMatches(db))
  }

  /** `SELECT ... FROM players WHERE LOWER(name) = key`, first row. */
  function FindLower(ps: seq<Player>, key: string): (r: Option<nat>)
    ensures r.Some? ==> r.value < |ps| && Lower(ps[r.value].name) == key
    ensures r.Some? ==> forall j :: 0 <= j < r.value ==> Lower(ps[j].name) != key
    ensures r.None? <==> !Known(ps, key)
  {
    if ps == [] then None
    else if Lower(ps[0].name) == key then Some(0)
    else
      match FindLower(ps[1..], key)
      case None =>
        assert forall j :: 1 <= j < |ps| ==> ps[j] == ps[1..][j - 1];
        None
      case Some(j) => Some(j + 1)
  }

  /**
   * `getOrCreatePlayer(name)`: the first player whose lower-cased name equals
   * `name.toLowerCase()`, with the table unchanged; otherwise a new player with the
   * caller's casing, rating 1200 and no games, appended to the table.
   */
  function Resolve(ps: seq<Player>, name: string): (r: (seq<Player>, nat))
    ensures r.1 < |r.0| && Lower(r.0[r.1].name) == Lower(name)
    ensures Known(ps, Lower(name)) ==>
              r.0 == ps && forall j :: 0 <= j < r.1 ==> Lower(ps[j].name) != Lower(name)
    ensures !Known(ps, Lower(name)) ==>
              r.0 == ps + [Player(name, Elo.InitialRating, 0)] && r.1 == |ps|
  {
    match FindLower(ps, Lower(name))
    case Some(i) => (ps, i)
    case None => (ps + [Player(name, Elo.InitialRating, 0)], |ps|)
  }

  /** `getOrCreatePlayer` never changes a row that is already there. */
  lemma ResolveKeepsRows(ps: seq<Player>, name: string, ps': seq<Player>, id: nat)
    requires Resolve(ps, name) == (ps', id)
    ensures |ps| <= |ps'| && forall j :: 0 <= j < |ps| ==> ps'[j] == ps[j]
  {
  }

  /** The rating the resolver reports for `name` before anything is written. */
  function PreRating(ps: seq<Player>, name: string): int {
    match FindLower(ps, Lower(name))
    case Some(i) => ps[i].rating
    case None => Elo.InitialRating
  }

  /** The games played the resolver reports for `name` before anything is written. */
  function PreGames(ps: seq<Player>, name: string): nat {
    match FindLower(ps, Lower(name))
    case Some(i) => ps[i].gamesPlayed
    case None => 0
  }

  /** With unique names, the snapshot of `name` is the one player carrying its key. */
  lemma PreOfUnique(ps: seq<Player>, name: string, i: nat)
    requires UniqueNames(ps) && i < |ps| && Lower(ps[i].name) == Lower(name)
    ensures PreRating(ps, name) == ps[i].rating && PreGames(ps, name) == ps[i].gamesPlayed
  {
    var j := FindLower(ps, Lower(name)).value;
    assert j == i;
  }

  /** Resolving never breaks the one-player-per-name invariant. */
  lemma ResolveKeepsUnique(ps: seq<Player>, name: string)
    requires UniqueNames(ps)
    ensures UniqueNames(Resolve(ps, name).0)
  {
  }

  /** Resolving the participants of one match, one after another, in slot order. */
  function ResolveAll(ps: seq<Player>, names: seq<string>): (r: (seq<Player>, seq<nat>))
    ensures |r.1| == |names|
    ensures |ps| <= |r.0| && r.0[..|ps|] == ps
    ensures forall k :: 0 <= k < |names| ==> r.1[k] < |r.0| && Lower(r.0[r.1[k]].name) == Lower(names[k])
    decreases |names|
  {
    if names == [] then (ps, [])
    else
      var init := names[..|names| - 1];
      var (ps', ids) := ResolveAll(ps, init);
      var (ps'', i) := Resolve(ps', names[|names| - 1]);
      ResolveAllGrows(ps, init, names[|names| - 1], ps', ids, ps'', i);
      assert init + [names[|names| - 1]] == names;
      var ids' := ids + [i];
      (ps'', ids')
  }

  /** One more lookup keeps what `ResolveAll` promises of the lookups before it. */
  lemma ResolveAllGrows(ps: seq<Player>, init: seq<string>, name: string,
                        ps': seq<Player>, ids: seq<nat>, ps'': seq<Player>, i: nat)
    requires |ids| == |init| && |ps| <= |ps'| && ps'[..|ps|] == ps
    requires forall k :: 0 <= k < |init| ==> ids[k] < |ps'| && Lower(ps'[ids[k]].name) == Lower(init[k])
    requires Resolve(ps', name) == (ps'', i)
    ensures |ps| <= |ps''| && ps''[..|ps|] == ps
    ensures forall k :: 0 <= k < |init| + 1 ==>
              (ids + [i])[k] < |ps''| && Lower(ps''[(ids + [i])[k]].name) == Lower((init + [name])[k])
  {
    ResolveKeepsRows(ps', name, ps'', i);
    assert ps''[..|ps|] == ps by {
      forall j | 0 <= j < |ps| ensures ps''[j] == ps[j] {
        assert ps'[..|ps|][j] == ps'[j];
      }
    }
    forall k | 0 <= k < |init| + 1
      ensures (ids + [i])[k] < |ps''| && Lower(ps''[(ids + [i])[k]].name) == Lower((init + [name])[k])
    {
      if k < |init| {
        assert (ids + [i])[k] == ids[k] && (init + [name])[k] == init[k];
      }
    }
  }

  /** A player the resolution of `names` has just created. */
  ghost predicate NewPlayer(ps: seq<Player>, names: seq<string>, p: Player) {
    && p.rating == Elo.InitialRating && p.gamesPlayed == 0
    && !Known(ps, Lower(p.name))
    && exists k :: 0 <= k < |names| && Lower(names[k]) == Lower(p.name)
  }

  /**
   * The players resolution adds are new: rating 1200, no games, a key no earlier
   * player has, taken from one of the names; and names stay unique.
   */
  lemma ResolveAllAdds(ps: seq<Player>, names: seq<string>)
    ensures forall i :: |ps| <= i < |ResolveAll(ps, names).0| ==>
              NewPlayer(ps, names, ResolveAll(ps, names).0[i])
    ensures UniqueNames(ps) ==> UniqueNames(ResolveAll(ps, names).0)
  {
    ResolveAllNew(ps, names);
    if UniqueNames(ps) {
      ResolveAllUnique(ps, names);
    }
  }

  lemma {:induction false} ResolveAllUnique(ps: seq<Player>, names: seq<string>)
    requires UniqueNames(ps)
    ensures UniqueNames(ResolveAll(ps, names).0)
    decreases |names|
  {
    if names != [] {
      ResolveAllUnique(ps, names[..|names| - 1]);
      ResolveKeepsUnique(ResolveAll(ps, names[..|names| - 1]).0, names[|names| - 1]);
    }
  }

  lemma {:induction false} ResolveAllNew(ps: seq<Player>, names: seq<string>)
    ensures forall i :: |ps| <= i < |ResolveAll(ps, names).0| ==>
              NewPlayer(ps, names, ResolveAll(ps, names).0[i])
    decreases |names|
  {
    if names != [] {
      var init, last := names[..|names| - 1], names[|names| - 1];
      ResolveAllNew(ps, init);
      var ps' := ResolveAll(ps, init).0;
      var ps'' := Resolve(ps', last).0;
      assert ResolveAll(ps, names).0 == ps'';
      forall j | |ps| <= j < |ps''|
        ensures NewPlayer(ps, names, ps''[j])
      {
        if j < |ps'| {
          assert ps''[j] == ps'[j];
          assert NewPlayer(ps, init, ps'[j]);
          var k :| 0 <= k < |init| && Lower(init[k]) == Lower(ps'[j].name);
          assert names[k] == init[k];
        } else {
          assert ps'' == ps' + [Player(last, Elo.InitialRating, 0)];
          assert ps''[j].name == last;
          assert !Known(ps', Lower(last));
          assert forall i :: 0 <= i < |ps| ==> ps'[i] == ps'[..|ps|][i] == ps[i];
          assert Lower(names[|names| - 1]) == Lower(ps''[j].name);
        }
      }
    }
  }

  /** Every participant's snapshot is what the resolver saw before the match. */
  lemma ResolveAllSnapshots(ps: seq<Player>, names: seq<string>)
    requires UniqueNames(ps)
    ensures forall k :: 0 <= k < |names| ==>
              ResolveAll(ps, names).0[ResolveAll(ps, names).1[k]].rating == PreRating(ps, names[k]) &&
              ResolveAll(ps, names).0[ResolveAll(ps, names).1[k]].gamesPlayed == PreGames(ps, names[k])
  {
    ResolveAllAdds(ps, names);
    forall k | 0 <= k < |names| {
      SnapshotAt(ps, names, k);
    }
  }

  lemma SnapshotAt(ps: seq<Player>, names: seq<string>, k: nat)
    requires UniqueNames(ps) && k < |names|
    requires forall i :: |ps| <= i < |ResolveAll(ps, names).0| ==>
               NewPlayer(ps, names, ResolveAll(ps, names).0[i])
    ensures ResolveAll(ps, names).0[ResolveAll(ps, names).1[k]].rating == PreRating(ps, names[k])
    ensures ResolveAll(ps, names).0[ResolveAll(ps, names).1[k]].gamesPlayed == PreGames(ps, names[k])
  {
    var r := ResolveAll(ps, names);
    var i := r.1[k];
    assert Lower(r.0[i].name) == Lower(names[k]);
    if i < |ps| {
      assert r.0[i] == r.0[..|ps|][i] == ps[i];
      PreOfUnique(ps, names[k], i);
    } else {
      assert NewPlayer(ps, names, r.0[i]);
    }
  }

  /**
   * `updatePlayerRating(id, newRating, increment)`: the row whose key is `id` gets the
   * new rating and `increment` more games; a key with no row changes nothing.
   */
  function SetRating(ps: seq<Player>, id: nat, newRating: int, increment: nat): (r: seq<Player>)
    ensures |r| == |ps|
  {
    if id < |ps| then ps[id := ps[id].(rating := newRating, gamesPlayed := ps[id].gamesPlayed + increment)]
    else ps
  }

  /** Only the row keyed `id` changes: it gets the new rating and `increment` more games. */
  lemma SetRatingEffect(ps: seq<Player>, id: nat, newRating: int, increment: nat)
    ensures forall i :: 0 <= i < |ps| && i != id ==> SetRating(ps, id, newRating, increment)[i] == ps[i]
    ensures id < |ps| ==>
              SetRating(ps, id, newRating, increment)[id] == Player(ps[id].name, newRating, ps[id].gamesPlayed + increment)
  {
  }

  /** The sequence of `updatePlayerRating(ids[k], ratings[k])` calls of one match, in order. */
  function ApplyAll(ps: seq<Player>, ids: seq<nat>, ratings: seq<int>): (r: seq<Player>)
    requires |ids| == |ratings|
    ensures |r| == |ps|
    ensures forall i :: 0 <= i < |ps| ==> r[i].name == ps[i].name
    decreases |ids|
  {
    if ids == [] then ps
    else
      var n := |ids| - 1;
      var r := SetRating(ApplyAll(ps, ids[..n], ratings[..n]), ids[n], ratings[n], 1);
      SetRatingEffect(ApplyAll(ps, ids[..n], ratings[..n]), ids[n], ratings[n], 1);
      r
  }

  /**
   * After the writes, every row has gained one game per write to its key, a row no
   * write names is unchanged, and a row carries the rating of the last write to it.
   */
  lemma ApplyAllEffect(ps: seq<Player>, ids: seq<nat>, ratings: seq<int>)
    requires |ids| == |ratings|
    ensures forall i: nat :: i < |ps| ==> ApplyAll(ps, ids, ratings)[i].gamesPlayed == ps[i].gamesPlayed + multiset(ids)[i]
    ensures forall i: nat :: i < |ps| && i !in ids ==> ApplyAll(ps, ids, ratings)[i] == ps[i]
    ensures forall k :: 0 <= k < |ids| && ids[k] < |ps| && (forall k' :: k < k' < |ids| ==> ids[k'] != ids[k]) ==>
              ApplyAll(ps, ids, ratings)[ids[k]].rating == ratings[k]
  {
    ApplyAllGames(ps, ids, ratings);
    ApplyAllUntouched(ps, ids, ratings);
    ApplyAllLastWrite(ps, ids, ratings);
  }

  lemma {:induction false} ApplyAllGames(ps: seq<Player>, ids: seq<nat>, ratings: seq<int>)
    requires |ids| == |ratings|
    ensures forall i: nat :: i < |ps| ==> ApplyAll(ps, ids, ratings)[i].gamesPlayed == ps[i].gamesPlayed + multiset(ids)[i]
    decreases |ids|
  {
    if ids != [] {
      var n := |ids| - 1;
      ApplyAllGames(ps, ids[..n], ratings[..n]);
      SetRatingEffect(ApplyAll(ps, ids[..n], ratings[..n]), ids[n], ratings[n], 1);
      assert ids == ids[..n] + [ids[n]];
    }
  }

  lemma {:induction false} ApplyAllUntouched(ps: seq<Player>, ids: seq<nat>, ratings: seq<int>)
    requires |ids| == |ratings|
    ensures forall i: nat :: i < |ps| && i !in ids ==> ApplyAll(ps, ids, ratings)[i] == ps[i]
    decreases |ids|
  {
    if ids != [] {
      var n := |ids| - 1;
      ApplyAllUntouched(ps, ids[..n], ratings[..n]);
      SetRatingEffect(ApplyAll(ps, ids[..n], ratings[..n]), ids[n], ratings[n], 1);
      assert forall i :: i in ids[..n] ==> i in ids;
    }
  }

  lemma {:induction false} ApplyAllLastWrite(ps: seq<Player>, ids: seq<nat>, ratings: seq<int>)
    requires |ids| == |ratings|
    ensures forall k :: 0 <= k < |ids| && ids[k] < |ps| && (forall k' :: k < k' < |ids| ==> ids[k'] != ids[k]) ==>
              ApplyAll(ps, ids, ratings)[ids[k]].rating == ratings[k]
    decreases |ids|
  {
    if ids != [] {
      var n := |ids| - 1;
      ApplyAllLastWrite(ps, ids[..n], ratings[..n]);
      SetRatingEffect(ApplyAll(ps, ids[..n], ratings[..n]), ids[n], ratings[n], 1);
      assert forall k :: 0 <= k < n ==> ids[..n][k] == ids[k] && ratings[..n][k] == ratings[k];
    }
  }

  /** Resolving one more name continues from the table the earlier names left. */
  lemma ResolveAllSnoc(ps: seq<Player>, names: seq<string>, name: string)
    ensures ResolveAll(ps, names + [name]) ==
            (Resolve(ResolveAll(ps, names).0, name).0,
             ResolveAll(ps, names).1 + [Resolve(ResolveAll(ps, names).0, name).1])
  {
    assert (names + [name])[..|names|] == names;
  }

  /** Writing one more rating applies it on top of the earlier writes. */
  lemma ApplyAllSnoc(ps: seq<Player>, ids: seq<nat>, ratings: seq<int>, id: nat, rating: int)
    requires |ids| == |ratings|
    ensures ApplyAll(ps, ids + [id], ratings + [rating]) == SetRating(ApplyAll(ps, ids, ratings), id, rating, 1)
  {
    assert (ids + [id])[..|ids|] == ids;
    assert (ratings + [rating])[..|ratings|] == ratings;
  }

  /** The two `updatePlayerRating` calls of a single match. */
  lemma ApplyTwo(ps: seq<Player>, a: nat, b: nat, x: int, y: int)
    ensures ApplyAll(ps, [a, b], [x, y]) == SetRating(SetRating(ps, a, x, 1), b, y, 1)
  {
    ApplyAllSnoc(ps, [], [], a, x);
    assert [] + [a] == [a] && [] + [x] == [x];
    ApplyAllSnoc(ps, [a], [x], b, y);
    assert [a] + [b] == [a, b] && [x] + [y] == [x, y];
  }

  /** The four `updatePlayerRating` calls of a team match. */
  lemma ApplyFour(ps: seq<Player>, ids: seq<nat>, xs: seq<int>)
    requires |ids| == 4 && |xs| == 4
    ensures ApplyAll(ps, ids, xs) ==
            SetRating(SetRating(SetRating(SetRating(ps, ids[0], xs[0], 1), ids[1], xs[1], 1),
                                ids[2], xs[2], 1), ids[3], xs[3], 1)
  {
    var i2, x2 := [ids[0], ids[1]], [xs[0], xs[1]];
    var i3, x3 := i2 + [ids[2]], x2 + [xs[2]];
    var p2 := SetRating(SetRating(ps, ids[0], xs[0], 1), ids[1], xs[1], 1);
    var p3 := SetRating(p2, ids[2], xs[2], 1);
    assert ApplyAll(ps, i2, x2) == p2 by {
      ApplyTwo(ps, ids[0], ids[1], xs[0], xs[1]);
    }
    assert ApplyAll(ps, i3, x3) == p3 by {
      ApplyAllSnoc(ps, i2, x2, ids[2], xs[2]);
    }
    assert i3 + [ids[3]] == ids && x3 + [xs[3]] == xs;
    ApplyAllSnoc(ps, i3, x3, ids[3], xs[3]);
  }

  /** One more `getOrCreatePlayer` call, on the table the earlier calls left. */
  lemma ResolveAllStep(ps: seq<Player>, names: seq<string>, name: string,
                       qs: seq<Player>, ids: seq<nat>, qs': seq<Player>, id: nat)
    requires ResolveAll(ps, names) == (qs, ids) && Resolve(qs, name) == (qs', id)
    ensures ResolveAll(ps, names + [name]) == (qs', ids + [id])
  {
    ResolveAllSnoc(ps, names, name);
  }

  /**
   * A display of lookups is the concatenation of one-element lookups; kept as lemmas so
   * that the sequence reasoning stays out of `ResolveTwo` and `ResolveFour`.
   */
  lemma Display2<T>(a: T, b: T)
    ensures [a] + [b] == [a, b]
  {
  }

  lemma Display4<T>(a: T, b: T, c: T, d: T)
    ensures [a] + [b] + [c] + [d] == [a, b, c, d]
  {
  }

  /** The two `getOrCreatePlayer` calls of a single match, one after the other. */
  lemma ResolveTwo(ps: seq<Player>, n0: string, n1: string,
                   ps1: seq<Player>, i0: nat, ps2: seq<Player>, i1: nat)
    requires Resolve(ps, n0) == (ps1, i0) && Resolve(ps1, n1) == (ps2, i1)
    ensures ResolveAll(ps, [n0, n1]) == (ps2, [i0, i1])
  {
    assert ResolveAll(ps, [n0]) == (ps1, [i0]) by {
      ResolveAllStep(ps, [], n0, ps, [], ps1, i0);
      assert [] + [n0] == [n0] && [] + [i0] == [i0];
    }
    ResolveAllStep(ps, [n0], n1, ps1, [i0], ps2, i1);
    Display2(n0, n1);
    Display2(i0, i1);
  }

  /** The four `getOrCreatePlayer` calls of a team match, one after another. */
  lemma ResolveFour(ps: seq<Player>, n0: string, n1: string, n2: string, n3: string,
                    ps1: seq<Player>, i0: nat, ps2: seq<Player>, i1: nat,
                    ps3: seq<Player>, i2: nat, ps4: seq<Player>, i3: nat)
    requires Resolve(ps, n0) == (ps1, i0) && Resolve(ps1, n1) == (ps2, i1)
    requires Resolve(ps2, n2) == (ps3, i2) && Resolve(ps3, n3) == (ps4, i3)
    ensures ResolveAll(ps, [n0, n1, n2, n3]) == (ps4, [i0, i1, i2, i3])
  {
    assert ResolveAll(ps, [n0]) == (ps1, [i0]) by {
      ResolveAllStep(ps, [], n0, ps, [], ps1, i0);
      assert [] + [n0] == [n0] && [] + [i0] == [i0];
    }
    assert ResolveAll(ps, [n0] + [n1]) == (ps2, [i0] + [i1]) by {
      ResolveAllStep(ps, [n0], n1, ps1, [i0], ps2, i1);
    }
    assert ResolveAll(ps, [n0] + [n1] + [n2]) == (ps3, [i0] + [i1] + [i2]) by {
      ResolveAllStep(ps, [n0] + [n1], n2, ps2, [i0] + [i1], ps3, i2);
    }
    assert ResolveAll(ps, [n0] + [n1] + [n2] + [n3]) == (ps4, [i0] + [i1] + [i2] + [i3]) by {
      ResolveAllStep(ps, [n0] + [n1] + [n2], n3, ps3, [i0] + [i1] + [i2], ps4, i3);
    }
    Display4(n0, n1, n2, n3);
    Display4(i0, i1, i2, i3);
  }
}
