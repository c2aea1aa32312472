/**
 * The `/stats` aggregator. Four grouped queries count wins and losses per lower-cased
 * name; a fold builds the `playerStats` dictionary from their rows, a second pass joins
 * in the stored rating and games played, and the result is sorted by rating, highest
 * first, with each player's five latest rating changes attached.
 */
module Stats {
  import opened Wrappers
  import opened Text
  import opened Elo
  import opened Sorting
  import opened Tables
  import opened History

  // ---------------------------------------------------------------------------------
  // The grouped queries

  /** `LOWER(col)` of one name column of `single_game_results` (0 winner, 1 loser). */
  function SingleColumn(gs: seq<SingleGame>, slot: nat): (c: seq<string>)
    requires slot < 2
    ensures |c| == |gs|
  {
    seq(|gs|, i requires 0 <= i < |gs| => Lower(gs[i].AsMatch().slots[slot].name))
  }

  /** `LOWER(col)` of one name column of `team_game_results`, in column order. */
  function TeamColumn(gs: seq<TeamGame>, slot: nat): (c: seq<string>)
    requires slot < 4
    ensures |c| == |gs|
  {
    seq(|gs|, i requires 0 <= i < |gs| => Lower(gs[i].AsMatch().slots[slot].name))
  }

  /** One row of a grouped query: a lower-cased name and its count. */
  datatype CountRow = CountRow(key: string, count: nat)

  function RowKeys(rows: seq<CountRow>): (ks: seq<string>)
    ensures |ks| == |rows| && forall i :: 0 <= i < |rows| ==> ks[i] == rows[i].key
  {
    seq(|rows|, i requires 0 <= i < |rows| => rows[i].key)
  }

  /** The distinct elements, in order of first occurrence. */
  function Dedup<T(==, !new)>(s: seq<T>): (d: seq<T>)
    ensures Distinct(d)
    ensures forall x :: x in d <==> x in s
  {
    if s == [] then []
    else
      var init, last := s[..|s| - 1], s[|s| - 1];
      assert s == init + [last];
      var d' := Dedup(init);
      if last in d' then d' else d' + [last]
  }

  /** The sum of the counts of the rows carrying `key`. */
  function Total(rows: seq<CountRow>, key: string): nat {
    if rows == [] then 0
    else Total(rows[..|rows| - 1], key) + (if rows[|rows| - 1].key == key then rows[|rows| - 1].count else 0)
  }

  /** `SELECT name, SUM(count) ... GROUP BY name`: one row per distinct name. */
  function GroupSum(rows: seq<CountRow>): (g: seq<CountRow>)
    ensures Distinct(RowKeys(g))
    ensures forall k :: k in RowKeys(g) <==> k in RowKeys(rows)
  {
    var d := Dedup(RowKeys(rows));
    var g := seq(|d|, i requires 0 <= i < |d| => CountRow(d[i], Total(rows, d[i])));
    assert RowKeys(g) == d;
    g
  }

  /** One row per record, each counting one. */
  function Ones(keys: seq<string>): (rows: seq<CountRow>)
    ensures RowKeys(rows) == keys
  {
    seq(|keys|, i requires 0 <= i < |keys| => CountRow(keys[i], 1))
  }

  /** `SELECT LOWER(col), COUNT(*) ... GROUP BY LOWER(col)`: a count is a sum of ones. */
  function GroupCount(keys: seq<string>): seq<CountRow> {
    GroupSum(Ones(keys))
  }

  function SingleWinsQuery(db: Db): seq<CountRow> {
    GroupCount(SingleColumn(db.singles, 0))
  }

  function SingleLossesQuery(db: Db): seq<CountRow> {
    GroupCount(SingleColumn(db.singles, 1))
  }

  /** The attack and defense groups, concatenated by `UNION ALL` and summed per name. */
  function TeamWinsQuery(db: Db): seq<CountRow> {
    GroupSum(GroupCount(TeamColumn(db.teams, 0)) + GroupCount(TeamColumn(db.teams, 1)))
  }

  function TeamLossesQuery(db: Db): seq<CountRow> {
    GroupSum(GroupCount(TeamColumn(db.teams, 2)) + GroupCount(TeamColumn(db.teams, 3)))
  }

  lemma {:induction false} TotalAbsent(rows: seq<CountRow>, key: string)
    requires key !in RowKeys(rows)
    ensures Total(rows, key) == 0
    decreases |rows|
  {
    if rows != [] {
      var init := rows[..|rows| - 1];
      assert RowKeys(init) == RowKeys(rows)[..|rows| - 1];
      TotalAbsent(init, key);
    }
  }

  lemma {:induction false} TotalAppend(a: seq<CountRow>, b: seq<CountRow>, key: string)
    ensures Total(a + b, key) == Total(a, key) + Total(b, key)
    decreases |b|
  {
    if b == [] {
      assert a + b == a;
    } else {
      var b' := b[..|b| - 1];
      assert (a + b)[..|a + b| - 1] == a + b';
      TotalAppend(a, b', key);
    }
  }

  /** With distinct names, the total of a name is the count of its one row. */
  lemma {:induction false} TotalAt(g: seq<CountRow>, j: nat)
    requires Distinct(RowKeys(g)) && j < |g|
    ensures Total(g, g[j].key) == g[j].count
    decreases |g|
  {
    var init, last := g[..|g| - 1], g[|g| - 1];
    assert RowKeys(init) == RowKeys(g)[..|g| - 1];
    if j == |g| - 1 {
      assert last.key !in RowKeys(init) by {
        forall i | 0 <= i < |init| ensures RowKeys(init)[i] != last.key {
          assert RowKeys(g)[i] != RowKeys(g)[|g| - 1];
        }
      }
      TotalAbsent(init, last.key);
    } else {
      assert RowKeys(g)[j] != RowKeys(g)[|g| - 1];
      TotalAt(init, j);
    }
  }

  /** Grouping keeps every name's total. */
  lemma GroupSumTotal(rows: seq<CountRow>, key: string)
    ensures Total(GroupSum(rows), key) == Total(rows, key)
  {
    var g := GroupSum(rows);
    if key in RowKeys(rows) {
      var j :| 0 <= j < |g| && RowKeys(g)[j] == key;
      TotalAt(g, j);
    } else {
      TotalAbsent(g, key);
      TotalAbsent(rows, key);
    }
  }

  lemma {:induction false} CountOnes(keys: seq<string>, key: string)
    ensures Total(Ones(keys), key) == multiset(keys)[key]
    decreases |keys|
  {
    if keys != [] {
      var init := keys[..|keys| - 1];
      assert keys == init + [keys[|keys| - 1]];
      assert Ones(keys)[..|keys| - 1] == Ones(init);
      CountOnes(init, key);
    }
  }

  /** `COUNT(*)` of a name is the number of records carrying it. */
  lemma GroupCountTotal(keys: seq<string>, key: string)
    ensures Total(GroupCount(keys), key) == multiset(keys)[key]
  {
    GroupSumTotal(Ones(keys), key);
    CountOnes(keys, key);
  }

  lemma RowKeysAppend(a: seq<CountRow>, b: seq<CountRow>)
    ensures RowKeys(a + b) == RowKeys(a) + RowKeys(b)
  {
  }

  /**
   * The team query of a name sums its rows in both positions: a team win counts once
   * for the attacker and once for the defender.
   */
  lemma TeamCountTotal(attack: seq<string>, defense: seq<string>, key: string)
    ensures Total(GroupSum(GroupCount(attack) + GroupCount(defense)), key) ==
            multiset(attack)[key] + multiset(defense)[key]
  {
    GroupSumTotal(GroupCount(attack) + GroupCount(defense), key);
    TotalAppend(GroupCount(attack), GroupCount(defense), key);
    GroupCountTotal(attack, key);
    GroupCountTotal(defense, key);
  }

  /** The team query has a row for exactly the names in either position. */
  lemma TeamCountKeys(attack: seq<string>, defense: seq<string>, key: string)
    ensures key in RowKeys(GroupSum(GroupCount(attack) + GroupCount(defense))) <==>
            key in attack || key in defense
  {
    RowKeysAppend(GroupCount(attack), GroupCount(defense));
  }

  // ---------------------------------------------------------------------------------
  // The `playerStats` dictionary

  /** One value of `playerStats`; `rating` and `gamesPlayed` are set only by the join. */
  datatype Tally = Tally(singleWins: nat, teamWins: nat, totalWins: nat,
                         singleLosses: nat, teamLosses: nat, totalLosses: nat,
                         rating: Option<int>, gamesPlayed: Option<nat>)

  const Fresh := Tally(0, 0, 0, 0, 0, 0, None, None)

  /** Which of the four query results a fold pass reads. */
  datatype Column = SingleWins | SingleLosses | TeamWins | TeamLosses

  function Field(t: Tally, col: Column): nat {
    match col
    case SingleWins => t.singleWins
    case SingleLosses => t.singleLosses
    case TeamWins => t.teamWins
    case TeamLosses => t.teamLosses
  }

  /** One row of a fold pass: the column takes the count, the matching total grows by it. */
  function Bump(t: Tally, col: Column, n: nat): Tally {
    match col
    case SingleWins => t.(singleWins := n, totalWins := t.totalWins + n)
    case SingleLosses => t.(singleLosses := n, totalLosses := t.totalLosses + n)
    case TeamWins => t.(teamWins := n, totalWins := t.totalWins + n)
    case TeamLosses => t.(teamLosses := n, totalLosses := t.totalLosses + n)
  }

  /** The position of a pass in the fold. */
  function Rank(col: Column): nat {
    match col
    case SingleWins => 0
    case SingleLosses => 1
    case TeamWins => 2
    case TeamLosses => 3
  }

  /** No pass from position `r` on has written the entry yet, and neither has the join. */
  predicate Awaits(t: Tally, r: nat) {
    && t.rating == None && t.gamesPlayed == None
    && (r <= 0 ==> t.singleWins == 0 && t.totalWins == 0)
    && (r <= 1 ==> t.singleLosses == 0 && t.totalLosses == 0)
    && (r <= 2 ==> t.teamWins == 0)
    && (r <= 3 ==> t.teamLosses == 0)
  }

  /** A pass fills its own column and nothing a later pass or the join writes. */
  lemma BumpAwaits(t: Tally, col: Column, n: nat)
    requires Awaits(t, Rank(col))
    ensures Field(t, col) == 0 && Awaits(t, Rank(col) + 1)
    ensures Awaits(Bump(t, col, n), Rank(col) + 1)
  {
  }

  lemma BumpZero(t: Tally, col: Column)
    requires Field(t, col) == 0
    ensures Bump(t, col, 0) == t
  {
  }

  function Get(stats: map<string, Tally>, key: string): Tally {
    if key in stats then stats[key] else Fresh
  }

  /** `order` lists the dictionary's keys once each, in insertion order (`Object.entries`). */
  ghost predicate InOrder(stats: map<string, Tally>, order: seq<string>) {
    Distinct(order) && forall k :: k in stats <==> k in order
  }

  lemma TotalSnoc(rows: seq<CountRow>, i: nat, key: string)
    requires i < |rows|
    ensures Total(rows[..i + 1], key) == Total(rows[..i], key) + (if rows[i].key == key then rows[i].count else 0)
    ensures key in RowKeys(rows[..i + 1]) <==> key in RowKeys(rows[..i]) || key == rows[i].key
  {
    assert rows[..i + 1][..i] == rows[..i];
    assert RowKeys(rows[..i + 1]) == RowKeys(rows[..i]) + [rows[i].key];
  }

  lemma FirstOfDistinct(rows: seq<CountRow>, i: nat)
    requires Distinct(RowKeys(rows)) && i < |rows|
    ensures rows[i].key !in RowKeys(rows[..i])
  {
    forall j | 0 <= j < i ensures RowKeys(rows[..i])[j] != rows[i].key {
      assert RowKeys(rows)[j] != RowKeys(rows)[i];
    }
  }

  /** What a pass has done after reading `rows[..i]`, from `stats` and `order` to `cur` and `curOrder`. */
  ghost predicate Passed(stats: map<string, Tally>, order: seq<string>, rows: seq<CountRow>, col: Column, i: nat,
                         cur: map<string, Tally>, curOrder: seq<string>)
    requires i <= |rows|
  {
    && InOrder(cur, curOrder) && |order| <= |curOrder| && curOrder[..|order|] == order
    && (forall k :: k in cur <==> k in stats || k in RowKeys(rows[..i]))
    && (forall k :: Get(cur, k) == Bump(Get(stats, k), col, Total(rows[..i], k)))
    && (forall k :: k in cur ==> Awaits(cur[k], Rank(col) + 1))
  }

  /** A row's name has not been counted by this pass yet, and counting it extends the relation by one row. */
  lemma StepCounts(stats: map<string, Tally>, order: seq<string>, rows: seq<CountRow>, col: Column, i: nat,
                   cur: map<string, Tally>, curOrder: seq<string>)
    requires i < |rows| && Distinct(RowKeys(rows))
    requires forall k :: k in stats ==> Awaits(stats[k], Rank(col))
    requires Passed(stats, order, rows, col, i, cur, curOrder)
    ensures Get(cur, rows[i].key) == Get(stats, rows[i].key)
    ensures forall k :: k in cur[rows[i].key := Bump(Get(cur, rows[i].key), col, rows[i].count)] <==>
                        k in stats || k in RowKeys(rows[..i + 1])
    ensures forall k :: Get(cur[rows[i].key := Bump(Get(cur, rows[i].key), col, rows[i].count)], k) ==
                        Bump(Get(stats, k), col, Total(rows[..i + 1], k))
  {
    var name := rows[i].key;
    var next := cur[name := Bump(Get(cur, name), col, rows[i].count)];
    FirstOfDistinct(rows, i);
    TotalAbsent(rows[..i], name);
    BumpAwaits(Get(stats, name), col, 0);
    BumpZero(Get(stats, name), col);
    forall k
      ensures k in next <==> k in stats || k in RowKeys(rows[..i + 1])
      ensures Get(next, k) == Bump(Get(stats, k), col, Total(rows[..i + 1], k))
    {
      TotalSnoc(rows, i, k);
    }
  }

  /** Counting a name that no pass from this one on had written leaves every entry awaiting only later passes. */
  lemma StepAwaits(stats: map<string, Tally>, order: seq<string>, rows: seq<CountRow>, col: Column, i: nat,
                   cur: map<string, Tally>, curOrder: seq<string>, next: map<string, Tally>)
    requires i < |rows|
    requires forall k :: k in stats ==> Awaits(stats[k], Rank(col))
    requires Passed(stats, order, rows, col, i, cur, curOrder)
    requires Get(cur, rows[i].key) == Get(stats, rows[i].key)
    requires next == cur[rows[i].key := Bump(Get(cur, rows[i].key), col, rows[i].count)]
    ensures forall k :: k in next ==> Awaits(next[k], Rank(col) + 1)
  {
    BumpAwaits(Get(stats, rows[i].key), col, rows[i].count);
  }

  /**
   * The body of a pass for one row: a name seen for the first time gets a zeroed entry
   * at the end of the insertion order, then its column takes the count.
   */
  method AddRow(stats: map<string, Tally>, order: seq<string>, name: string, count: nat, col: Column)
    returns (stats': map<string, Tally>, order': seq<string>)
    requires InOrder(stats, order)
    ensures stats' == stats[name := Bump(Get(stats, name), col, count)]
    ensures order' == if name in stats then order else order + [name]
    ensures InOrder(stats', order')
  {
    stats', order' := stats, order;
    if name !in stats' {
      stats' := stats'[name := Fresh];
      order' := order' + [name];
    }
    stats' := stats'[name := Bump(stats'[name], col, count)];
  }

  /**
   * One `forEach` pass of the fold over a query's rows: a name seen for the first time
   * gets a zeroed entry, then its column takes the row's count and the total grows by it.
   */
  method AddColumn(stats: map<string, Tally>, order: seq<string>, rows: seq<CountRow>, col: Column)
    returns (stats': map<string, Tally>, order': seq<string>)
    requires InOrder(stats, order) && Distinct(RowKeys(rows))
    requires forall k :: k in stats ==> Awaits(stats[k], Rank(col))
    ensures InOrder(stats', order') && |order| <= |order'| && order'[..|order|] == order
    ensures forall k :: k in stats' ==> Awaits(stats'[k], Rank(col) + 1)
    ensures forall k :: k in stats' <==> k in stats || k in RowKeys(rows)
    ensures forall k :: Get(stats', k) == Bump(Get(stats, k), col, Total(rows, k))
  {
    stats', order' := stats, order;
    for i := 0 to |rows|
      invariant Passed(stats, order, rows, col, i, stats', order')
    {
      ghost var cur, curOrder := stats', order';
      stats', order' := AddRow(stats', order', rows[i].key, rows[i].count, col);
      StepCounts(stats, order, rows, col, i, cur, curOrder);
      StepAwaits(stats, order, rows, col, i, cur, curOrder, stats');
      assert order'[..|order|] == order by {
        if rows[i].key !in cur {
          assert order'[..|curOrder|] == curOrder;
        }
      }
    }
    assert rows[..|rows|] == rows;
  }

  /** The last player row whose lower-cased name is `key` (`forEach` overwrites). */
  function LastWith(ps: seq<Player>, key: string): Option<Player> {
    if ps == [] then None
    else if Lower(ps[|ps| - 1].name) == key then Some(ps[|ps| - 1])
    else LastWith(ps[..|ps| - 1], key)
  }

  /** The join's effect on one entry. */
  function Join(t: Tally, p: Option<Player>): Tally {
    if p.Some? then t.(rating := Some(p.value.rating), gamesPlayed := Some(p.value.gamesPlayed)) else t
  }

  /**
   * The ratings pass: every player row whose lower-cased name already has an entry
   * writes its rating and games played into it; other rows are ignored.
   */
  method JoinRatings(stats: map<string, Tally>, ps: seq<Player>) returns (joined: map<string, Tally>)
    ensures joined.Keys == stats.Keys
    ensures forall k :: k in stats ==> joined[k] == Join(stats[k], LastWith(ps, k))
  {
    joined := stats;
    for i := 0 to |ps|
      invariant joined.Keys == stats.Keys
      invariant forall k :: k in stats ==> joined[k] == Join(stats[k], LastWith(ps[..i], k))
    {
      assert ps[..i + 1][..i] == ps[..i];
      var name := Lower(ps[i].name);
      if name in joined {
        joined := joined[name := joined[name].(rating := Some(ps[i].rating), gamesPlayed := Some(ps[i].gamesPlayed))];
      }
    }
    assert ps[..|ps|] == ps;
  }

  // ---------------------------------------------------------------------------------
  // The response

  /** One element of `statsArray`. */
  datatype Standing = Standing(name: string, rating: int, gamesPlayed: nat,
                               singleWins: nat, teamWins: nat, totalWins: nat,
                               singleLosses: nat, teamLosses: nat, totalLosses: nat)

  /** One element of the response: the standing and its rating history. */
  datatype StatRow = StatRow(player: Standing, ratingHistory: seq<int>)

  /**
   * The `map` over `Object.entries(playerStats)`. The `...stats` spread comes last, so a
   * joined rating or games count wins over the `|| 1200` and `|| 0` defaults; those
   * apply only to names without a player row.
   */
  function Present(key: string, t: Tally): Standing {
    Standing(Capitalize(key), t.rating.GetOr(InitialRating), t.gamesPlayed.GetOr(0),
             t.singleWins, t.teamWins, t.totalWins, t.singleLosses, t.teamLosses, t.totalLosses)
  }

  function RatingOf(s: Standing): int {
    s.rating
  }

  function RowRating(r: StatRow): int {
    r.player.rating
  }

  /** The name `key` occurs, lower-cased, in some column of some match. */
  ghost predicate Appears(db: Db, key: string) {
    || key in SingleColumn(db.singles, 0) || key in SingleColumn(db.singles, 1)
    || key in TeamColumn(db.teams, 0) || key in TeamColumn(db.teams, 1)
    || key in TeamColumn(db.teams, 2) || key in TeamColumn(db.teams, 3)
  }

  /**
   * The reference entry for `key`, counted straight from the match tables: wins and
   * losses in each table, team results in both positions, then the player join.
   */
  function TallyFor(db: Db, key: string): Tally {
    Join(Counts(db, key), LastWith(db.players, key))
  }

  /** The win and loss counts of `key`, before the join. */
  function Counts(db: Db, key: string): Tally {
    var sw := multiset(SingleColumn(db.singles, 0))[key];
    var sl := multiset(SingleColumn(db.singles, 1))[key];
    var tw := multiset(TeamColumn(db.teams, 0))[key] + multiset(TeamColumn(db.teams, 1))[key];
    var tl := multiset(TeamColumn(db.teams, 2))[key] + multiset(TeamColumn(db.teams, 3))[key];
    Tally(sw, tw, sw + tw, sl, tl, sl + tl, None, None)
  }

  /** The reference response row for `key`. */
  function RowFor(db: Db, key: string): StatRow {
    StatRow(Present(key, TallyFor(db, key)), RatingHistory(Capitalize(key), db))
  }

  /**
   * What the response is: sorted by rating, highest first; one row per name that appears
   * in some match, grouped case-insensitively; each row the reference row of its name.
   */
  ghost predicate Reports(db: Db, rows: seq<StatRow>) {
    && SortedDesc(rows, RowRating)
    && (forall i :: 0 <= i < |rows| ==>
          Appears(db, Lower(rows[i].player.name)) && rows[i] == RowFor(db, Lower(rows[i].player.name)))
    && (forall key :: Appears(db, key) ==> exists i :: 0 <= i < |rows| && Lower(rows[i].player.name) == key)
    && (forall i, j :: 0 <= i < j < |rows| ==> Lower(rows[i].player.name) != Lower(rows[j].player.name))
  }

  lemma ColumnIsLower(c: seq<string>, key: string, names: seq<string>)
    requires |c| == |names| && forall i :: 0 <= i < |c| ==> c[i] == Lower(names[i])
    requires key in c
    ensures Lower(Capitalize(key)) == key
  {
    var i :| 0 <= i < |c| && c[i] == key;
    LowerCapitalizeLower(names[i]);
  }

  /** Every grouping key is lower-cased, so its display form leads back to it. */
  lemma DisplayKey(db: Db, key: string)
    requires Appears(db, key)
    ensures Lower(Capitalize(key)) == key
  {
    var gs, ts := db.singles, db.teams;
    if key in SingleColumn(gs, 0) {
      ColumnIsLower(SingleColumn(gs, 0), key, seq(|gs|, i requires 0 <= i < |gs| => gs[i].winner.name));
    } else if key in SingleColumn(gs, 1) {
      ColumnIsLower(SingleColumn(gs, 1), key, seq(|gs|, i requires 0 <= i < |gs| => gs[i].loser.name));
    } else if key in TeamColumn(ts, 0) {
      ColumnIsLower(TeamColumn(ts, 0), key, seq(|ts|, i requires 0 <= i < |ts| => ts[i].winnerAttack.name));
    } else if key in TeamColumn(ts, 1) {
      ColumnIsLower(TeamColumn(ts, 1), key, seq(|ts|, i requires 0 <= i < |ts| => ts[i].winnerDefense.name));
    } else if key in TeamColumn(ts, 2) {
      ColumnIsLower(TeamColumn(ts, 2), key, seq(|ts|, i requires 0 <= i < |ts| => ts[i].loserAttack.name));
    } else {
      ColumnIsLower(TeamColumn(ts, 3), key, seq(|ts|, i requires 0 <= i < |ts| => ts[i].loserDefense.name));
    }
  }

  /** After the four passes, an entry exists exactly for the names that appear, counted as in `TallyFor`. */
  ghost predicate Counted(db: Db, stats: map<string, Tally>) {
    && (forall k :: k in stats <==> Appears(db, k))
    && (forall k :: k in stats ==> stats[k] == Counts(db, k))
  }

  /** The four passes applied to one name give its counts from the match tables. */
  lemma FoldAt(db: Db, key: string, t1: Tally, t2: Tally, t3: Tally, t4: Tally)
    requires t1 == Bump(Fresh, SingleWins, Total(SingleWinsQuery(db), key))
    requires t2 == Bump(t1, SingleLosses, Total(SingleLossesQuery(db), key))
    requires t3 == Bump(t2, TeamWins, Total(TeamWinsQuery(db), key))
    requires t4 == Bump(t3, TeamLosses, Total(TeamLossesQuery(db), key))
    ensures t4 == Counts(db, key)
  {
    var sw, sl := Total(SingleWinsQuery(db), key), Total(SingleLossesQuery(db), key);
    var tw, tl := Total(TeamWinsQuery(db), key), Total(TeamLossesQuery(db), key);
    BumpChain(t1, t2, t3, t4, sw, sl, tw, tl);
    QueryCounts(db, key);
  }

  /** Each query's total for a name is its number of records in the query's columns. */
  lemma QueryCounts(db: Db, key: string)
    ensures Total(SingleWinsQuery(db), key) == multiset(SingleColumn(db.singles, 0))[key]
    ensures Total(SingleLossesQuery(db), key) == multiset(SingleColumn(db.singles, 1))[key]
    ensures Total(TeamWinsQuery(db), key) ==
            multiset(TeamColumn(db.teams, 0))[key] + multiset(TeamColumn(db.teams, 1))[key]
    ensures Total(TeamLossesQuery(db), key) ==
            multiset(TeamColumn(db.teams, 2))[key] + multiset(TeamColumn(db.teams, 3))[key]
  {
    GroupCountTotal(SingleColumn(db.singles, 0), key);
    GroupCountTotal(SingleColumn(db.singles, 1), key);
    TeamCountTotal(TeamColumn(db.teams, 0), TeamColumn(db.teams, 1), key);
    TeamCountTotal(TeamColumn(db.teams, 2), TeamColumn(db.teams, 3), key);
  }

  /** A name gets an entry in some pass exactly when it appears in some match. */
  lemma FoldKeys(db: Db, key: string)
    ensures (key in RowKeys(SingleWinsQuery(db)) || key in RowKeys(SingleLossesQuery(db)) ||
             key in RowKeys(TeamWinsQuery(db)) || key in RowKeys(TeamLossesQuery(db))) <==> Appears(db, key)
  {
    TeamCountKeys(TeamColumn(db.teams, 0), TeamColumn(db.teams, 1), key);
    TeamCountKeys(TeamColumn(db.teams, 2), TeamColumn(db.teams, 3), key);
  }

  lemma BumpChain(t1: Tally, t2: Tally, t3: Tally, t4: Tally, sw: nat, sl: nat, tw: nat, tl: nat)
    requires t1 == Bump(Fresh, SingleWins, sw) && t2 == Bump(t1, SingleLosses, sl)
    requires t3 == Bump(t2, TeamWins, tw) && t4 == Bump(t3, TeamLosses, tl)
    ensures t4 == Tally(sw, tw, sw + tw, sl, tl, sl + tl, None, None)
  {
  }

  /**
   * The four `forEach` passes over the grouped query rows, which build `playerStats`;
   * `order` is the order in which its keys were first inserted.
   */
  method FoldQueries(db: Db) returns (stats: map<string, Tally>, order: seq<string>)
    ensures InOrder(stats, order) && Counted(db, stats)
    ensures forall k :: k in stats ==> stats[k].rating == None && stats[k].gamesPlayed == None
  {
    ghost var s0: map<string, Tally> := map[];
    stats, order := AddColumn(map[], [], SingleWinsQuery(db), SingleWins);
    ghost var s1 := stats;
    assert Rank(SingleLosses) == Rank(SingleWins) + 1;
    stats, order := AddColumn(stats, order, SingleLossesQuery(db), SingleLosses);
    ghost var s2 := stats;
    assert Rank(TeamWins) == Rank(SingleLosses) + 1;
    stats, order := AddColumn(stats, order, TeamWinsQuery(db), TeamWins);
    ghost var s3 := stats;
    assert Rank(TeamLosses) == Rank(TeamWins) + 1;
    stats, order := AddColumn(stats, order, TeamLossesQuery(db), TeamLosses);
    forall k ensures (k in stats <==> Appears(db, k)) && (k in stats ==> stats[k] == Counts(db, k)) {
      assert Get(s0, k) == Fresh;
      FoldAt(db, k, Get(s1, k), Get(s2, k), Get(s3, k), Get(stats, k));
      FoldKeys(db, k);
    }
  }

  /** The standings of exactly the appearing names, once each, each the reference standing of its name. */
  ghost predicate Standings(db: Db, standings: seq<Standing>) {
    && (forall i :: 0 <= i < |standings| ==>
          Appears(db, Lower(standings[i].name)) &&
          standings[i] == Present(Lower(standings[i].name), TallyFor(db, Lower(standings[i].name))))
    && (forall key :: Appears(db, key) ==> exists i :: 0 <= i < |standings| && Lower(standings[i].name) == key)
    && (forall i, j :: 0 <= i < j < |standings| ==> Lower(standings[i].name) != Lower(standings[j].name))
  }

  lemma SortedStandings(db: Db, order: seq<string>, standings: seq<Standing>, sorted: seq<Standing>)
    requires Distinct(order) && forall k :: k in order <==> Appears(db, k)
    requires |standings| == |order|
    requires forall j :: 0 <= j < |order| ==> standings[j] == Present(order[j], TallyFor(db, order[j]))
    requires multiset(sorted) == multiset(standings)
    ensures Standings(db, sorted)
  {
    forall j | 0 <= j < |order| ensures Lower(standings[j].name) == order[j] {
      DisplayKey(db, order[j]);
    }
    assert Distinct(standings) by {
      forall i, j | 0 <= i < j < |standings| ensures standings[i] != standings[j] {
        assert Lower(standings[i].name) != Lower(standings[j].name);
      }
    }
    PermutationKeepsDistinct(standings, sorted);
    forall i | 0 <= i < |sorted|
      ensures Appears(db, Lower(sorted[i].name))
      ensures sorted[i] == Present(Lower(sorted[i].name), TallyFor(db, Lower(sorted[i].name)))
    {
      assert sorted[i] in multiset(standings);
      var j :| 0 <= j < |standings| && standings[j] == sorted[i];
    }
    forall key | Appears(db, key) ensures exists i :: 0 <= i < |sorted| && Lower(sorted[i].name) == key {
      var j :| 0 <= j < |order| && order[j] == key;
      assert standings[j] in multiset(sorted);
      var i :| 0 <= i < |sorted| && sorted[i] == standings[j];
      assert Lower(sorted[i].name) == key;
    }
    forall i, j | 0 <= i < j < |sorted| ensures Lower(sorted[i].name) != Lower(sorted[j].name) {
      assert sorted[i] != sorted[j];
    }
  }

  /** Every standing, in order, with `getLastFiveRatingChanges` of its display name. */
  function WithHistories(db: Db, standings: seq<Standing>): (rows: seq<StatRow>)
    ensures |rows| == |standings|
  {
    if standings == [] then []
    else
      var last := standings[|standings| - 1];
      WithHistories(db, standings[..|standings| - 1]) + [StatRow(last, RatingHistory(last.name, db))]
  }

  lemma {:induction false} WithHistoriesAt(db: Db, standings: seq<Standing>, j: nat)
    requires j < |standings|
    ensures WithHistories(db, standings)[j] == StatRow(standings[j], RatingHistory(standings[j].name, db))
    decreases |standings|
  {
    if j < |standings| - 1 {
      WithHistoriesAt(db, standings[..|standings| - 1], j);
    }
  }

  /** The `Promise.all` map over the sorted standings. */
  method AttachHistories(db: Db, standings: seq<Standing>) returns (rows: seq<StatRow>)
    ensures rows == WithHistories(db, standings)
  {
    rows := [];
    for i := 0 to |standings|
      invariant rows == WithHistories(db, standings[..i])
    {
      assert standings[..i + 1][..i] == standings[..i];
      var history := RatingHistory(standings[i].name, db);
      rows := rows + [StatRow(standings[i], history)];
    }
    assert standings[..|standings|] == standings;
  }

  /** Each standing, given its history, is the reference row of its name. */
  lemma HistoriesRows(db: Db, sorted: seq<Standing>, rows: seq<StatRow>)
    requires forall i :: 0 <= i < |sorted| ==>
               Appears(db, Lower(sorted[i].name)) &&
               sorted[i] == Present(Lower(sorted[i].name), TallyFor(db, Lower(sorted[i].name)))
    requires rows == WithHistories(db, sorted)
    ensures forall i :: 0 <= i < |rows| ==> rows[i].player == sorted[i]
    ensures forall i :: 0 <= i < |rows| ==>
              Appears(db, Lower(rows[i].player.name)) && rows[i] == RowFor(db, Lower(rows[i].player.name))
  {
    forall i | 0 <= i < |sorted|
      ensures rows[i].player == sorted[i]
      ensures Appears(db, Lower(rows[i].player.name)) && rows[i] == RowFor(db, Lower(rows[i].player.name))
    {
      WithHistoriesAt(db, sorted, i);
      RowAt(db, sorted[i], Lower(sorted[i].name));
    }
  }

  lemma RowAt(db: Db, s: Standing, key: string)
    requires s == Present(key, TallyFor(db, key))
    ensures StatRow(s, RatingHistory(s.name, db)) == RowFor(db, key)
  {
  }

  /** Rows that carry the sorted standings, in order, are sorted by rating. */
  lemma RowsSorted(sorted: seq<Standing>, rows: seq<StatRow>)
    requires SortedDesc(sorted, RatingOf)
    requires |rows| == |sorted| && forall i :: 0 <= i < |rows| ==> rows[i].player == sorted[i]
    ensures SortedDesc(rows, RowRating)
  {
    forall i, j | 0 <= i < j < |rows| ensures RowRating(rows[i]) >= RowRating(rows[j]) {
      assert RatingOf(sorted[i]) >= RatingOf(sorted[j]);
    }
  }

  /** Rows that carry standings of pairwise different names have pairwise different names. */
  lemma RowsDistinct(sorted: seq<Standing>, rows: seq<StatRow>)
    requires forall i, j :: 0 <= i < j < |sorted| ==> Lower(sorted[i].name) != Lower(sorted[j].name)
    requires |rows| == |sorted| && forall i :: 0 <= i < |rows| ==> rows[i].player == sorted[i]
    ensures forall i, j :: 0 <= i < j < |rows| ==> Lower(rows[i].player.name) != Lower(rows[j].player.name)
  {
    forall i, j | 0 <= i < j < |rows| ensures Lower(rows[i].player.name) != Lower(rows[j].player.name) {
      assert rows[i].player == sorted[i] && rows[j].player == sorted[j];
    }
  }

  /** Rows that carry a standing for every appearing name have a row for every appearing name. */
  lemma RowsCover(db: Db, sorted: seq<Standing>, rows: seq<StatRow>)
    requires forall key :: Appears(db, key) ==> exists i :: 0 <= i < |sorted| && Lower(sorted[i].name) == key
    requires |rows| == |sorted| && forall i :: 0 <= i < |rows| ==> rows[i].player == sorted[i]
    ensures forall key :: Appears(db, key) ==> exists i :: 0 <= i < |rows| && Lower(rows[i].player.name) == key
  {
    forall key | Appears(db, key) ensures exists i :: 0 <= i < |rows| && Lower(rows[i].player.name) == key {
      var i :| 0 <= i < |sorted| && Lower(sorted[i].name) == key;
      assert Lower(rows[i].player.name) == key;
    }
  }

  /** Attaching the histories to sorted reference standings gives the reference response. */
  lemma HistoriesReport(db: Db, sorted: seq<Standing>)
    requires SortedDesc(sorted, RatingOf) && Standings(db, sorted)
    ensures Reports(db, WithHistories(db, sorted))
  {
    var rows := WithHistories(db, sorted);
    HistoriesRows(db, sorted, rows);
    RowsSorted(sorted, rows);
    RowsDistinct(sorted, rows);
    RowsCover(db, sorted, rows);
  }

  /**
   * `/stats`: the four grouped queries folded into `playerStats`, the ratings joined in,
   * the entries mapped to display rows and sorted by rating, highest first, and each
   * row given `getLastFiveRatingChanges` of its display name.
   */
  method Leaderboard(db: Db) returns (rows: seq<StatRow>)
    ensures Reports(db, rows)
  {
    var stats, order := FoldQueries(db);
    ghost var folded := stats;
    stats := JoinRatings(stats, db.players);

    var standings := seq(|order|, i requires 0 <= i < |order| => Present(order[i], Get(stats, order[i])));
    assert forall j :: 0 <= j < |order| ==> standings[j] == Present(order[j], TallyFor(db, order[j])) by {
      forall j | 0 <= j < |order| ensures Get(stats, order[j]) == TallyFor(db, order[j]) {
        assert order[j] in folded;
      }
    }
    var sorted := SortDesc(standings, RatingOf);
    SortedStandings(db, order, standings, sorted);

    rows := AttachHistories(db, sorted);
    HistoriesReport(db, sorted);
  }
}
