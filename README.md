# Table football score tracker: the rating ledger

This project models the rating ledger of the table football score tracker's Express server (`index.js`), and proves properties of that model. The server keeps three tables:

- `players`: name, rating and games played.
- `single_game_results`: one row per one-on-one match.
- `team_game_results`: one row per two-against-two match.

Each match row records every participant's rating before and after the match.

The server runs four operations over these tables:

- `POST /saveSingle` and `POST /saveTeam` check that every name is given. They then find or create each player (names are matched case-insensitively, and a new player starts at 1200 with no games). They compute the new Elo ratings, insert the match row with the before/after ratings, and write each new rating back with one more game played.
- Elo K-factor: 40 below 20 games played and 20 from then on. Team games use three quarters of that (30 or 15). In a team game the opponent rating is the rounded average of the other team. Results are rounded with JavaScript's `Math.round`, which rounds halves up.
- `getLastFiveRatingChanges` lists a player's rating changes, newest first, at most five. In each match it takes the first slot whose name matches.
- `GET /stats` groups wins and losses by lower-cased name from the two match tables. It folds the four query results into one dictionary, joins in ratings and games from `players`, and capitalises each name. It sorts the rows by rating, highest first, and attaches each player's rating history.

## Structure

- `wrappers.dfy`: `Option` and `Result`.
- `text.dfy`: ASCII lower-casing and the capitalisation used for display names.
- `elo.dfy`: the rating engine. The expected-score formula is a parameter, `es`: any function of two ratings strictly between 0 and 1.
- `sorting.dfy`: a descending insertion sort, stable by construction (`Insert` places an element after every element with an equal key; no lemma states stability). It stands for `Array.prototype.sort` with a rating comparator and for SQL `ORDER BY ... DESC`.
- `tables.dfy`: the three tables, player lookup and creation (`Resolve`), and the rating update (`SetRating`).
- `history.dfy`: the rating-change query and `RatingHistory`.
- `ledger.dfy`:
  - module `Ledger`: the two save handlers as functions on the database value, with the ledger invariant. The invariant (`Consistent`) says every player's rating is 1200 plus the deltas its recorded matches show, and its games played is the number of those matches.
  - module `LedgerProps`: what one save does to the tables, and replay of any sequence of saves from the empty database.
- `service.dfy`: the class `Service.Tracker`. Its `players`, `singles` and `teams` fields are updated in place by methods that follow the handlers' statement order. Each method is proved against the `Ledger` and `Stats` functions.
- `stats.dfy`: the four grouped queries, the dictionary fold (a loop per query, as the source's `forEach`), the join, the response rows, and `Leaderboard`. `Leaderboard` is proved to produce exactly the response that `Reports` describes.
- `stats_props.dfy`: properties of that response: counts per row, where each rating comes from, histories, and the win/loss totals.

## Model

| member | source | states |
|---|---|---|
| `Elo.ExpectedScore` | index.js:44-46 | the expected score is strictly between 0 and 1 |
| `Elo.JsRound` | index.js:69 | the result is the integer nearest to the input, with halves rounded up (`Math.round`) |
| `Elo.KFactorValues` | index.js:59-64 | K is 40 below 20 games and 20 from 20 games on; a team game multiplies it by 0.75, giving 30 and 15 |
| `Elo.KFactorIsWhole` | index.js:59-64 | K is always a positive whole number |
| `Elo.WinNeverLowers` | index.js:57-70 | a win never lowers the rating and raises it by at most K |
| `Elo.LossNeverRaises` | index.js:57-70 | a loss never raises the rating and lowers it by at most K |
| `Elo.EvenMatch` | index.js:57-70 | between equal ratings the change is +20/-20 for a new player, +10 for a veteran, +15/-15 for a new team player, and +8/-7 for a veteran team player (7.5 rounds up) |
| `Elo.TeamAverage` | index.js:256-261 | the team rating is the rounded-half-up mean of the two ratings and lies between them |
| `Text.Lower` | index.js:78 | same length; each ASCII capital becomes its small letter; every other character is unchanged |
| `Text.LowerIdempotent` | index.js:115 | lower-casing an already lower-cased name changes nothing |
| `Text.LowerCapitalizeLower` | index.js:501-511 | a display name lower-cases back to its grouped key, so a history looked up by display name is that key's history |
| `Tables.FindLower` | index.js:81-88 | finds the first player with the lower-cased name; finds nothing exactly when no player has it |
| `Tables.Resolve` | index.js:77-97 | returns a player with the requested name; a known name returns the first matching row and leaves the table alone; an unknown name appends a player with that name, rating 1200 and no games |
| `Tables.ResolveKeepsRows` | index.js:77-97 | a lookup never changes or removes an existing player row |
| `Tables.ResolveKeepsUnique` | index.js:77-97 | a lookup keeps lower-cased player names unique |
| `Tables.ResolveAll` | index.js:250-253 | several lookups in a row return one id per name, each naming a row with that name, and only append to the table |
| `Tables.ResolveAllAdds` | index.js:250-253 | every row added by the lookups is a fresh 1200/0 player for one of the names; uniqueness of names is kept |
| `Tables.ResolveAllSnapshots` | index.js:171-172 | the row each lookup returns carries the rating and games the player had before the match (1200/0 for a new one) |
| `Tables.PreOfUnique` | index.js:171-172 | with unique names, the pre-match snapshot of a known name is its row |
| `Tables.SetRatingEffect` | index.js:102-107 | the update sets the rating and adds the increment to games played for the row with that id only; an id that matches no row changes nothing |
| `Tables.ApplyAllEffect` | index.js:211-212 | after a run of updates each row's games grow by the number of updates naming it; rows no update names are unchanged; a row takes the rating of the last update naming it |
| `Tables.ResolveFour` | index.js:250-253 | four consecutive lookups are the combined lookup of the four names |
| `Tables.ApplyFour` | index.js:316-319 | four consecutive updates are the combined run of the four updates |
| `History.FirstDeltaSpec` | index.js:121-136 | the `CASE` is null exactly when no slot has the name; otherwise it is the after-minus-before of the first slot that has it |
| `History.MatchEntries` | index.js:118-141 | a match gives a player at most one rating change |
| `History.MatchEntriesAppend` | index.js:128 | the changes of two runs of matches are the changes of the first followed by those of the second (`UNION ALL`) |
| `History.UnknownHasNoEntries` | index.js:126 | in a database whose match names are all registered, a name no player has shows no rating changes |
| `History.Newest` | index.js:142-143 | keeps five entries, or all of them when there are fewer |
| `History.NewestSpec` | index.js:142-143 | the kept entries are newest first, are drawn from the player's entries, and none left out is newer than one kept |
| `History.Deltas` | index.js:147 | the response lists the rating change of each kept entry, in order |
| `History.RatingHistory` | index.js:114-148 | a rating history has at most five changes |
| `Ledger.SaveSingle` | index.js:161-165 | fails with the missing-name error exactly when the winner or the loser is absent or empty; otherwise it records the match |
| `Ledger.RecordSingleAt` | index.js:171-212 | recording a single match: both lookups, new ratings from the pre-match ratings and games, the match row with before/after ratings, and the two updates |
| `Ledger.SaveTeam` | index.js:240-244 | fails with the missing-name error exactly when any of the four names is absent or empty; otherwise it records the match |
| `Ledger.RecordTeamAt` | index.js:250-319 | recording a team match: four lookups, new ratings against the other team's rounded average, the match row, and the four updates |
| `Ledger.RegisteredGrow` | index.js:77-97 | adding players never unregisters a name used in a match |
| `Ledger.ResolveAllBalanced` | index.js:90-96 | new players start balanced: rating 1200, no games, no recorded changes |
| `Ledger.EntryOfParticipant` | index.js:121-136 | among distinct names, a participant's change in the new match row is its new rating minus its pre-match rating |
| `Ledger.EntryOfOutsider` | index.js:126 | a player not in the match gets no entry from it |
| `Ledger.EntryOfSomeone` | index.js:126 | every participant gets exactly one entry from the new match |
| `Ledger.ParticipantUpdated` | index.js:211-212 | among distinct names, every participant ends with its new rating and one more game |
| `Ledger.OutsiderUnchanged` | index.js:211-212 | a player outside the match keeps its row unchanged |
| `Ledger.ParticipantsKnown` | index.js:171-172 | after a save every participant has a player row, no row is lost, and names stay unique |
| `Ledger.ParticipantBalanced` | index.js:196-212 | among distinct names, a participant stays balanced: its new rating is its old balance plus the one new change, and it has one more match and one more game |
| `Ledger.OutsiderBalanced` | index.js:196-212 | a player outside the match keeps its row and gains no entry, so it stays balanced |
| `Ledger.BalancedAfter` | index.js:196-212 | among distinct names, every player still satisfies the ledger invariant after the match row is added |
| `Ledger.UnbalancedAfter` | index.js:196-212 | when two slots hold the same name, the ledger invariant breaks |
| `Ledger.AllBalancedAfter` | index.js:196-212 | with pairwise distinct names, every player satisfies the ledger invariant after the save |
| `Ledger.RepeatUnbalanced` | index.js:196-212 | when some name fills two slots, some player breaks the ledger invariant after the save |
| `Ledger.AddMatchBalance` | index.js:161-212 | a save keeps the ledger invariant exactly when its names are pairwise distinct |
| `LedgerProps.RecordSingleSnapshot` | index.js:171-212 | the single match row carries the pre-match ratings and the new ratings computed from them; the players table gets both updates |
| `LedgerProps.RecordTeamSnapshot` | index.js:250-319 | the team match row carries the four pre-match ratings and the new ratings computed against the team averages |
| `LedgerProps.RegisteredInsert` | index.js:196-208 | a match whose names all have player rows keeps every match name registered |
| `LedgerProps.AddMatchValid` | index.js:161-355 | a save keeps player names unique and every match name registered |
| `LedgerProps.SingleAsMatch` | index.js:196-212 | a single save is the generic save step: the players table is the participants' update, and the matches are the old single rows, the new row, then the team rows |
| `LedgerProps.TeamAsMatch` | index.js:297-319 | a team save is the generic save step: the players table is the participants' update, and the matches are the single rows, the old team rows, then the new row |
| `LedgerProps.SingleConservation` | index.js:161-236 | `/saveSingle` keeps the tables well formed; it keeps the ledger invariant exactly when winner and loser differ case-insensitively |
| `LedgerProps.TeamConservation` | index.js:240-355 | `/saveTeam` keeps the tables well formed; it keeps the ledger invariant exactly when the four names differ case-insensitively |
| `LedgerProps.MatchEffect` | index.js:211-212 | every participant carries its new rating and one more game, and no other player changes |
| `LedgerProps.SingleEffect` | index.js:175-212 | the same for a single match between two different players |
| `LedgerProps.TeamEffect` | index.js:264-319 | the same for a team match between four different players |
| `LedgerProps.SelfMatch` | index.js:171-212 | a player named as both winner and loser has exactly one row (names stay unique and the name is known); that row ends with the loser's new rating and two more games |
| `LedgerProps.SubmitConservation` | index.js:161-355 | any save request keeps the tables well formed, and keeps the ledger invariant exactly when its names are distinct |
| `LedgerProps.ReplayConsistent` | index.js:161-355 | starting from empty tables, any sequence of save requests with distinct names leaves every player at 1200 plus its recorded changes, and its games played equal to its recorded matches |
| `Service.Tracker.GetOrCreatePlayer` | index.js:77-97 | the players table becomes the lookup's table; the returned player is the row at the returned id; the match tables are untouched; a well-formed state stays well formed |
| `Service.Tracker.GetOrCreateTeam` | index.js:250-253 | the four lookups in order; four ids and rows as the combined lookup gives them; a well-formed state stays well formed |
| `Service.Tracker.UpdatePlayerRating` | index.js:102-107 | the players table becomes the updated table; the match tables are untouched; a well-formed state stays well formed |
| `Service.Tracker.SaveSingle` | index.js:161-236 | fails exactly when a name is missing, and then changes nothing; otherwise the new state is the recorded match and the ratings returned are the new ones; well-formedness is kept, and so is the ledger invariant when the names are distinct |
| `Service.Tracker.SaveTeam` | index.js:240-355 | the same for team saves |
| `Service.Tracker.Leaderboard` | index.js:392-524 | returns exactly the `/stats` response of the current tables |
| `Stats.Dedup` | index.js:398 | `GROUP BY` keeps each key once and keeps all keys |
| `Stats.GroupSum` | index.js:410-419 | grouped rows have distinct keys, and a key is grouped exactly when it occurs in the input |
| `Stats.GroupSumTotal` | index.js:410-419 | a grouped key's `SUM` is the total of its input rows |
| `Stats.GroupCountTotal` | index.js:396-398 | a key's `COUNT(*)` is the number of times the name occurs in the column |
| `Stats.TeamCountTotal` | index.js:409-420 | a player's team wins (or losses) are the attack-position count plus the defense-position count |
| `Stats.TeamCountKeys` | index.js:409-420 | a name has a team row exactly when it occurs in either position |
| `Stats.BumpAwaits` | index.js:445-482 | a pass writes only its own counter and total; it leaves later passes' fields and the join's fields empty |
| `Stats.AddRow` | index.js:446-451 | one `forEach` step creates the zeroed entry if the name is new, sets the column and adds to the total; a new name is appended to the key order |
| `Stats.AddColumn` | index.js:445-452 | after a pass, the names with an entry are the old ones plus the query's names; each entry's column holds its query count and the total grows by it; insertion order is extended, never reordered |
| `Stats.FoldQueries` | index.js:442-482 | after the four passes, each name occurring in a match has one entry holding its counts taken straight from the tables, with no rating yet |
| `Stats.QueryCounts` | index.js:395-434 | each query's count for a name is the number of its occurrences in the relevant columns |
| `Stats.FoldKeys` | index.js:442-482 | a name has an entry exactly when it occurs in some match |
| `Stats.BumpChain` | index.js:445-482 | the four passes give totals that are single plus team counts |
| `Stats.FoldAt` | index.js:442-482 | a name's entry after the fold is its reference count |
| `Stats.JoinRatings` | index.js:485-496 | no entry is added or removed; each entry takes the rating and games of the last player row with its name, and stays untouched when there is none |
| `Stats.DisplayKey` | index.js:501 | every grouped key is lower-case, so capitalising it and lower-casing again gives the key back |
| `Stats.SortedStandings` | index.js:499-506 | the sorted standings list each name once, and each standing is the reference standing of its name |
| `Stats.WithHistories` | index.js:509-517 | one response row per standing |
| `Stats.WithHistoriesAt` | index.js:509-517 | each response row is its standing with the history of its display name |
| `Stats.AttachHistories` | index.js:509-517 | the rows are the standings with their histories, in order |
| `Stats.HistoriesReport` | index.js:498-519 | sorted standings with their histories form the `/stats` response |
| `Stats.Leaderboard` | index.js:392-524 | the response is sorted by rating, highest first; it has exactly one row per name occurring in some match, compared case-insensitively; each row holds that name's counts, rating and history |
| `StatsProps.LastWithSpec` | index.js:490-496 | the join finds no row exactly when no player has the name; a row it finds has the name |
| `StatsProps.LastWithUnique` | index.js:490-496 | with unique names the join finds the player's own row |
| `StatsProps.AppearsKnown` | index.js:171-172 | every name occurring in a well-formed database's matches has a player row |
| `StatsProps.RowCounters` | index.js:445-482 | a row's single wins, single losses, team wins and team losses are the occurrence counts in the columns; the totals are their sums |
| `StatsProps.RowRatingOfPlayer` | index.js:485-503 | in a well-formed database, each row's rating and games played are those of the player row with its name |
| `StatsProps.RowRatingDefault` | index.js:502-503 | a listed name without a player row gets rating 1200 and 0 games |
| `StatsProps.RowHistory` | index.js:509-517 | a row's history is its player's rating history, at most five changes |
| `StatsProps.RowTotals` | index.js:445-482 | a row's total wins (or losses) are the occurrences of its name among all win (or loss) slots |
| `StatsProps.RowNamesDistinct` | index.js:442-499 | no name is listed twice |
| `StatsProps.RowNamesCover` | index.js:442-499 | every name in a win or loss slot is listed |
| `StatsProps.TotalsAddUp` | index.js:395-482 | summed over the response, total wins and total losses each equal the number of single matches plus twice the number of team matches |

## Left out

- Database and HTTP I/O: the connection pool, `migrate.js`, Express routing, JSON bodies, status codes and the `try`/`catch` that returns status 500. The tables are values (`Tables.Db`), or fields of `Service.Tracker`, and a failed query is not modelled. `migrate.js` is not part of this model.
- `Promise.all` and the concurrency of `async` handlers. Handlers run one at a time, as a sequence of saves (`LedgerProps.Replay`).
- `calculateExpectedScore` (`Math.pow` over floating point) is a parameter `es`. The model knows only that it lies strictly between 0 and 1. Rating arithmetic is exact over the reals, not IEEE doubles.
- `new Date().toISOString()` is an integer `date` parameter.
- Record ids, `updated_at`, and the SERIAL player id: a player's id is its position in the players table.
- Case folding covers ASCII only: `toLowerCase`, `LOWER` and `toUpperCase` on other scripts are not modelled.
- The order of rows with equal keys in `GROUP BY`, `ORDER BY date DESC` and SQL's `UNION ALL` is not specified by SQL. The model fixes one order: singles before teams, first occurrence first, and a stable sort.
- The order of rows returned by a `SELECT` without `ORDER BY` is not specified by SQL either. The player lookup takes `rows[0]` (index.js:81-87), and the model takes the first matching row in table order (`Tables.FindLower`). The ratings join lets the last row win (index.js:485-496), and the model takes the last matching row in table order (`Stats.LastWith`). With unique names, both pick the only row (`Tables.PreOfUnique`, `StatsProps.LastWithUnique`).
- Rating columns are never NULL in the model: `Tables.Slot` holds integer ratings. So the `WHERE rating_change IS NOT NULL` filter (index.js:141) removes only rows where no slot has the name. A NULL rating in the first matching slot, which yields NULL without falling through to the next slot, is not modelled. The handlers never write NULL ratings.
- `Object.entries` lists integer-like keys first, in numeric order, and a key such as `"constructor"` would find an inherited property. The model keeps plain insertion order and an empty dictionary.
- `parseInt` of the counts and the `||` defaults on a rating or games count of 0 that then gets overridden: the model reads counts as naturals and applies the `...stats` override directly.
- `GET /players` (a display list of distinct names) and `GET /` (static files) are outside the rating ledger.
- `History.RatingHistory`: its own contract states only the bound of five changes; what the changes are is stated by `History.NewestSpec`, `History.Deltas` and `History.FirstDeltaSpec`.
- `Service.Tracker.GetOrCreateTeam`, `Stats.AddRow`, `Stats.FoldQueries` and `Stats.AttachHistories` are statement groups of the two handlers split out into methods. `Stats.AddColumn` is one `forEach`, used four times.

## Notes

- The comment at index.js:502 calls 1200 the default rating for a player that is not found. Because the `...stats` spread comes after it, a joined rating always wins and the default applies only to names that have no player row. `Stats.Present` models the code and `StatsProps.RowRatingDefault` states the result.
- The source does not reject a match that names the same player twice. `LedgerProps.SelfMatch` states what then happens: the loser's update wins and games played grows by two. `Ledger.UnbalancedAfter` shows that the ledger invariant then no longer holds. When the names are distinct the invariant is kept (`Ledger.AddMatchBalance`).
