/**
 * Per-player ledger entries and `getLastFiveRatingChanges`: for every match a
 * player took part in, the date and the `after - before` of the first slot (in column
 * order) carrying the player's name; newest first, at most five.
 */
module History {
  import opened Wrappers
  import opened Text
  import opened Tables
  import opened Sorting

  /** One row of the inner query: a match date and the player's rating change in it. */
  datatype Entry = Entry(date: int, delta: int)

  function DateOf(e: Entry): int {
    e.date
  }

  /** The number of rows `getLastFiveRatingChanges` returns at most. */
  const HistoryLength := 5

  /** The SQL `CASE`: the change of the first slot whose lower-cased name is `key`. */
  function FirstDelta(slots: seq<Slot>, key: string): Option<int> {
    if slots == [] then None
    else if Lower(slots[0].name) == key then Some(slots[0].after - slots[0].before)
    else FirstDelta(slots[1..], key)
  }

  /** `FirstDelta` is absent exactly when no slot has the name, and otherwise is the first such slot's change. */
  lemma {:induction false} FirstDeltaSpec(slots: seq<Slot>, key: string)
    ensures FirstDelta(slots, key).None? <==> forall k :: 0 <= k < |slots| ==> Lower(slots[k].name) != key
    ensures FirstDelta(slots, key).Some? ==>
              exists k :: 0 <= k < |slots| && FirstSlotOf(slots, key, k) &&
                          FirstDelta(slots, key).value == slots[k].after - slots[k].before
    decreases |slots|
  {
    if slots != [] && Lower(slots[0].name) != key {
      FirstDeltaSpec(slots[1..], key);
      assert forall k :: 1 <= k < |slots| ==> slots[k] == slots[1..][k - 1];
      var r := FirstDelta(slots[1..], key);
      if r.Some? {
        var k :| 0 <= k < |slots[1..]| && FirstSlotOf(slots[1..], key, k) &&
                 r.value == slots[1..][k].after - slots[1..][k].before;
        assert FirstSlotOf(slots, key, k + 1);
      }
    } else if slots != [] {
      assert FirstSlotOf(slots, key, 0);
    }
  }

  /** Slot `k` is the first one whose lower-cased name is `key`. */
  predicate FirstSlotOf(slots: seq<Slot>, key: string, k: int) {
    0 <= k < |slots| && Lower(slots[k].name) == key &&
    forall j :: 0 <= j < k ==> Lower(slots[j].name) != key
  }

  /** The entry one match contributes for `key`, if the player took part in it. */
  function EntryOf(m: Match, key: string): seq<Entry> {
    match FirstDelta(m.slots, key)
    case Some(d) => [Entry(m.date, d)]
    case None => []
  }

  /** The inner query over a sequence of matches. */
  function MatchEntries(key: string, ms: seq<Match>): (es: seq<Entry>)
    ensures |es| <= |ms|
  {
    if ms == [] then [] else MatchEntries(key, ms[..|ms| - 1]) + EntryOf(ms[|ms| - 1], key)
  }

  /** The inner `UNION ALL` query for lower-cased name `key`. */
  function Entries(key: string, db: Db): seq<Entry> {
    MatchEntries(key, AllMatches(db))
  }

  function SumDeltas(es: seq<Entry>): int {
    if es == [] then 0 else SumDeltas(es[..|es| - 1]) + es[|es| - 1].delta
  }

  lemma {:induction false} MatchEntriesAppend(key: string, a: seq<Match>, b: seq<Match>)
    ensures MatchEntries(key, a + b) == MatchEntries(key, a) + MatchEntries(key, b)
    decreases |b|
  {
    if b == [] {
      assert a + b == a;
    } else {
      var b' := b[..|b| - 1];
      assert (a + b)[..|a + b| - 1] == a + b';
      assert (a + b)[|a + b| - 1] == b[|b| - 1];
      MatchEntriesAppend(key, a, b');
      assert MatchEntries(key, a + b) == MatchEntries(key, a + b') + EntryOf(b[|b| - 1], key);
    }
  }

  lemma {:induction false} SumDeltasAppend(x: seq<Entry>, y: seq<Entry>)
    ensures SumDeltas(x + y) == SumDeltas(x) + SumDeltas(y)
    decreases |y|
  {
    if y == [] {
      assert x + y == x;
    } else {
      var y' := y[..|y| - 1];
      assert (x + y)[..|x + y| - 1] == x + y';
      assert (x + y)[|x + y| - 1] == y[|y| - 1];
      SumDeltasAppend(x, y');
    }
  }

  /** A name no player carries appears in no registered match. */
  lemma {:induction false} UnknownHasNoEntries(ps: seq<Player>, ms: seq<Match>, key: string)
    requires Registered(ps, ms) && !Known(ps, key)
    ensures MatchEntries(key, ms) == []
    decreases |ms|
  {
    if ms != [] {
      var init := ms[..|ms| - 1];
      assert Registered(ps, init) by {
        forall i, k | 0 <= i < |init| && 0 <= k < |init[i].slots|
          ensures Known(ps, Lower(init[i].slots[k].name))
        {
          assert init[i] == ms[i];
        }
      }
      UnknownHasNoEntries(ps, init, key);
      var last := ms[|ms| - 1];
      forall k | 0 <= k < |last.slots| ensures Lower(last.slots[k].name) != key {
        assert Known(ps, Lower(ms[|ms| - 1].slots[k].name));
      }
      FirstDeltaSpec(last.slots, key);
    }
  }

  /** The first `n` elements, or all of them when there are fewer (`LIMIT n`). */
  function Take<T>(s: seq<T>, n: nat): (r: seq<T>)
    ensures |r| == if |s| < n then |s| else n
    ensures r == s[..|r|]
  {
    if |s| < n then s else s[..n]
  }

  /** `ORDER BY date DESC LIMIT 5`: the first five entries once sorted newest first. */
  function Newest(entries: seq<Entry>): (kept: seq<Entry>)
    ensures |kept| == if |entries| < HistoryLength then |entries| else HistoryLength
  {
    var sorted := SortDesc(entries, DateOf);
    assert |multiset(sorted)| == |multiset(entries)|;
    Take(sorted, HistoryLength)
  }

  /** The kept entries are newest first, drawn from the input, and no entry left out is newer than one kept. */
  lemma NewestSpec(entries: seq<Entry>)
    ensures SortedDesc(Newest(entries), DateOf)
    ensures multiset(Newest(entries)) <= multiset(entries)
    ensures forall x, y :: x in multiset(entries) - multiset(Newest(entries)) && y in Newest(entries) ==> y.date >= x.date
  {
    var sorted := SortDesc(entries, DateOf);
    var kept := Newest(entries);
    assert kept == Take(sorted, HistoryLength) == sorted[..|kept|];
    assert multiset(sorted) == multiset(entries);
    PrefixIsTop(sorted, |kept|, DateOf);
  }

  /** The `rating_change` column of the rows. */
  function Deltas(es: seq<Entry>): (ds: seq<int>)
    ensures |ds| == |es| && forall i :: 0 <= i < |es| ==> ds[i] == es[i].delta
  {
    if es == [] then [] else Deltas(es[..|es| - 1]) + [es[|es| - 1].delta]
  }

  /** `getLastFiveRatingChanges(playerName)`: the changes of the newest five entries. */
  function RatingHistory(playerName: string, db: Db): (h: seq<int>)
    ensures |h| <= HistoryLength
  {
    Deltas(Newest(Entries(Lower(playerName), db)))
  }
}
