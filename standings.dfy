/**
 * The league table of modules/match_point/services.py (`LeagueTable`):
 * the teams sorted by points and then goal difference, highest first, with
 * teams level on both keeping the order they were given in (Python's
 * `sorted(..., reverse=True)` is stable), and one printed row per team.
 *
 * Printing is left out; the table is the sequence of rows that would be
 * printed, in order.
 */
module Standings {
  import opened Common
  import opened Entities

  /** A team as the table sees it: its name and its statistics. */
  datatype Standing = Standing(name: string, stats: TeamStats)

  /** The sort key `(points, goal difference)`. */
  function Key(e: Standing): (int, int)
  {
    (e.stats.points, GoalDifference(e.stats))
  }

  /** Tuple comparison `a >= b` on the sort key. */
  predicate KeyAtLeast(a: (int, int), b: (int, int))
  {
    a.0 > b.0 || (a.0 == b.0 && a.1 >= b.1)
  }

  /** Every entry ranks at least as high as every later one. */
  predicate Ranked(s: seq<Standing>)
  {
    forall i, j :: 0 <= i < j < |s| ==> KeyAtLeast(Key(s[i]), Key(s[j]))
  }

  /** An entry ranking at least as high as every entry of a ranked sequence can go in front. */
  lemma RankedCons(x: Standing, t: seq<Standing>)
    requires Ranked(t)
    requires forall j :: 0 <= j < |t| ==> KeyAtLeast(Key(x), Key(t[j]))
    ensures Ranked([x] + t)
  {
    forall i, j | 0 <= i < j < |t| + 1 ensures KeyAtLeast(Key(([x] + t)[i]), Key(([x] + t)[j])) {
      assert ([x] + t)[j] == t[j - 1];
      if i > 0 {
        assert ([x] + t)[i] == t[i - 1];
      }
    }
  }

  /**
   * When the head of a ranked `t` ranks strictly above `x`, it stays in
   * front of `x` inserted into the rest.
   */
  lemma HeadStaysInFront(x: Standing, t: seq<Standing>, rest: seq<Standing>)
    requires t != [] && Ranked(t) && !KeyAtLeast(Key(x), Key(t[0]))
    requires Ranked(rest) && multiset(rest) == multiset(t[1..]) + multiset{x}
    ensures Ranked([t[0]] + rest)
  {
    forall j | 0 <= j < |rest| ensures KeyAtLeast(Key(t[0]), Key(rest[j])) {
      assert rest[j] in multiset(rest);
      if rest[j] != x {
        assert rest[j] in multiset(t[1..]);
        var k :| 0 <= k < |t[1..]| && t[1..][k] == rest[j];
        assert t[k + 1] == rest[j];
      }
    }
    RankedCons(t[0], rest);
  }

  /**
   * Put `x`, which came before every entry of `t` in the input, in front of
   * the first entry it ranks at least as high as.
   */
  function InsertRanked(x: Standing, t: seq<Standing>): (r: seq<Standing>)
    ensures |r| == |t| + 1
    ensures multiset(r) == multiset(t) + multiset{x}
  {
    if t == [] || KeyAtLeast(Key(x), Key(t[0])) then [x] + t
    else
      assert t == [t[0]] + t[1..];
      [t[0]] + InsertRanked(x, t[1..])
  }

  /** Inserting into a ranked sequence keeps it ranked. */
  lemma {:induction false} InsertRankedKeepsRanked(x: Standing, t: seq<Standing>)
    requires Ranked(t)
    ensures Ranked(InsertRanked(x, t))
    decreases |t|
  {
    if t == [] || KeyAtLeast(Key(x), Key(t[0])) {
      RankedCons(x, t);
    } else {
      var rest := InsertRanked(x, t[1..]);
      InsertRankedKeepsRanked(x, t[1..]);
      HeadStaysInFront(x, t, rest);
    }
  }

  /** `sorted(entries, key=(points, goal difference), reverse=True)`. */
  function SortByRank(s: seq<Standing>): (r: seq<Standing>)
    ensures |r| == |s|
    ensures Ranked(r)
    ensures multiset(r) == multiset(s)
  {
    if s == [] then []
    else
      assert s == [s[0]] + s[1..];
      var sorted := SortByRank(s[1..]);
      InsertRankedKeepsRanked(s[0], sorted);
      InsertRanked(s[0], sorted)
  }

  /** The entries with key `k`, in their order. */
  function WithKey(s: seq<Standing>, k: (int, int)): seq<Standing>
  {
    if s == [] then []
    else (if Key(s[0]) == k then [s[0]] else []) + WithKey(s[1..], k)
  }

  /** Filtering a sequence with a head looks at the head first. */
  lemma WithKeyCons(y: Standing, s: seq<Standing>, k: (int, int))
    ensures WithKey([y] + s, k) == (if Key(y) == k then [y] else []) + WithKey(s, k)
  {
    assert ([y] + s)[0] == y && ([y] + s)[1..] == s;
  }

  /** An entry whose key differs from `x`'s can go in front on both sides. */
  lemma WithKeyStep(h: Standing, x: Standing, tail: seq<Standing>, rest: seq<Standing>, k: (int, int))
    requires Key(h) != Key(x)
    requires WithKey(rest, k) == (if Key(x) == k then [x] else []) + WithKey(tail, k)
    ensures WithKey([h] + rest, k) == (if Key(x) == k then [x] else []) + WithKey([h] + tail, k)
  {
    WithKeyCons(h, rest, k);
    WithKeyCons(h, tail, k);
  }

  /** Inserting `x` adds it in front of the entries sharing its key. */
  lemma {:induction false} WithKeyInsert(x: Standing, t: seq<Standing>, k: (int, int))
    ensures WithKey(InsertRanked(x, t), k) == (if Key(x) == k then [x] else []) + WithKey(t, k)
    decreases |t|
  {
    if t == [] || KeyAtLeast(Key(x), Key(t[0])) {
      WithKeyCons(x, t, k);
    } else {
      var rest := InsertRanked(x, t[1..]);
      WithKeyInsert(x, t[1..], k);
      // t[0] ranks strictly above x, so it never shares x's key
      WithKeyStep(t[0], x, t[1..], rest, k);
      assert t == [t[0]] + t[1..];
    }
  }

  /**
   * The sort is stable: for every key, the entries with that key come out
   * in the order they went in.
   */
  lemma {:induction false} SortIsStable(s: seq<Standing>, k: (int, int))
    ensures WithKey(SortByRank(s), k) == WithKey(s, k)
    decreases |s|
  {
    if s != [] {
      SortIsStable(s[1..], k);
      WithKeyInsert(s[0], SortByRank(s[1..]), k);
    }
  }

  // ---------------------------------------------------------------------
  // The printed rows

  /** One printed line: position, name cut to 19 characters, O G B M AV PUAN. */
  datatype Row = Row(
    position: nat, name: string,
    played: int, won: int, drawn: int, lost: int,
    goalDifference: int, points: int)

  /** The row printed for the entry at 1-based `position`; played is `w + d + l`. */
  function RowOf(position: nat, e: Standing): (r: Row)
    ensures r.position == position
    ensures |r.name| == (if |e.name| <= 19 then |e.name| else 19) && r.name == e.name[..|r.name|]
    ensures r.played == r.won + r.drawn + r.lost
    ensures r.won == e.stats.won && r.drawn == e.stats.drawn && r.lost == e.stats.lost
    ensures r.points == e.stats.points && r.goalDifference == GoalDifference(e.stats)
    ensures Consistent(e.stats) ==> r.played == e.stats.played
  {
    Row(position, Take(e.name, 19),
        e.stats.won + e.stats.drawn + e.stats.lost,
        e.stats.won, e.stats.drawn, e.stats.lost,
        GoalDifference(e.stats), e.stats.points)
  }

  /** The rows for ranked entries, numbered from 1. */
  function RowsOf(sorted: seq<Standing>): (rows: seq<Row>)
    ensures |rows| == |sorted|
    ensures forall i :: 0 <= i < |rows| ==> rows[i] == RowOf(i + 1, sorted[i])
  {
    seq(|sorted|, i requires 0 <= i < |sorted| => RowOf(i + 1, sorted[i]))
  }

  /**
   * The teams in table order: ranked, each team exactly once, and teams
   * level on points and goal difference in their given order.
   */
  function Ranking(teams: seq<Team>): (r: seq<Standing>)
    reads teams
    ensures |r| == |teams| && Ranked(r)
    ensures multiset(r) == multiset(Snapshot(teams))
  {
    SortByRank(Snapshot(teams))
  }

  /** Teams level on both keys keep the order of the list they came in. */
  lemma RankingIsStable(teams: seq<Team>, k: (int, int))
    ensures WithKey(Ranking(teams), k) == WithKey(Snapshot(teams), k)
  {
    SortIsStable(Snapshot(teams), k);
  }

  /** What `LeagueTable.print_table(teams)` prints, as rows. */
  function Table(teams: seq<Team>): (rows: seq<Row>)
    reads teams
    ensures |rows| == |teams|
    ensures forall i :: 0 <= i < |rows| ==> rows[i] == RowOf(i + 1, Ranking(teams)[i])
    // highest points first, then highest goal difference
    ensures forall i, j :: 0 <= i < j < |rows| ==>
      rows[i].points > rows[j].points ||
      (rows[i].points == rows[j].points && rows[i].goalDifference >= rows[j].goalDifference)
  {
    var sorted := Ranking(teams);
    var rows := RowsOf(sorted);
    assert forall i :: 0 <= i < |rows| ==>
      rows[i].points == Key(sorted[i]).0 && rows[i].goalDifference == Key(sorted[i]).1;
    rows
  }

  /** The name and statistics of each team, in list order. */
  function Snapshot(teams: seq<Team>): (r: seq<Standing>)
    reads teams
    ensures |r| == |teams|
    ensures forall i :: 0 <= i < |teams| ==> r[i] == Standing(teams[i].name, teams[i].stats)
  {
    seq(|teams|, i requires 0 <= i < |teams| reads teams => Standing(teams[i].name, teams[i].stats))
  }
}
