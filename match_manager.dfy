/**
 * The match registry: the `MatchManager` service of
 * modules/match_point/services.py, with the non-raising `create_match` of
 * the older `MatchManager` in modules/match_point/implementation.py.
 *
 * The match list is held in memory; `random.randint(10000, 99999)` for the
 * match id is a parameter, and the class-level match counter is the
 * `ObjectCounter` handed to the match constructor.
 */
module MatchService {
  import opened Common
  import opened Entities
  import opened Simulation
  import opened Matches

  /** The two match-system exceptions `create_match` raises. */
  datatype MatchError =
    | SameTeam(teamName: string)
    | MissingTeam
  {
    /** The error code each exception passes to `MatchSystemError`. */
    function Code(): (c: int)
      ensures c == (if SameTeam? then 101 else 102)
    {
      match this
      case SameTeam(_) => 101
      case MissingTeam => 102
    }

    function Message(): string
    {
      match this
      case SameTeam(n) => "DİKKAT: '" + n + "' takımı kendi kendisiyle maç yapamaz!"
      case MissingTeam => "Lütfen iki farklı takım seçtiğinizden emin olun."
    }

    /** `str(e)`: "[Hata Kodu: code] -> message". */
    function Text(): string
    {
      "[Hata Kodu: " + IntText(Code()) + "] -> " + Message()
    }
  }

  /** The keyword arguments `create_match` reads; `None` means not given. */
  datatype MatchOptions = MatchOptions(
    location: Option<Stadium>,
    week: Option<int>,
    referee: Option<Referee>,
    roundName: Option<string>)

  /**
   * The kind of match a request builds: a friendly at the given location,
   * a league match (week 1 unless given) only when a referee is given, a
   * knockout tournament match (round "Eleme" unless given); nothing for any
   * other type name.
   */
  function RequestedKind(matchType: string, options: MatchOptions): (k: Option<Kind>)
    ensures k.Some? <==>
      matchType == "Friendly" || matchType == "Tournament" ||
      (matchType == "League" && options.referee.Some?)
    ensures k.Some? ==> KindName(k.value) == matchType
    ensures k.Some? && k.value.Friendly? ==> k.value.location == options.location
    ensures k.Some? && k.value.League? ==>
      k.value.referee == options.referee.value && k.value.weather == "Sunny" &&
      k.value.week == (if options.week.Some? then options.week.value else 1)
    ensures k.Some? && k.value.Tournament? ==>
      k.value.knockout &&
      k.value.roundName == (if options.roundName.Some? then options.roundName.value else "Eleme")
  {
    if matchType == "Friendly" then Some(Friendly(options.location))
    else if matchType == "League" then
      if options.referee.Some? then
        Some(League(if options.week.Some? then options.week.value else 1, options.referee.value, "Sunny"))
      else None
    else if matchType == "Tournament" then
      Some(Tournament(if options.roundName.Some? then options.roundName.value else "Eleme", true))
    else None
  }

  // ---------------------------------------------------------------------
  // Views of a match list

  /** `[m for m in ms if m.get_status() == status]`. */
  function WithStatus(ms: seq<Match>, status: string): (r: seq<Match>)
    reads ms
    ensures forall i :: 0 <= i < |r| ==> r[i] in ms && r[i].status == status
    ensures forall i :: 0 <= i < |ms| && ms[i].status == status ==> ms[i] in r
  {
    if ms == [] then []
    else
      var last := ms[|ms| - 1];
      var kept := WithStatus(ms[..|ms| - 1], status);
      assert ms == ms[..|ms| - 1] + [last];
      if last.status == status then kept + [last] else kept
  }

  /** The selected matches keep the list's order. */
  lemma {:induction false} WithStatusInOrder(ms: seq<Match>, status: string)
    ensures SubseqOf(WithStatus(ms, status), ms)
  {
    if ms != [] {
      var init, last := ms[..|ms| - 1], ms[|ms| - 1];
      assert ms == init + [last];
      WithStatusInOrder(init, status);
      SubseqOfSnoc(WithStatus(init, status), init, last);
    }
  }

  /** The match involves a team whose lower-cased name contains `key`. */
  predicate Involves(m: Match, key: string)
    reads m, m.home, m.away
  {
    Contains(Lower(m.home.name), key) || Contains(Lower(m.away.name), key)
  }

  /** The matches that `get_matches_of_team` collects for a lower-cased name. */
  function OfTeam(ms: seq<Match>, key: string): (r: seq<Match>)
    reads ms, set m | m in ms :: m.home, set m | m in ms :: m.away
    ensures forall i :: 0 <= i < |r| ==> r[i] in ms && Involves(r[i], key)
    ensures forall i :: 0 <= i < |ms| && Involves(ms[i], key) ==> ms[i] in r
  {
    if ms == [] then []
    else
      var last := ms[|ms| - 1];
      var kept := OfTeam(ms[..|ms| - 1], key);
      assert ms == ms[..|ms| - 1] + [last];
      if Involves(last, key) then kept + [last] else kept
  }

  /** Taking one more match of the list extends the collection by that match when it involves the key. */
  lemma OfTeamSnoc(ms: seq<Match>, i: nat, key: string)
    requires i < |ms|
    ensures OfTeam(ms[..i + 1], key) == OfTeam(ms[..i], key) + (if Involves(ms[i], key) then [ms[i]] else [])
  {
    assert ms[..i + 1][..i] == ms[..i];
  }

  /** The collected matches keep the list's order. */
  lemma {:induction false} OfTeamInOrder(ms: seq<Match>, key: string)
    ensures SubseqOf(OfTeam(ms, key), ms)
  {
    if ms != [] {
      var init, last := ms[..|ms| - 1], ms[|ms| - 1];
      assert ms == init + [last];
      OfTeamInOrder(init, key);
      SubseqOfSnoc(OfTeam(init, key), init, last);
    }
  }

  /** The statuses of the matches, in list order. */
  function Statuses(ms: seq<Match>): (r: seq<string>)
    reads ms
    ensures |r| == |ms| && forall i :: 0 <= i < |ms| ==> r[i] == ms[i].status
  {
    if ms == [] then [] else Statuses(ms[..|ms| - 1]) + [ms[|ms| - 1].status]
  }

  /** How many of the first `k` entries equal `s`. */
  function CountOf(ss: seq<string>, k: nat, s: string): (n: nat)
    requires k <= |ss|
    ensures n <= k
  {
    if k == 0 then 0
    else CountOf(ss, k - 1, s) + (if ss[k - 1] == s then 1 else 0)
  }

  /** Counting the first `k` entries only looks at those entries. */
  lemma {:induction false} CountOfPrefix(a: seq<string>, b: seq<string>, k: nat, s: string)
    requires k <= |a| && k <= |b| && a[..k] == b[..k]
    ensures CountOf(a, k, s) == CountOf(b, k, s)
  {
    if k > 0 {
      assert a[k - 1] == a[..k][k - 1] == b[..k][k - 1] == b[k - 1];
      assert a[..k - 1] == a[..k][..k - 1] && b[..k - 1] == b[..k][..k - 1];
      CountOfPrefix(a, b, k - 1, s);
    }
  }

  /**
   * The number `simulate_all_scheduled` counts is the number of matches
   * `get_matches_by_status("Scheduled")` would have returned beforehand.
   */
  lemma {:induction false} CountIsFilterLength(ms: seq<Match>, s: string)
    ensures CountOf(Statuses(ms), |ms|, s) == |WithStatus(ms, s)|
    decreases |ms|
  {
    if ms != [] {
      var init := ms[..|ms| - 1];
      CountIsFilterLength(init, s);
      assert Statuses(ms)[..|init|] == Statuses(init)[..|init|];
      CountOfPrefix(Statuses(ms), Statuses(init), |init|, s);
    }
  }

  // ---------------------------------------------------------------------
  // What `simulate_all_scheduled` does to the matches, teams and referees

  /** What the bulk simulation reads and changes of one match, as it stands beforehand. */
  datatype Entry = Entry(
    kind: Kind, home: Team, away: Team,
    status: string, score: string, extraTime: bool, penalties: bool,
    homeStats: TeamStats, awayStats: TeamStats,
    /** the league referee's match count; 0 for other kinds */
    officiated: int)

  function EntryOf(m: Match): (e: Entry)
    reads m, m.home, m.away, m.Officials()
    ensures e.kind == m.kind && e.home == m.home && e.away == m.away
    ensures e.status == m.status && e.score == m.score
    ensures e.extraTime == m.extraTimePlayed && e.penalties == m.penaltiesPlayed
    ensures e.homeStats == m.home.stats && e.awayStats == m.away.stats
    ensures m.kind.League? ==> e.officiated == m.kind.referee.matchesOfficiated
  {
    Entry(m.kind, m.home, m.away, m.status, m.score, m.extraTimePlayed, m.penaltiesPlayed,
          m.home.stats, m.away.stats,
          if m.kind.League? then m.kind.referee.matchesOfficiated else 0)
  }

  /** The league referees of a match list. */
  function RefereesOf(ms: seq<Match>): set<Referee>
  {
    set m | m in ms && m.kind.League? :: m.kind.referee
  }

  /** The entries of the matches, in list order. */
  function Snapshot(ms: seq<Match>): (r: seq<Entry>)
    reads ms, set m | m in ms :: m.home, set m | m in ms :: m.away, RefereesOf(ms)
    ensures |r| == |ms| && forall i :: 0 <= i < |ms| ==> r[i] == EntryOf(ms[i])
  {
    if ms == [] then [] else Snapshot(ms[..|ms| - 1]) + [EntryOf(ms[|ms| - 1])]
  }

  /** Every entry's draws fit its kind. */
  predicate AllFit(snap: seq<Entry>, draws: seq<Draws>)
  {
    |snap| == |draws| && forall i :: 0 <= i < |snap| ==> Fits(snap[i].kind, draws[i])
  }
  /**
   * The statistics team `t` holds after one match of the sweep, standing
   * as entry `e` and played on draws `d` if it was Scheduled: (h, a) is
   * recorded for its home side, then (a, h) for its away side.
   */
  function StatsAfter(t: Team, s: TeamStats, e: Entry, d: Draws): TeamStats
    requires Fits(e.kind, d)
  {
    if e.status != Scheduled then s
    else
      var o := Resolve(e.kind, d);
      var s' := if e.home == t then Tally(s, o.home, o.away) else s;
      if e.away == t then Tally(s', o.away, o.home) else s'
  }

  /** The statistics team `t`, starting at `s`, holds after the first `n` matches of a sweep. */
  function SweptStats(t: Team, s: TeamStats, snap: seq<Entry>, draws: seq<Draws>, n: nat): TeamStats
    requires AllFit(snap, draws) && n <= |snap|
  {
    if n == 0 then s
    else StatsAfter(t, SweptStats(t, s, snap, draws, n - 1), snap[n - 1], draws[n - 1])
  }

  /**
   * The results team `t` records from one match: nothing unless the match
   * was Scheduled, else (h, a) as its home side, then (a, h) as its away
   * side.
   */
  function ResultsIn(t: Team, e: Entry, d: Draws): (r: seq<(int, int)>)
    requires Fits(e.kind, d)
    ensures |r| == (if e.status != Scheduled then 0
                    else (if e.home == t then 1 else 0) + (if e.away == t then 1 else 0))
  {
    if e.status != Scheduled then []
    else
      var o := Resolve(e.kind, d);
      (if e.home == t then [(o.home, o.away)] else []) +
      (if e.away == t then [(o.away, o.home)] else [])
  }

  /** The results team `t` records from the first `n` matches of a sweep, in list order. */
  function SweptResults(t: Team, snap: seq<Entry>, draws: seq<Draws>, n: nat): (r: seq<(int, int)>)
    requires AllFit(snap, draws) && n <= |snap|
    ensures |r| == Appearances(t, snap, n)
  {
    if n == 0 then []
    else SweptResults(t, snap, draws, n - 1) + ResultsIn(t, snap[n - 1], draws[n - 1])
  }

  /**
   * How often team `t` takes part in the Scheduled matches among the first
   * `n`: once per side it plays.
   */
  function Appearances(t: Team, snap: seq<Entry>, n: nat): nat
    requires n <= |snap|
  {
    if n == 0 then 0
    else
      var e := snap[n - 1];
      Appearances(t, snap, n - 1) +
      (if e.status != Scheduled then 0
       else (if e.home == t then 1 else 0) + (if e.away == t then 1 else 0))
  }

  /** One match changes a team's statistics by recording its results from that match. */
  lemma StatsAfterRecords(t: Team, s: TeamStats, e: Entry, d: Draws)
    requires Fits(e.kind, d)
    ensures StatsAfter(t, s, e, d) == TallyAll(s, ResultsIn(t, e, d))
  {
    if e.status == Scheduled {
      var o := Resolve(e.kind, d);
      var h, a := (o.home, o.away), (o.away, o.home);
      if e.home == t && e.away == t {
        assert ResultsIn(t, e, d) == [h] + [a];
        TallyAllAppend(s, [h], [a]);
      }
    }
  }

  /**
   * A sweep leaves each team with its statistics beforehand updated by
   * its results from the Scheduled matches, in list order.
   */
  lemma {:induction false} SweptStatsInOrder(t: Team, s: TeamStats, snap: seq<Entry>, draws: seq<Draws>, n: nat)
    requires AllFit(snap, draws) && n <= |snap|
    ensures SweptStats(t, s, snap, draws, n) == TallyAll(s, SweptResults(t, snap, draws, n))
  {
    if n > 0 {
      SweptStatsInOrder(t, s, snap, draws, n - 1);
      StatsAfterRecords(t, SweptStats(t, s, snap, draws, n - 1), snap[n - 1], draws[n - 1]);
      TallyAllAppend(s, SweptResults(t, snap, draws, n - 1), ResultsIn(t, snap[n - 1], draws[n - 1]));
    }
  }

  /**
   * After a sweep a team has played exactly one more match per
   * appearance in a Scheduled match, and keeps the standings invariant.
   */
  lemma SweptStatsCounts(t: Team, s: TeamStats, snap: seq<Entry>, draws: seq<Draws>, n: nat)
    requires AllFit(snap, draws) && n <= |snap|
    ensures SweptStats(t, s, snap, draws, n).played == s.played + Appearances(t, snap, n)
    ensures Consistent(s) ==> Consistent(SweptStats(t, s, snap, draws, n))
  {
    SweptStatsInOrder(t, s, snap, draws, n);
  }

  /** How many of the Scheduled matches among the first `n` are league matches refereed by `ref`. */
  function Officiated(ref: Referee, snap: seq<Entry>, n: nat): nat
    requires n <= |snap|
  {
    if n == 0 then 0
    else
      var e := snap[n - 1];
      Officiated(ref, snap, n - 1) +
      (if e.status == Scheduled && e.kind.League? && e.kind.referee == ref then 1 else 0)
  }

  /** The match still has the status, score and flags of entry `e`. */
  predicate Untouched(m: Match, e: Entry)
    reads m
  {
    m.status == e.status && m.score == e.score &&
    m.extraTimePlayed == e.extraTime && m.penaltiesPlayed == e.penalties
  }

  /**
   * The match, which stood as entry `e`, has been played on draws `d`: it
   * is Finished with the outcome's score and its flags follow the outcome.
   */
  predicate Concluded(m: Match, d: Draws, e: Entry)
    requires Fits(e.kind, d)
    reads m
  {
    var o := Resolve(e.kind, d);
    m.status == Finished && m.score == ScoreText(o.home, o.away) &&
    m.extraTimePlayed == (e.extraTime || o.extraTime) &&
    m.penaltiesPlayed == (e.penalties || o.penalties)
  }

  /** The match list still holds the matches, teams and kinds of its snapshot. */
  predicate Mirrors(ms: seq<Match>, snap: seq<Entry>)
    reads (set m | m in ms)`home, (set m | m in ms)`away
  {
    |ms| == |snap| &&
    forall i :: 0 <= i < |ms| ==>
      ms[i].kind == snap[i].kind && ms[i].home == snap[i].home && ms[i].away == snap[i].away
  }

  /**
   * Where the match of entry `e` stands in the sweep: once its step is
   * `done`, played if it was Scheduled; otherwise untouched.
   */
  predicate Stands(m: Match, d: Draws, e: Entry, done: bool)
    requires Fits(e.kind, d)
    reads m
  {
    if done && e.status == Scheduled then Concluded(m, d, e) else Untouched(m, e)
  }

  /** After `n` steps, the first `n` matches are played or untouched, and the rest untouched. */
  predicate MatchesSwept(ms: seq<Match>, snap: seq<Entry>, draws: seq<Draws>, n: nat)
    requires |ms| == |snap| && AllFit(snap, draws)
    reads ms
  {
    forall i :: 0 <= i < |ms| ==> Stands(ms[i], draws[i], snap[i], i < n)
  }

  /** The teams of the entries. */
  function TeamsOf(snap: seq<Entry>): set<Team>
  {
    (set e | e in snap :: e.home) + (set e | e in snap :: e.away)
  }

  /** After `n` steps, every team holds its statistics after the first `n` matches. */
  predicate TeamsSwept(snap: seq<Entry>, draws: seq<Draws>, n: nat)
    requires AllFit(snap, draws) && n <= |snap|
    reads TeamsOf(snap)
  {
    forall i :: 0 <= i < |snap| ==>
      snap[i].home.stats == SweptStats(snap[i].home, snap[i].homeStats, snap, draws, n) &&
      snap[i].away.stats == SweptStats(snap[i].away, snap[i].awayStats, snap, draws, n)
  }

  /** The league referees of the entries. */
  function RefereesIn(snap: seq<Entry>): set<Referee>
  {
    set e | e in snap && e.kind.League? :: e.kind.referee
  }

  /** After `n` steps, every league referee has counted the first `n` matches it officiates. */
  predicate RefereesSwept(snap: seq<Entry>, n: nat)
    requires n <= |snap|
    reads RefereesIn(snap)
  {
    forall i :: 0 <= i < |snap| && snap[i].kind.League? ==>
      snap[i].kind.referee.matchesOfficiated == snap[i].officiated + Officiated(snap[i].kind.referee, snap, n)
  }

  /**
   * After `n` steps of the sweep over `ms`, which stood as `snap`, the
   * matches, teams and referees stand as those steps leave them.
   */
  predicate Swept(ms: seq<Match>, snap: seq<Entry>, draws: seq<Draws>, n: nat)
    reads ms, TeamsOf(snap), RefereesIn(snap)
  {
    Mirrors(ms, snap) && AllFit(snap, draws) && n <= |ms| &&
    MatchesSwept(ms, snap, draws, n) && TeamsSwept(snap, draws, n) && RefereesSwept(snap, n)
  }

  /** Before the first step, every match, team and referee stands as the snapshot says. */
  lemma SweepStarts(ms: seq<Match>, snap: seq<Entry>, draws: seq<Draws>)
    requires |snap| == |ms| && forall i :: 0 <= i < |ms| ==> snap[i] == EntryOf(ms[i])
    requires |draws| == |ms|
    requires forall i :: 0 <= i < |ms| ==> Fits(ms[i].kind, draws[i])
    ensures Swept(ms, snap, draws, 0)
  {
  }

  /** Where a sweep over `ms`, which stood as `snap`, stands on `draws`: `n` steps done. */
  datatype Progress = Progress(ms: seq<Match>, snap: seq<Entry>, draws: seq<Draws>, n: nat)

  /**
   * One step of the sweep on match `n` brings the match list from `n`
   * steps to `n + 1`, when that match now stands played or untouched and
   * no other match changed.
   */
  twostate lemma MatchesStep(p: Progress)
    requires |p.ms| == |p.snap| && AllFit(p.snap, p.draws) && p.n < |p.ms| && Distinct(p.ms)
    requires old(MatchesSwept(p.ms, p.snap, p.draws, p.n))
    requires Stands(p.ms[p.n], p.draws[p.n], p.snap[p.n], true)
    requires forall m :: m in p.ms && m != p.ms[p.n] ==>
      m.status == old(m.status) && m.score == old(m.score) &&
      m.extraTimePlayed == old(m.extraTimePlayed) && m.penaltiesPlayed == old(m.penaltiesPlayed)
    ensures MatchesSwept(p.ms, p.snap, p.draws, p.n + 1)
  {
    var ms, n := p.ms, p.n;
    forall j | 0 <= j < |ms| && j != n
      ensures Stands(ms[j], p.draws[j], p.snap[j], j < n + 1)
    {
      assert ms[j] in ms && ms[j] != ms[n] by {
        if j < n { assert ms[j] != ms[n]; } else { assert ms[n] != ms[j]; }
      }
    }
  }

  /** The matches of a sweep keep their teams from one step to the next. */
  twostate lemma MirrorsStep(p: Progress)
    requires old(Mirrors(p.ms, p.snap))
    requires forall m :: m in p.ms ==> m.home == old(m.home) && m.away == old(m.away)
    ensures Mirrors(p.ms, p.snap)
  {
    forall j | 0 <= j < |p.ms|
      ensures p.ms[j].home == p.snap[j].home && p.ms[j].away == p.snap[j].away
    {
      assert p.ms[j] in p.ms;
    }
  }

  /**
   * One step of the sweep on entry `n` brings every team from its
   * statistics after `n` matches to those after `n + 1`, when the match's
   * own teams hold what it makes of their statistics and no other team
   * changed.
   */
  twostate lemma TeamsStep(p: Progress)
    requires AllFit(p.snap, p.draws) && p.n < |p.snap|
    requires old(TeamsSwept(p.snap, p.draws, p.n))
    requires var e := p.snap[p.n];
      e.home.stats == StatsAfter(e.home, old(e.home.stats), e, p.draws[p.n]) &&
      e.away.stats == StatsAfter(e.away, old(e.away.stats), e, p.draws[p.n])
    requires forall t :: t in TeamsOf(p.snap) && t != p.snap[p.n].home && t != p.snap[p.n].away ==>
      t.stats == old(t.stats)
    ensures TeamsSwept(p.snap, p.draws, p.n + 1)
  {
    var snap := p.snap;
    forall j | 0 <= j < |snap|
      ensures snap[j].home.stats == SweptStats(snap[j].home, snap[j].homeStats, snap, p.draws, p.n + 1)
      ensures snap[j].away.stats == SweptStats(snap[j].away, snap[j].awayStats, snap, p.draws, p.n + 1)
    {
      assert snap[j] in snap;
      assert snap[j].home in TeamsOf(snap) && snap[j].away in TeamsOf(snap);
    }
  }

  /**
   * One step of the sweep on entry `n` brings every league referee's
   * count from `n` matches to `n + 1`, when only that match's own
   * referee, if it was played, counted one more.
   */
  twostate lemma RefereesStep(p: Progress)
    requires p.n < |p.snap|
    requires old(RefereesSwept(p.snap, p.n))
    requires var e := p.snap[p.n];
      e.kind.League? ==>
        e.kind.referee.matchesOfficiated ==
          old(e.kind.referee.matchesOfficiated) + (if e.status == Scheduled then 1 else 0)
    requires forall r :: r in RefereesIn(p.snap) && !(p.snap[p.n].kind.League? && r == p.snap[p.n].kind.referee) ==>
      r.matchesOfficiated == old(r.matchesOfficiated)
    ensures RefereesSwept(p.snap, p.n + 1)
  {
    var snap := p.snap;
    forall j | 0 <= j < |snap| && snap[j].kind.League?
      ensures snap[j].kind.referee.matchesOfficiated ==
        snap[j].officiated + Officiated(snap[j].kind.referee, snap, p.n + 1)
    {
      assert snap[j] in snap;
      assert snap[j].kind.referee in RefereesIn(snap);
    }
  }

  /**
   * One step of the sweep on match `n`: when that match was played or left
   * alone as its entry says, its teams and its referee moved accordingly,
   * and nothing else changed, the sweep stands at `n + 1` steps.
   */
  twostate lemma Advance(p: Progress)
    requires Distinct(p.ms) && p.n < |p.ms|
    requires old(Swept(p.ms, p.snap, p.draws, p.n))
    requires forall x :: x in p.ms ==> x.home == old(x.home) && x.away == old(x.away)
    requires Stands(p.ms[p.n], p.draws[p.n], p.snap[p.n], true)
    requires forall x :: x in p.ms && x != p.ms[p.n] ==>
      x.status == old(x.status) && x.score == old(x.score) &&
      x.extraTimePlayed == old(x.extraTimePlayed) && x.penaltiesPlayed == old(x.penaltiesPlayed)
    requires var e := p.snap[p.n];
      e.home.stats == StatsAfter(e.home, old(e.home.stats), e, p.draws[p.n]) &&
      e.away.stats == StatsAfter(e.away, old(e.away.stats), e, p.draws[p.n])
    requires forall t :: t in TeamsOf(p.snap) && t != p.snap[p.n].home && t != p.snap[p.n].away ==>
      t.stats == old(t.stats)
    requires var e := p.snap[p.n];
      e.kind.League? ==>
        e.kind.referee.matchesOfficiated ==
          old(e.kind.referee.matchesOfficiated) + (if e.status == Scheduled then 1 else 0)
    requires forall r :: r in RefereesIn(p.snap) && !(p.snap[p.n].kind.League? && r == p.snap[p.n].kind.referee) ==>
      r.matchesOfficiated == old(r.matchesOfficiated)
    ensures Swept(p.ms, p.snap, p.draws, p.n + 1)
  {
    MirrorsStep(p);
    MatchesStep(p);
    TeamsStep(p);
    RefereesStep(p);
  }

  class MatchManager {
    var matches: seq<Match>

    /** Every match is registered once. */
    ghost predicate Valid()
      reads this
    {
      Distinct(matches)
    }

    constructor ()
      ensures Valid() && matches == []
    {
      matches := [];
    }

    /** Build a match of kind `kind` and register it at the end of the list. */
    method Schedule(counter: ObjectCounter, matchId: int, home: Team, away: Team,
                    dateTime: string, kind: Kind) returns (m: Match)
      requires Valid()
      modifies this, counter
      ensures Valid() && fresh(m) && matches == old(matches) + [m]
      ensures m.matchId == matchId && m.home == home && m.away == away
      ensures m.dateTime == dateTime && m.kind == kind && m.matchType == KindName(kind)
      ensures m.status == Scheduled && m.score == "0-0"
      ensures counter.total == old(counter.total) + 1
    {
      m := new Match(counter, matchId, home, away, dateTime, kind);
      matches := matches + [m];
    }

    /**
     * `create_match` of the service layer: a missing team raises
     * `MissingTeamError`, two teams with the same name raise
     * `SameTeamError`, and neither registers anything. Otherwise the
     * requested kind, if any, is built with the drawn id and appended.
     */
    method CreateMatch(counter: ObjectCounter, matchType: string, home: Team?, away: Team?,
                       dateTime: string, options: MatchOptions, idDraw: int)
      returns (r: Result<Option<Match>, MatchError>)
      requires Valid()
      requires 10000 <= idDraw <= 99999
      modifies this, counter
      ensures Valid()
      ensures home == null || away == null ==> r == Err(MissingTeam)
      ensures home != null && away != null && home.name == away.name ==> r == Err(SameTeam(home.name))
      ensures r.Ok? <==> home != null && away != null && home.name != away.name
      ensures r.Ok? ==> (r.value.Some? <==> RequestedKind(matchType, options).Some?)
      ensures r.Ok? && r.value.Some? ==>
        var m := r.value.value;
        fresh(m) && matches == old(matches) + [m] &&
        m.matchId == idDraw && m.home == home && m.away == away && m.dateTime == dateTime &&
        m.kind == RequestedKind(matchType, options).value &&
        m.status == Scheduled && m.score == "0-0" &&
        counter.total == old(counter.total) + 1
      ensures !(r.Ok? && r.value.Some?) ==> matches == old(matches) && counter.total == old(counter.total)
    {
      if home == null || away == null {
        return Err(MissingTeam);
      }
      if home.name == away.name {
        return Err(SameTeam(home.name));
      }
      var kind := RequestedKind(matchType, options);
      if kind.None? {
        return Ok(None);
      }
      var m := Schedule(counter, idDraw, home, away, dateTime, kind.value);
      return Ok(Some(m));
    }

    /**
     * `create_match` of the older manager in implementation.py: a missing
     * team gives `None` instead of raising, and two sides with the same name
     * are not refused.
     */
    method CreateMatchQuiet(counter: ObjectCounter, matchType: string, home: Team?, away: Team?,
                            dateTime: string, options: MatchOptions, idDraw: int)
      returns (r: Option<Match>)
      requires Valid()
      requires 10000 <= idDraw <= 99999
      modifies this, counter
      ensures Valid()
      ensures r.Some? <==> home != null && away != null && RequestedKind(matchType, options).Some?
      ensures r.Some? ==>
        var m := r.value;
        fresh(m) && matches == old(matches) + [m] &&
        m.matchId == idDraw && m.home == home && m.away == away && m.dateTime == dateTime &&
        m.kind == RequestedKind(matchType, options).value &&
        m.status == Scheduled && m.score == "0-0" &&
        counter.total == old(counter.total) + 1
      ensures r.None? ==> matches == old(matches) && counter.total == old(counter.total)
    {
      if home == null || away == null {
        return None;
      }
      var kind := RequestedKind(matchType, options);
      if kind.None? {
        return None;
      }
      var m := Schedule(counter, idDraw, home, away, dateTime, kind.value);
      return Some(m);
    }

    /** `get_matches_by_status`: the matches with that status, in list order. */
    function MatchesByStatus(status: string): (r: seq<Match>)
      reads this, matches
      ensures forall i :: 0 <= i < |r| ==> r[i] in matches && r[i].status == status
      ensures forall i :: 0 <= i < |matches| && matches[i].status == status ==> matches[i] in r
      ensures SubseqOf(r, matches)
    {
      WithStatusInOrder(matches, status);
      WithStatus(matches, status)
    }

    /**
     * `simulate_all_scheduled`: every match that was `Scheduled` is
     * simulated once, in list order, on its own draws, and ends `Finished`
     * with the score and flags of its outcome; every other match keeps its
     * status, score and flags. Each team has recorded, in list order, its
     * results from the Scheduled matches it plays, and each league referee
     * has counted the Scheduled matches it officiates. The count of
     * simulated matches is returned (the source prints it).
     */
    method SimulateAllScheduled(draws: seq<Draws>) returns (count: nat)
      requires Valid()
      requires |draws| == |matches|
      requires forall i :: 0 <= i < |matches| ==> Fits(matches[i].kind, draws[i])
      modifies (set m | m in matches)`score, (set m | m in matches)`status
      modifies (set m | m in matches)`extraTimePlayed, (set m | m in matches)`penaltiesPlayed
      modifies (set m | m in matches :: m.home)`stats, (set m | m in matches :: m.away)`stats
      modifies RefereesOf(matches)`matchesOfficiated
      ensures count == CountOf(old(Statuses(matches)), |matches|, Scheduled)
      ensures Swept(matches, old(Snapshot(matches)), draws, |matches|)
    {
      var ms := matches;
      ghost var before := Statuses(ms);
      ghost var snap := Snapshot(ms);
      SweepStarts(ms, snap, draws);
      count := 0;
      var i := 0;
      while i < |ms|
        invariant 0 <= i <= |ms|
        invariant forall j :: 0 <= j < |ms| ==> before[j] == snap[j].status
        invariant count == CountOf(before, i, Scheduled)
        invariant Swept(ms, snap, draws, i)
      {
        count := Step(ms, draws, before, snap, i, count);
        i := i + 1;
      }
    }

    /**
     * One iteration of `SimulateAllScheduled`: match `i` is played if it
     * was scheduled, the count follows, and the matches, teams and
     * referees then stand as `i + 1` steps of the sweep leave them.
     */
    static method Step(ms: seq<Match>, draws: seq<Draws>, ghost before: seq<string>,
                       ghost snap: seq<Entry>, i: nat, count: nat) returns (count': nat)
      requires Distinct(ms) && i < |ms| && |before| == |ms|
      requires Swept(ms, snap, draws, i)
      requires forall j :: 0 <= j < |ms| ==> before[j] == snap[j].status
      requires count == CountOf(before, i, Scheduled)
      modifies (set m | m in ms)`score, (set m | m in ms)`status
      modifies (set m | m in ms)`extraTimePlayed, (set m | m in ms)`penaltiesPlayed
      modifies (set m | m in ms :: m.home)`stats, (set m | m in ms :: m.away)`stats
      modifies RefereesOf(ms)`matchesOfficiated
      ensures count' == CountOf(before, i + 1, Scheduled)
      ensures Swept(ms, snap, draws, i + 1)
    {
      var played := PlayIfScheduled(ms[i], draws[i], snap[i], ms, TeamsOf(snap), RefereesIn(snap));
      count' := if played then count + 1 else count;
      Advance(Progress(ms, snap, draws, i));
    }

    /**
     * One step of the bulk simulation on a match that stands as entry `e`:
     * a `Scheduled` match is simulated (as `Match.Simulate` states) and
     * reports it; any other is left alone. The match's teams record its
     * result and its league referee counts it; nothing else changes.
     */
    static method PlayIfScheduled(m: Match, d: Draws, ghost e: Entry, ghost others: seq<Match>,
                                  ghost teams: set<Team>, ghost referees: set<Referee>)
      returns (played: bool)
      requires m.kind == e.kind && m.home == e.home && m.away == e.away && Untouched(m, e)
      requires Fits(e.kind, d)
      modifies m`score, m`status, m`extraTimePlayed, m`penaltiesPlayed
      modifies m.home`stats, m.away`stats, m.Officials()`matchesOfficiated
      ensures played == (e.status == Scheduled)
      ensures played ==> Concluded(m, d, e)
      ensures !played ==> Untouched(m, e)
      ensures m.home.stats == StatsAfter(m.home, old(m.home.stats), e, d)
      ensures m.away.stats == StatsAfter(m.away, old(m.away.stats), e, d)
      ensures m.kind.League? ==>
        m.kind.referee.matchesOfficiated == old(m.kind.referee.matchesOfficiated) + (if played then 1 else 0)
      // nothing else changes
      ensures forall x :: x in others ==> x.home == old(x.home) && x.away == old(x.away)
      ensures forall x :: x in others && x != m ==>
        x.status == old(x.status) && x.score == old(x.score) &&
        x.extraTimePlayed == old(x.extraTimePlayed) && x.penaltiesPlayed == old(x.penaltiesPlayed)
      ensures forall t :: t in teams && t != e.home && t != e.away ==> t.stats == old(t.stats)
      ensures forall r :: r in referees && !(e.kind.League? && r == e.kind.referee) ==>
        r.matchesOfficiated == old(r.matchesOfficiated)
    {
      played := m.status == Scheduled;
      if played {
        var _ := m.Simulate(d);
      }
    }

    /**
     * `get_matches_of_team`: the matches, in list order, where the
     * lower-cased name is part of the lower-cased home or away team name.
     */
    method MatchesOfTeam(teamName: string) returns (found: seq<Match>)
      requires Valid()
      ensures found == OfTeam(matches, Lower(teamName))
      ensures forall m :: m in found <==> m in matches && Involves(m, Lower(teamName))
      ensures Distinct(found)
    {
      var key := Lower(teamName);
      found := [];
      var i := 0;
      while i < |matches|
        invariant 0 <= i <= |matches|
        invariant found == OfTeam(matches[..i], key)
      {
        var m := matches[i];
        OfTeamSnoc(matches, i, key);
        if Contains(Lower(m.home.name), key) || Contains(Lower(m.away.name), key) {
          found := found + [m];
        }
        i := i + 1;
      }
      assert matches[..|matches|] == matches;
      OfTeamInOrder(matches, key);
      SubseqOfDistinct(found, matches);
    }
  }
}
