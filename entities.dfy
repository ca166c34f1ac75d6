/**
 * The entities of the match engine (modules/match_point/entities.py):
 * stadiums, referees and teams, and the season statistics a team
 * accumulates match by match.
 *
 * The class-level counter `Stadium._total_stadiums` (and, for matches,
 * `MatchBase._total_match_objects`) is an `ObjectCounter` object that the
 * constructors are handed and increment.
 */
module Entities {
  import opened Common

  // ---------------------------------------------------------------------
  // Season statistics

  /** The seven counters a team keeps. */
  datatype TeamStats = TeamStats(
    played: int, won: int, drawn: int, lost: int,
    goalsScored: int, goalsConceded: int, points: int)

  /** All counters at zero, as a team is created. */
  const FreshStats := TeamStats(0, 0, 0, 0, 0, 0, 0)

  /** `get_goal_difference`: goals scored minus goals conceded. */
  function GoalDifference(s: TeamStats): (r: int)
  {
    s.goalsScored - s.goalsConceded
  }

  /**
   * The standings invariant: every match played is exactly one of a win,
   * a draw or a loss, a win is worth 3 points and a draw 1.
   */
  predicate Consistent(s: TeamStats)
  {
    s.won >= 0 && s.drawn >= 0 && s.lost >= 0 &&
    s.played == s.won + s.drawn + s.lost &&
    s.points == 3 * s.won + s.drawn
  }

  /** The statistics after one more match with `gf` goals for and `ga` against. */
  function Tally(s: TeamStats, gf: int, ga: int): (r: TeamStats)
    ensures r.played == s.played + 1
    ensures r.goalsScored == s.goalsScored + gf && r.goalsConceded == s.goalsConceded + ga
    ensures GoalDifference(r) == GoalDifference(s) + (gf - ga)
    // exactly one of the three result counters moves, by one
    ensures r.won + r.drawn + r.lost == s.won + s.drawn + s.lost + 1
    ensures r.won >= s.won && r.drawn >= s.drawn && r.lost >= s.lost
    ensures gf > ga <==> r.won == s.won + 1
    ensures gf == ga <==> r.drawn == s.drawn + 1
    ensures gf < ga <==> r.lost == s.lost + 1
    // 3 points for a win, 1 for a draw, none for a loss
    ensures r.points == s.points + (if gf > ga then 3 else if gf == ga then 1 else 0)
    ensures Consistent(s) ==> Consistent(r)
  {
    var counted := s.(played := s.played + 1,
                      goalsScored := s.goalsScored + gf,
                      goalsConceded := s.goalsConceded + ga);
    if gf > ga then counted.(won := s.won + 1, points := s.points + 3)
    else if gf == ga then counted.(drawn := s.drawn + 1, points := s.points + 1)
    else counted.(lost := s.lost + 1)
  }

  /** The statistics after a sequence of results, applied in order. */
  function TallyAll(s: TeamStats, results: seq<(int, int)>): (r: TeamStats)
    ensures r.played == s.played + |results|
    ensures s.points <= r.points <= s.points + 3 * |results|
    ensures Consistent(s) ==> Consistent(r)
    decreases |results|
  {
    if results == [] then s
    else TallyAll(Tally(s, results[0].0, results[0].1), results[1..])
  }

  /** Sum of the goal margins `gf - ga` of a sequence of results. */
  function Margin(results: seq<(int, int)>): int
  {
    if results == [] then 0 else (results[0].0 - results[0].1) + Margin(results[1..])
  }

  /** The goal difference moves by exactly the summed margin of the results. */
  lemma {:induction false} TallyAllGoalDifference(s: TeamStats, results: seq<(int, int)>)
    ensures GoalDifference(TallyAll(s, results)) == GoalDifference(s) + Margin(results)
    decreases |results|
  {
    if results != [] {
      TallyAllGoalDifference(Tally(s, results[0].0, results[0].1), results[1..]);
    }
  }

  /**
   * A team created fresh and updated with any sequence of results keeps the
   * standings invariant, has played exactly that many matches and has a goal
   * difference equal to the summed margin.
   */
  lemma {:induction false} SeasonFromFresh(results: seq<(int, int)>)
    ensures Consistent(TallyAll(FreshStats, results))
    ensures TallyAll(FreshStats, results).played == |results|
    ensures GoalDifference(TallyAll(FreshStats, results)) == Margin(results)
  {
    FreshStaysConsistent(results);
    FreshCountsPlayed(results);
    TallyAllGoalDifference(FreshStats, results);
  }

  // The two halves of `SeasonFromFresh` are proved apart: together in one
  // obligation they send the solver through the case splits of `Tally`.
  lemma FreshStaysConsistent(results: seq<(int, int)>)
    ensures Consistent(TallyAll(FreshStats, results))
  {
  }

  lemma FreshCountsPlayed(results: seq<(int, int)>)
    ensures TallyAll(FreshStats, results).played == |results|
  {
  }

  /**
   * One match moves the two teams' goal differences by opposite amounts:
   * what the home side gains the away side loses.
   */
  lemma MatchGoalDifferencesCancel(home: TeamStats, away: TeamStats, homeGoals: int, awayGoals: int)
    ensures GoalDifference(Tally(home, homeGoals, awayGoals)) - GoalDifference(home) ==
      -(GoalDifference(Tally(away, awayGoals, homeGoals)) - GoalDifference(away))
    ensures GoalDifference(Tally(home, homeGoals, awayGoals)) > GoalDifference(home) <==> homeGoals > awayGoals
  {
  }

  /** Recording two batches of results one after the other records them all, in order. */
  lemma {:induction false} TallyAllAppend(s: TeamStats, first: seq<(int, int)>, second: seq<(int, int)>)
    ensures TallyAll(s, first + second) == TallyAll(TallyAll(s, first), second)
    decreases |first|
  {
    if first != [] {
      assert (first + second)[0] == first[0] && (first + second)[1..] == first[1..] + second;
      TallyAllAppend(Tally(s, first[0].0, first[0].1), first[1..], second);
    } else {
      assert first + second == second;
    }
  }

  /** The order in which two results are recorded does not matter. */
  lemma TallyCommutes(s: TeamStats, a: (int, int), b: (int, int))
    ensures Tally(Tally(s, a.0, a.1), b.0, b.1) == Tally(Tally(s, b.0, b.1), a.0, a.1)
  {
  }

  // ---------------------------------------------------------------------
  // Class-level counters

  /** A class attribute counting constructed objects. */
  class ObjectCounter {
    var total: nat

    constructor ()
      ensures total == 0
    {
      total := 0;
    }

    method Increment()
      modifies this
      ensures total == old(total) + 1
    {
      total := total + 1;
    }
  }

  // ---------------------------------------------------------------------
  // Stadium

  class Stadium {
    var stadiumId: int
    var name: string
    var city: string
    var capacity: int
    var surfaceType: string
    var underMaintenance: bool

    /** Stores every argument as given (no validation) and counts the stadium. */
    constructor (counter: ObjectCounter, stadiumId: int, name: string, city: string,
                 capacity: int, surfaceType: string := "Grass")
      modifies counter
      ensures this.stadiumId == stadiumId && this.name == name && this.city == city
      ensures this.capacity == capacity && this.surfaceType == surfaceType
      ensures !underMaintenance
      ensures counter.total == old(counter.total) + 1
    {
      this.stadiumId := stadiumId;
      this.name := name;
      this.city := city;
      this.capacity := capacity;
      this.surfaceType := surfaceType;
      underMaintenance := false;
      new;
      counter.Increment();
    }

    /** A capacity is acceptable exactly when it is not negative. */
    static function ValidateCapacity(cap: int): (ok: bool)
      ensures ok <==> cap >= 0
    {
      if cap < 0 then false else true
    }

    /** A name of at most two characters is refused and the old name kept. */
    method SetName(newName: string)
      modifies this`name
      ensures name == if |newName| > 2 then newName else old(name)
    {
      if |newName| > 2 {
        name := newName;
      }
    }

    /** A negative capacity is ignored. */
    method SetCapacity(newCapacity: int)
      modifies this`capacity
      ensures capacity == if newCapacity >= 0 then newCapacity else old(capacity)
    {
      if ValidateCapacity(newCapacity) {
        capacity := newCapacity;
      }
    }

    /** Only a genuine `bool` changes the maintenance flag. */
    method SetMaintenanceStatus(status: Value)
      modifies this`underMaintenance
      ensures underMaintenance == if status.VBool? then status.b else old(underMaintenance)
    {
      if status.VBool? {
        underMaintenance := status.b;
      }
    }

    /** `get_full_info`: "name (city) - capacity Kişilik". */
    function FullInfo(): (r: string)
      reads this
      ensures |r| >= |name| + 8
      ensures r[..|name|] == name
      ensures r[|r| - 8..] == " Kişilik"
    {
      name + " (" + city + ") - " + IntText(capacity) + " Kişilik"
    }
  }

  // ---------------------------------------------------------------------
  // Referee

  /** The licence levels `set_license_level` accepts. */
  const LicenseLevels: seq<string> := ["FIFA", "National", "Regional", "Amateur"]

  class Referee {
    var refereeId: int
    var firstName: string
    var lastName: string
    var licenseLevel: string
    var experienceYear: int
    var matchesOfficiated: int

    /** Stores the arguments unchecked; the match count starts at zero. */
    constructor (refereeId: int, firstName: string, lastName: string,
                 licenseLevel: string, experienceYear: int)
      ensures this.refereeId == refereeId && this.firstName == firstName
      ensures this.lastName == lastName && this.licenseLevel == licenseLevel
      ensures this.experienceYear == experienceYear
      ensures matchesOfficiated == 0
    {
      this.refereeId := refereeId;
      this.firstName := firstName;
      this.lastName := lastName;
      this.licenseLevel := licenseLevel;
      this.experienceYear := experienceYear;
      matchesOfficiated := 0;
    }

    /** First and last name separated by one space. */
    function FullName(): (r: string)
      reads this
      ensures |r| == |firstName| + 1 + |lastName|
      ensures r[..|firstName|] == firstName && r[|firstName|] == ' '
      ensures r[|firstName| + 1..] == lastName
    {
      firstName + " " + lastName
    }

    /** Only one of the four known licence levels replaces the current one. */
    method SetLicenseLevel(level: string)
      modifies this`licenseLevel
      ensures licenseLevel == if level in LicenseLevels then level else old(licenseLevel)
    {
      if level in LicenseLevels {
        licenseLevel := level;
      }
    }

    method IncrementMatchCount()
      modifies this`matchesOfficiated
      ensures matchesOfficiated == old(matchesOfficiated) + 1
    {
      matchesOfficiated := matchesOfficiated + 1;
    }
  }

  // ---------------------------------------------------------------------
  // Team

  class Team {
    var teamId: int
    var name: string
    var shortCode: string
    var foundingYear: int
    var colors: seq<string>
    /** The seven statistics counters, kept together. */
    var stats: TeamStats

    /** Stores the arguments unchecked; all statistics start at zero. */
    constructor (teamId: int, name: string, shortCode: string, foundingYear: int,
                 colors: seq<string>)
      ensures this.teamId == teamId && this.name == name && this.shortCode == shortCode
      ensures this.foundingYear == foundingYear && this.colors == colors
      ensures stats == FreshStats && Consistent(stats)
      ensures stats.points == 0 && GoalDifference(stats) == 0
    {
      this.teamId := teamId;
      this.name := name;
      this.shortCode := shortCode;
      this.foundingYear := foundingYear;
      this.colors := colors;
      stats := FreshStats;
    }

    /** Records one match result: the counters move as `Tally` says. */
    method UpdateStats(goalsFor: int, goalsAgainst: int)
      modifies this`stats
      ensures stats == Tally(old(stats), goalsFor, goalsAgainst)
      ensures old(Consistent(stats)) ==> Consistent(stats)
    {
      var s := stats;
      s := s.(played := s.played + 1);
      s := s.(goalsScored := s.goalsScored + goalsFor);
      s := s.(goalsConceded := s.goalsConceded + goalsAgainst);
      if goalsFor > goalsAgainst {
        s := s.(won := s.won + 1, points := s.points + 3);
      } else if goalsFor == goalsAgainst {
        s := s.(drawn := s.drawn + 1, points := s.points + 1);
      } else {
        s := s.(lost := s.lost + 1);
      }
      stats := s;
    }

    /** `get_colors`: the colours joined by ", ". */
    function ColorsText(): (r: string)
      reads this
      ensures colors == [] ==> r == ""
      ensures |colors| == 1 ==> r == colors[0]
      ensures colors != [] ==> |r| == Lengths(colors) + 2 * (|colors| - 1)
      ensures colors != [] ==> r[..|colors[0]|] == colors[0]
    {
      Join(colors, ", ")
    }

    /** `get_stats_string`: "CODE  | P: p W: w D: d L: l | Pts: n". */
    function StatsString(): (r: string)
      reads this
      ensures |r| >= |PadRight(shortCode, 5)| && r[..|PadRight(shortCode, 5)|] == PadRight(shortCode, 5)
    {
      var code := PadRight(shortCode, 5);
      var counts := " | P: " + IntText(stats.played) + " W: " + IntText(stats.won)
        + " D: " + IntText(stats.drawn) + " L: " + IntText(stats.lost)
        + " | Pts: " + IntText(stats.points);
      assert (code + counts)[..|code|] == code;
      code + counts
    }
  }
}
