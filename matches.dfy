/**
 * Matches (modules/match_point/base.py and the three match classes of
 * modules/match_point/implementation.py).
 *
 * `MatchBase` and its subclasses `FriendlyMatch`, `LeagueMatch` and
 * `TournamentMatch` become one class `Match` whose constant `kind` carries
 * what each subclass adds at construction (location; week, referee and
 * weather; round name and knockout flag). The per-kind mutable flags
 * (charity event, ticket price, extra time, penalties) are fields of
 * `Match`; the source only gives each kind its own.
 */
module Matches {
  import opened Common
  import opened Entities
  import opened Simulation

  const Scheduled := "Scheduled"
  const Finished := "Finished"

  datatype Kind =
    | Friendly(location: Option<Stadium>)
    | League(week: int, referee: Referee, weather: string)
    | Tournament(roundName: string, knockout: bool)

  /** The type name each subclass hands to `MatchBase`. */
  function KindName(k: Kind): string
  {
    match k
    case Friendly(_) => "Friendly"
    case League(_, _, _) => "League"
    case Tournament(_, _) => "Tournament"
  }

  /** `f"{h}-{a}"`, the score text the simulations write. */
  function ScoreText(h: nat, a: nat): string
  {
    NatText(h) + "-" + NatText(a)
  }

  /**
   * `score.split("-")` followed by `int(score[0]), int(score[1])`, read
   * left to right: a first part that is not a numeral raises `ValueError`
   * before the second part is looked up, a missing second part raises
   * `IndexError`, and a second part that is not a numeral `ValueError`.
   * Parts after the second are ignored.
   */
  function ParseScore(score: string): (r: Result<(nat, nat), PyError>)
    ensures var parts := Split(score, '-');
      r == Err(ValueError) <==> !IsDigits(parts[0]) || (|parts| >= 2 && !IsDigits(parts[1]))
    ensures var parts := Split(score, '-');
      r == Err(IndexError) <==> IsDigits(parts[0]) && |parts| < 2
    ensures r.Ok? ==> var parts := Split(score, '-');
      |parts| >= 2 && ParseNat(parts[0]) == Some(r.value.0) && ParseNat(parts[1]) == Some(r.value.1)
  {
    var parts := Split(score, '-');
    match ParseNat(parts[0])
    case None => Err(ValueError)
    case Some(h) =>
      if |parts| < 2 then Err(IndexError)
      else match ParseNat(parts[1])
        case None => Err(ValueError)
        case Some(a) => Ok((h, a))
  }

  /** A score with no "-" and a first part that is not a numeral fails on the numeral, not on the missing part. */
  lemma ParseScoreChecksFirstPartFirst()
    ensures ParseScore("abc") == Err(ValueError)
    ensures ParseScore("") == Err(ValueError)
    ensures ParseScore("3") == Err(IndexError)
  {
    SplitNoSeparator("abc", '-');
    assert !IsDigit("abc"[0]);
    assert Split("", '-') == [""];
    SplitNoSeparator("3", '-');
    assert IsDigits("3");
  }

  lemma NatTextHasNoDash(n: nat)
    ensures forall i :: 0 <= i < |NatText(n)| ==> NatText(n)[i] != '-'
  {
  }

  /** The score the simulations write reads back as the same two numbers. */
  lemma ScoreRoundTrip(h: nat, a: nat)
    ensures ParseScore(ScoreText(h, a)) == Ok((h, a))
  {
    NatTextHasNoDash(h);
    NatTextHasNoDash(a);
    SplitAtFirst(NatText(h), '-', NatText(a));
    SplitNoSeparator(NatText(a), '-');
    NatTextRoundTrip(h);
    NatTextRoundTrip(a);
  }

  /** The verdict `LeagueMatch.calculate_points` gives for a finished league score. */
  function LeagueVerdict(score: string, homeName: string, awayName: string): (r: Result<string, PyError>)
    ensures forall h: nat, a: nat :: score == ScoreText(h, a) ==>
      r == Ok(if h > a then homeName + " (3 Puan)"
              else if a > h then awayName + " (3 Puan)"
              else "Beraberlik (1 Puan)")
  {
    var parsed := ParseScore(score);
    forall h: nat, a: nat | score == ScoreText(h, a) ensures parsed == Ok((h, a)) {
      ScoreRoundTrip(h, a);
    }
    match parsed
    case Err(e) => Err(e)
    case Ok((h, a)) =>
      Ok(if h > a then homeName + " (3 Puan)"
         else if a > h then awayName + " (3 Puan)"
         else "Beraberlik (1 Puan)")
  }

  /** The draws `d` are what a simulation of a match of kind `k` consumes. */
  predicate Fits(k: Kind, d: Draws)
  {
    match k
    case Friendly(_) => FriendlyFits(d)
    case League(_, _, _) => LeagueFits(d)
    case Tournament(_, knockout) => TournamentFits(knockout, d)
  }

  /** The outcome a simulation of a match of kind `k` reaches on draws `d`. */
  function Resolve(k: Kind, d: Draws): (r: Outcome)
    requires Fits(k, d)
    ensures r.home >= 0 && r.away >= 0
    ensures r.penalties ==> k.Tournament? && r.extraTime
  {
    match k
    case Friendly(_) => FriendlyOutcome(d)
    case League(_, _, _) => LeagueOutcome(d)
    case Tournament(_, knockout) => TournamentOutcome(knockout, d)
  }

  class Match {
    var matchId: int
    var home: Team
    var away: Team
    var matchType: string
    var dateTime: string
    var status: string
    var score: string
    const kind: Kind
    /** `FriendlyMatch` only. */
    var charityEvent: bool
    var ticketPrice: real
    /** `TournamentMatch` only. */
    var extraTimePlayed: bool
    var penaltiesPlayed: bool

    /**
     * Every match starts `Scheduled` with score "0-0"; each construction
     * adds one to the class-level object count.
     */
    constructor (counter: ObjectCounter, matchId: int, home: Team, away: Team,
                 dateTime: string, kind: Kind)
      modifies counter
      ensures this.matchId == matchId && this.home == home && this.away == away
      ensures this.dateTime == dateTime && this.kind == kind
      ensures matchType == KindName(kind)
      ensures status == Scheduled && score == "0-0"
      ensures !charityEvent && ticketPrice == 0.0
      ensures !extraTimePlayed && !penaltiesPlayed
      ensures counter.total == old(counter.total) + 1
    {
      this.matchId := matchId;
      this.home := home;
      this.away := away;
      matchType := KindName(kind);
      this.dateTime := dateTime;
      status := Scheduled;
      score := "0-0";
      this.kind := kind;
      charityEvent := false;
      ticketPrice := 0.0;
      extraTimePlayed := false;
      penaltiesPlayed := false;
      new;
      counter.Increment();
    }

    /** `validate_teams`: false exactly when both sides are the same team. */
    static function ValidateTeams(home: Team, away: Team): (ok: bool)
      ensures ok <==> home != away
    {
      if home == away then false else true
    }

    // --- accessors: each changes its own field and nothing else

    method SetMatchId(newId: int)
      modifies this`matchId
      ensures matchId == newId
    {
      matchId := newId;
    }

    method SetHomeTeam(team: Team)
      modifies this`home
      ensures home == team
    {
      home := team;
    }

    method SetAwayTeam(team: Team)
      modifies this`away
      ensures away == team
    {
      away := team;
    }

    method SetMatchType(newType: string)
      modifies this`matchType
      ensures matchType == newType
    {
      matchType := newType;
    }

    method SetDateTime(dt: string)
      modifies this`dateTime
      ensures dateTime == dt
    {
      dateTime := dt;
    }

    method SetScore(newScore: string)
      modifies this`score
      ensures score == newScore
    {
      score := newScore;
    }

    /** `_set_status_internal`, and `update_status`, which every kind forwards to it. */
    method UpdateStatus(newStatus: string)
      modifies this`status
      ensures status == newStatus
    {
      status := newStatus;
    }

    /** `FriendlyMatch.set_ticket_price`: a negative price is refused. */
    method SetTicketPrice(price: real)
      requires kind.Friendly?
      modifies this`ticketPrice
      ensures ticketPrice == if price >= 0.0 then price else old(ticketPrice)
    {
      if price >= 0.0 {
        ticketPrice := price;
      }
    }

    /** `FriendlyMatch.set_charity_event`: only a genuine `bool` is stored. */
    method SetCharityEvent(flag: Value)
      requires kind.Friendly?
      modifies this`charityEvent
      ensures charityEvent == if flag.VBool? then flag.b else old(charityEvent)
    {
      if flag.VBool? {
        charityEvent := flag.b;
      }
    }

    /** The referee whose count a simulation of this match raises. */
    function Officials(): set<Referee>
    {
      if kind.League? then {kind.referee} else {}
    }

    /**
     * `simulate_match`: writes the score `"h-a"` of the outcome, marks the
     * match finished, records (h, a) for the home side and (a, h) for the
     * away side, counts the match for a league referee and sets the
     * tournament flags. The deciding shoot-out tallies, which the source
     * only prints, are returned.
     */
    method Simulate(d: Draws) returns (shootout: Option<(int, int)>)
      requires Fits(kind, d)
      modifies this`score, this`status, this`extraTimePlayed, this`penaltiesPlayed
      modifies home`stats, away`stats, Officials()`matchesOfficiated
      ensures var r := Resolve(kind, d);
        score == ScoreText(r.home, r.away) && status == Finished &&
        shootout == r.shootout &&
        extraTimePlayed == (old(extraTimePlayed) || r.extraTime) &&
        penaltiesPlayed == (old(penaltiesPlayed) || r.penalties)
      ensures var r := Resolve(kind, d);
        home != away ==>
          home.stats == Tally(old(home.stats), r.home, r.away) &&
          away.stats == Tally(old(away.stats), r.away, r.home)
      ensures var r := Resolve(kind, d);
        home == away ==>
          home.stats == Tally(Tally(old(home.stats), r.home, r.away), r.away, r.home)
      ensures kind.League? ==> kind.referee.matchesOfficiated == old(kind.referee.matchesOfficiated) + 1
    {
      ghost var r := Resolve(kind, d);
      var h: nat, a: nat;
      shootout := None;
      match kind {
        case Friendly(_) =>
          h, a := d.home, d.away;
        case League(_, referee, _) =>
          var hPower := d.homeRoll + 2;
          var aPower := d.awayRoll;
          if hPower > aPower {
            h := d.first;
            a := d.second;
          } else if aPower > hPower {
            a := d.first;
            h := d.second;
          } else {
            h := d.first;
            a := h;
          }
          referee.IncrementMatchCount();
        case Tournament(_, knockout) =>
          h, a := d.home, d.away;
          if knockout && h == a {
            extraTimePlayed := true;
            h := h + d.extraHome;
            a := a + d.extraAway;
            if h == a {
              penaltiesPlayed := true;
              shootout := Shootout(d.shootout);
            }
          }
      }
      assert h == r.home && a == r.away && shootout == r.shootout;
      assert extraTimePlayed == (old(extraTimePlayed) || r.extraTime);
      assert penaltiesPlayed == (old(penaltiesPlayed) || r.penalties);
      score := ScoreText(h, a);
      status := Finished;
      home.UpdateStats(h, a);
      away.UpdateStats(a, h);
    }

    /**
     * The penalty loop: rounds are taken until the two tallies differ; the
     * deciding round is the first unequal pair of the stream.
     */
    static method Shootout(rounds: seq<(int, int)>) returns (result: Option<(int, int)>)
      requires Decides(rounds)
      ensures result == Some(rounds[FirstUnequal(rounds)])
    {
      var pHome, pAway := 0, 0;
      var i := 0;
      while pHome == pAway
        invariant 0 <= i <= |rounds|
        invariant forall j :: 0 <= j < i - 1 ==> rounds[j].0 == rounds[j].1
        invariant i > 0 ==> (pHome, pAway) == rounds[i - 1]
        invariant i == 0 ==> pHome == pAway
        invariant pHome != pAway ==> i - 1 == FirstUnequal(rounds)
        decreases |rounds| - i
      {
        var k :| 0 <= k < |rounds| && rounds[k].0 != rounds[k].1;
        assert i <= k;
        pHome, pAway := rounds[i].0, rounds[i].1;
        i := i + 1;
        if pHome != pAway {
          FirstUnequalIsUnique(rounds, i - 1);
        }
      }
      result := Some((pHome, pAway));
    }

    /** `calculate_points`, per kind. */
    function CalculatePoints(): (r: Result<string, PyError>)
      reads this, home, away
      ensures kind.Friendly? ==> r == Ok("Dostluk maçında puan verilmez.")
      ensures kind.League? && status != Finished ==> r == Ok("Maç bitmedi.")
      ensures kind.League? && status == Finished ==> r == LeagueVerdict(score, home.name, away.name)
      ensures kind.Tournament? ==> r == Ok("Tur atlayan belirlendi. (" + kind.roundName + ")")
    {
      match kind
      case Friendly(_) => Ok("Dostluk maçında puan verilmez.")
      case League(_, _, _) =>
        if status != Finished then Ok("Maç bitmedi.")
        else LeagueVerdict(score, home.name, away.name)
      case Tournament(roundName, _) => Ok("Tur atlayan belirlendi. (" + roundName + ")")
    }

    /** The location name a friendly shows, or "Bilinmiyor" without one. */
    function LocationName(): string
      requires kind.Friendly?
      reads this, if kind.location.Some? then {kind.location.value} else {}
    {
      if kind.location.Some? then kind.location.value.name else "Bilinmiyor"
    }

    /** `get_match_info`, per kind. */
    function MatchInfo(): (r: string)
      reads this, home, away
      reads if kind.Friendly? && kind.location.Some? then {kind.location.value} else {}
      ensures kind.Friendly? ==>
        r == "[Hazırlık] " + home.shortCode + " vs " + away.shortCode + " @ " + LocationName()
      ensures kind.League? ==>
        r == "[Lig - Hft " + IntText(kind.week) + "] " + home.name + " vs " + away.name
             + " | Skor: " + score
      ensures kind.Tournament? ==>
        var head := "[Kupa - " + kind.roundName + "] " + home.name + " vs " + away.name;
        |r| >= |head| && r[..|head|] == head &&
        r[|head|..] == (if extraTimePlayed then " (UZ)" else "") + (if penaltiesPlayed then " (PEN)" else "")
    {
      match kind
      case Friendly(_) =>
        "[Hazırlık] " + home.shortCode + " vs " + away.shortCode + " @ " + LocationName()
      case League(week, _, _) =>
        "[Lig - Hft " + IntText(week) + "] " + home.name + " vs " + away.name + " | Skor: " + score
      case Tournament(roundName, _) =>
        var info := "[Kupa - " + roundName + "] " + home.name + " vs " + away.name;
        var info := if extraTimePlayed then info + " (UZ)" else info;
        if penaltiesPlayed then info + " (PEN)" else info
    }
  }

  lemma FirstUnequalIsUnique(s: seq<(int, int)>, k: nat)
    requires k < |s| && s[k].0 != s[k].1
    requires forall j :: 0 <= j < k ==> s[j].0 == s[j].1
    ensures Decides(s) && FirstUnequal(s) == k
  {
  }

  /**
   * A simulated league match, read back by `calculate_points`, names the
   * side with more power as the 3-point winner, or reports a draw for equal
   * powers.
   */
  lemma SimulatedLeagueVerdict(d: Draws, homeName: string, awayName: string)
    requires LeagueFits(d)
    ensures var r := LeagueOutcome(d);
      LeagueVerdict(ScoreText(r.home, r.away), homeName, awayName) ==
        Ok(if HomePower(d) > AwayPower(d) then homeName + " (3 Puan)"
           else if AwayPower(d) > HomePower(d) then awayName + " (3 Puan)"
           else "Beraberlik (1 Puan)")
  {
  }
}
