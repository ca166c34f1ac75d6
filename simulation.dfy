/**
 * How the three match kinds turn random draws into a result
 * (the `simulate_match` overrides in modules/match_point/implementation.py).
 *
 * Every `random.randint` call is a value handed in by the caller, in the
 * order the code draws them; the preconditions put each draw in the range
 * of the call it stands for. The penalty shoot-out draws pairs until the
 * two tallies differ, so it is given a sequence of pairs whose first
 * unequal pair ends it.
 */
module Simulation {
  import opened Common

  /** The draws one simulation consumes, per kind of match. */
  datatype Draws =
    | FriendlyDraws(home: int, away: int)
      // the two power rolls, then the winner's goals and the loser's goals,
      // or (equal powers) the common goal count in `first`
    | LeagueDraws(homeRoll: int, awayRoll: int, first: int, second: int)
      // regulation goals, extra-time goals, shoot-out pairs
    | TournamentDraws(home: int, away: int, extraHome: int, extraAway: int,
                      shootout: seq<(int, int)>)

  /** What a simulation decides. */
  datatype Outcome = Outcome(
    home: int, away: int,
    extraTime: bool, penalties: bool,
    /** the deciding shoot-out tallies, when there was a shoot-out */
    shootout: Option<(int, int)>)

  // ---------------------------------------------------------------------
  // Friendly: two uniform draws

  predicate FriendlyFits(d: Draws)
  {
    d.FriendlyDraws? && 0 <= d.home <= 5 && 0 <= d.away <= 5
  }

  function FriendlyOutcome(d: Draws): (r: Outcome)
    requires FriendlyFits(d)
    ensures 0 <= r.home <= 5 && 0 <= r.away <= 5
    ensures !r.extraTime && !r.penalties && r.shootout == None
  {
    Outcome(d.home, d.away, false, false, None)
  }

  // ---------------------------------------------------------------------
  // League: home advantage

  /** `randint(1, 10) + 2`: the home side's power. */
  function HomePower(d: Draws): int
    requires d.LeagueDraws?
  {
    d.homeRoll + 2
  }

  /** `randint(1, 10)`: the away side's power. */
  function AwayPower(d: Draws): int
    requires d.LeagueDraws?
  {
    d.awayRoll
  }

  /**
   * The ranges of the draws the league simulation actually makes: the
   * winner's goals in 1..4 and the loser's in 0..winner-1, or one draw in
   * 0..2 when the powers are equal (then `second` is never drawn).
   */
  predicate LeagueFits(d: Draws)
  {
    d.LeagueDraws? &&
    1 <= d.homeRoll <= 10 && 1 <= d.awayRoll <= 10 &&
    if HomePower(d) != AwayPower(d) then 1 <= d.first <= 4 && 0 <= d.second <= d.first - 1
    else 0 <= d.first <= 2
  }

  function LeagueOutcome(d: Draws): (r: Outcome)
    requires LeagueFits(d)
    // the side with strictly more power scores 1..4 and wins
    ensures HomePower(d) > AwayPower(d) ==> 1 <= r.home <= 4 && 0 <= r.away < r.home
    ensures AwayPower(d) > HomePower(d) ==> 1 <= r.away <= 4 && 0 <= r.home < r.away
    // equal powers give a level score of at most 2 each
    ensures HomePower(d) == AwayPower(d) ==> r.home == r.away && 0 <= r.home <= 2
    ensures !r.extraTime && !r.penalties && r.shootout == None
  {
    var (h, a) :=
      if HomePower(d) > AwayPower(d) then (d.first, d.second)
      else if AwayPower(d) > HomePower(d) then (d.second, d.first)
      else (d.first, d.first);
    Outcome(h, a, false, false, None)
  }

  /** The home side can only lose when the away roll beats the home roll by three or more. */
  lemma HomeAdvantage(d: Draws)
    requires LeagueFits(d)
    ensures LeagueOutcome(d).away > LeagueOutcome(d).home ==> d.awayRoll >= d.homeRoll + 3
    ensures d.homeRoll >= 9 ==> LeagueOutcome(d).home > LeagueOutcome(d).away
  {
  }

  // ---------------------------------------------------------------------
  // Tournament: regulation, extra time, penalties

  /** A shoot-out round scores 3..5 penalties per side. */
  predicate PenaltyPair(p: (int, int))
  {
    3 <= p.0 <= 5 && 3 <= p.1 <= 5
  }

  /** Some round of the stream separates the two sides. */
  predicate Decides(s: seq<(int, int)>)
  {
    exists k :: 0 <= k < |s| && s[k].0 != s[k].1
  }

  /** The round that ends the shoot-out: the first whose tallies differ. */
  function FirstUnequal(s: seq<(int, int)>): (k: nat)
    requires Decides(s)
    ensures k < |s| && s[k].0 != s[k].1
    ensures forall j :: 0 <= j < k ==> s[j].0 == s[j].1
  {
    if s[0].0 != s[0].1 then 0
    else
      assert Decides(s[1..]) by {
        var k :| 0 <= k < |s| && s[k].0 != s[k].1;
        assert s[1..][k - 1] == s[k];
      }
      1 + FirstUnequal(s[1..])
  }

  /** Regulation ends level and the match is a knockout: extra time is played. */
  predicate ExtraTimeReached(knockout: bool, d: Draws)
    requires d.TournamentDraws?
  {
    knockout && d.home == d.away
  }

  /** Still level after extra time: penalties are taken. */
  predicate PenaltiesReached(knockout: bool, d: Draws)
    requires d.TournamentDraws?
  {
    ExtraTimeReached(knockout, d) && d.home + d.extraHome == d.away + d.extraAway
  }

  /**
   * Regulation goals in 0..3 and extra-time goals in 0..1 each; every
   * shoot-out round the code may reach is in 3..5 per side, and the stream
   * eventually separates the sides when a shoot-out happens.
   */
  predicate TournamentFits(knockout: bool, d: Draws)
  {
    d.TournamentDraws? &&
    0 <= d.home <= 3 && 0 <= d.away <= 3 &&
    0 <= d.extraHome <= 1 && 0 <= d.extraAway <= 1 &&
    (PenaltiesReached(knockout, d) ==>
      Decides(d.shootout) &&
      forall j :: 0 <= j <= FirstUnequal(d.shootout) ==> PenaltyPair(d.shootout[j]))
  }

  function TournamentOutcome(knockout: bool, d: Draws): (r: Outcome)
    requires TournamentFits(knockout, d)
    // extra time exactly for a level knockout match
    ensures r.extraTime <==> knockout && d.home == d.away
    // penalties only after extra time, and only when still level
    ensures r.penalties ==> r.extraTime && r.home == r.away
    ensures r.extraTime && r.home == r.away ==> r.penalties
    // the recorded score never includes the shoot-out
    ensures r.home == d.home + (if r.extraTime then d.extraHome else 0)
    ensures r.away == d.away + (if r.extraTime then d.extraAway else 0)
    ensures 0 <= r.home <= 4 && 0 <= r.away <= 4
    ensures r.shootout.Some? <==> r.penalties
    ensures r.shootout.Some? ==> r.shootout.value.0 != r.shootout.value.1 && PenaltyPair(r.shootout.value)
  {
    if ExtraTimeReached(knockout, d) then
      var h, a := d.home + d.extraHome, d.away + d.extraAway;
      if h == a then
        Outcome(h, a, true, true, Some(d.shootout[FirstUnequal(d.shootout)]))
      else
        Outcome(h, a, true, false, None)
    else
      Outcome(d.home, d.away, false, false, None)
  }

  /** A knockout tie always produces a side that goes through. */
  lemma KnockoutDecided(d: Draws)
    requires TournamentFits(true, d)
    ensures var r := TournamentOutcome(true, d);
      r.home != r.away || (r.shootout.Some? && r.shootout.value.0 != r.shootout.value.1)
  {
  }

  /** Without the knockout flag a tournament match can end level, with no extra time. */
  lemma NonKnockoutMayDraw()
    ensures var d := TournamentDraws(1, 1, 0, 0, []);
      TournamentFits(false, d) && TournamentOutcome(false, d).home == TournamentOutcome(false, d).away
      && !TournamentOutcome(false, d).extraTime
  {
  }
}
