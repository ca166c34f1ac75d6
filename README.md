# Club management core, modelled in Dafny

This project models the logic of a sports-club management application. It has three parts:

- **The match engine** (`modules/match_point`):
  - teams and their season statistics, stadiums and referees;
  - the match lifecycle;
  - the friendly, league and tournament simulations, including the home advantage, extra time and the penalty shoot-out;
  - the match registry, with its factory, filters and bulk simulation;
  - the stably sorted league table.
- **The finance layer** (`modules/finance`):
  - the income and expense enumerations and their business rules;
  - the transaction record;
  - the late-fee, tax and salary calculators;
  - the ledger service: add, delete, update, summary and per-category breakdown;
  - the analyzer: period reports, the cost charged to one athlete, budget status and search.
- **The athlete layer** (`modules/PlayerInfo`, `modules/information`):
  - the professional, amateur and youth decision rules: cost, contract renewal, local transfers, age groups and scholarships;
  - the two athlete base classes with their guarded setters;
  - the list-backed athlete repository;
  - the two athlete services, one over dictionaries and one over objects.

How the model represents the source:

- Objects whose fields the source updates in place are Dafny classes with `modifies` frames.
- Rules that only compute a value are functions.
- Loops are methods with invariants, each proved equal to a specification function.
- Python's `random`, `uuid` and `datetime.now()` results become parameters. Their ranges are stated as preconditions.
- Every JSON store becomes an in-memory sequence of records.
- Python values whose type the code tests at run time (`isinstance`, truthiness, `str()`) are modelled with a small `Value` datatype. In it, `bool` counts as an `int`.

Module layout:

| file | module | models |
|---|---|---|
| common.dfy | Common | Option/Result, Python values and errors, string helpers (`lower`, `upper`, `in`, `split`, `strip`, `isdigit`, `int()`, `float()`) |
| entities.dfy | Entities | modules/match_point/entities.py |
| simulation.dfy | Simulation | the three `simulate_match` algorithms as functions of their draws |
| matches.dfy | Matches | modules/match_point/base.py and the match classes of implementation.py |
| match_manager.dfy | MatchService | both `MatchManager` classes |
| standings.dfy | Standings | `LeagueTable` |
| finance_rules.dfy | FinanceRules | json_db_rules.py, constants.py and the finance error codes |
| transaction.dfy | Ledger | transaction.py and sums over records |
| finance_manager.dfy | FinanceService | manager.py |
| dates.dfy | Dates | the `%d-%m-%Y` dates that `strptime`/`strftime` read and write, and day arithmetic |
| calculator.dfy | Calculators | calculator.py |
| analyzer.dfy | Analysis | analyzer.py |
| athlete_rules.dfy | AthleteRules | modules/PlayerInfo/implementations2.py |
| athlete_info.dfy | AthleteInfo | modules/information/base.py |
| athlete_profiles.dfy | AthleteProfiles | modules/information/BaseFile/base.py |
| athlete_store.dfy | AthleteStore | modules/information/repository.py |
| athlete_services.dfy | AthleteServices | modules/information/services.py |
| profile_services.dfy | ProfileServices | modules/information/BaseFile/services.py |

## Model

| member | source | states |
|---|---|---|
| Entities.Tally | modules/match_point/entities.py:148-162 | One result adds exactly one match played and adds the goals for and against. Exactly one of won, drawn and lost goes up, by one. Points go up by 3 for a win, 1 for a draw and 0 for a loss. The standings invariant is preserved. |
| Entities.TallyAll | modules/match_point/entities.py:148-162 | After n results, played has grown by n and points by at most 3n. The standings invariant is preserved. |
| Entities.TallyAllGoalDifference | modules/match_point/entities.py:164-166 | The goal difference moves by exactly the sum of the goal margins of the recorded results. |
| Entities.MatchGoalDifferencesCancel | modules/match_point/entities.py:148-166 | One match moves the two teams' goal differences by opposite amounts, and the home side's goes up exactly when it scored more. |
| Entities.TallyAllAppend | modules/match_point/entities.py:148-162 | Recording two batches of results one after the other is recording them all, in order. |
| Entities.SeasonFromFresh | modules/match_point/entities.py:139-162 | From a fresh team, any sequence of results gives played == won + drawn + lost == number of results and points == 3·won + drawn. The goal difference equals the summed margin. |
| Entities.TallyCommutes | modules/match_point/entities.py:148-162 | The order in which two results are recorded does not change the statistics. |
| Entities.ObjectCounter.constructor | modules/match_point/base.py:7 | A class-level object count starts at zero. |
| Entities.ObjectCounter.Increment | modules/match_point/base.py:95-97 | The count grows by exactly one. |
| Entities.Stadium.constructor | modules/match_point/entities.py:7-15 | All arguments are stored unchecked, and the surface type defaults to "Grass". The stadium is not under maintenance, and the stadium count grows by one. |
| Entities.Stadium.ValidateCapacity | modules/match_point/entities.py:19-23 | A capacity is valid exactly when it is not negative. |
| Entities.Stadium.SetName | modules/match_point/entities.py:40-44 | The name changes only to a name longer than two characters. Otherwise the old name is kept. |
| Entities.Stadium.SetCapacity | modules/match_point/entities.py:55-57 | A negative capacity is ignored. Any other capacity is stored. |
| Entities.Stadium.SetMaintenanceStatus | modules/match_point/entities.py:68-71 | Only a genuine bool changes the maintenance flag. |
| Entities.Stadium.FullInfo | modules/match_point/entities.py:73-74 | The text starts with the name and ends with " Kişilik". |
| Entities.Referee.constructor | modules/match_point/entities.py:84-90 | The arguments are stored and the officiated-match count starts at 0. |
| Entities.Referee.FullName | modules/match_point/entities.py:97-98 | The first name, one space, then the last name. |
| Entities.Referee.SetLicenseLevel | modules/match_point/entities.py:109-114 | Only FIFA, National, Regional or Amateur replaces the level. |
| Entities.Referee.IncrementMatchCount | modules/match_point/entities.py:119-120 | The officiated-match count grows by exactly one. |
| Entities.Team.constructor | modules/match_point/entities.py:131-145 | All seven counters start at zero, so points and goal difference are 0. |
| Entities.Team.UpdateStats | modules/match_point/entities.py:148-162 | The counters move as `Tally` says, and the standings invariant is kept. |
| Entities.Team.StatsString | modules/match_point/entities.py:187-190 | The line starts with the short code padded to five characters. |
| Entities.Team.ColorsText | modules/match_point/entities.py:181-182 | No colours give "", one colour gives itself, and otherwise the text starts with the first colour and is as long as all colours plus one ", " between each pair. |
| Simulation.FriendlyOutcome | modules/match_point/implementation.py:32-33 | Both goal counts are in 0..5, with no extra time and no penalties. |
| Simulation.LeagueOutcome | modules/match_point/implementation.py:97-111 | With unequal powers, the stronger side scores 1..4 and the other side scores fewer. With equal powers, both sides get the same score in 0..2. |
| Simulation.HomeAdvantage | modules/match_point/implementation.py:97-108 | The home side loses only when the away roll beats the home roll by three or more. A home roll of 9 or 10 always wins. |
| Simulation.FirstUnequal | modules/match_point/implementation.py:187-189 | The shoot-out stops at the first pair of tallies that differ, and every earlier pair is level. |
| Simulation.TournamentOutcome | modules/match_point/implementation.py:166-197 | Extra time is played exactly when the match is a knockout and regulation ends level. Penalties are taken only after extra time and only when still level, and then the winning pair is unequal and in 3..5. The recorded score never includes the shoot-out. |
| Simulation.KnockoutDecided | modules/match_point/implementation.py:170-192 | A knockout match always produces a side that goes through. |
| Simulation.NonKnockoutMayDraw | modules/match_point/implementation.py:171 | Without the knockout flag, a tournament match can end level with no extra time. |
| Matches.ParseScore | modules/match_point/implementation.py:127-128 | The parts are read left to right. ValueError happens exactly when the first part is not a numeral, or when a second part exists and is not one. IndexError happens exactly when the first part is a numeral and there is no "-". Otherwise the two numbers are returned. |
| Matches.ParseScoreChecksFirstPartFirst | modules/match_point/implementation.py:127-128 | "abc" and "" raise ValueError, not IndexError. "3" raises IndexError. |
| Matches.ScoreRoundTrip | modules/match_point/implementation.py:113-128 | The score text the simulations write reads back as the same two numbers. |
| Matches.LeagueVerdict | modules/match_point/implementation.py:127-132 | For any score written as "h-a", the verdict names the home side or the away side with 3 points, or reports a draw with 1 point. |
| Matches.Resolve | modules/match_point/implementation.py:25-202 | The outcome of any kind has non-negative goals. Penalties occur only in a tournament and only after extra time. |
| Matches.Match.constructor | modules/match_point/base.py:9-24 | A new match stores the given id, teams, date and kind, with its type name. It starts "Scheduled" with score "0-0", and the match count grows by one. |
| Matches.Match.ValidateTeams | modules/match_point/base.py:105-111 | False exactly when home and away are the same team. |
| Matches.Match.SetMatchId | modules/match_point/base.py:50-51 | Stores the id and changes no other field. |
| Matches.Match.SetHomeTeam | modules/match_point/base.py:56-57 | Stores the home team and changes no other field. |
| Matches.Match.SetAwayTeam | modules/match_point/base.py:62-63 | Stores the away team and changes no other field. |
| Matches.Match.SetMatchType | modules/match_point/base.py:68-69 | Stores the type and changes no other field. |
| Matches.Match.SetDateTime | modules/match_point/base.py:74-75 | Stores the date and changes no other field. |
| Matches.Match.SetScore | modules/match_point/base.py:88-89 | Stores the score verbatim and changes no other field. |
| Matches.Match.UpdateStatus | modules/match_point/base.py:81-83 | Stores the status verbatim and changes no other field. Every kind's `update_status` forwards here. |
| Matches.Match.SetTicketPrice | modules/match_point/implementation.py:60-64 | A negative price is refused and the old price kept. |
| Matches.Match.SetCharityEvent | modules/match_point/implementation.py:69-71 | Only a genuine bool is stored. |
| Matches.Match.Simulate | modules/match_point/implementation.py:25-202 | The score becomes "h-a" of the outcome and the status becomes Finished. Home records (h, a) and away records (a, h). A league referee's count grows by exactly one. The extra-time and penalty flags follow the outcome. |
| Matches.Match.Shootout | modules/match_point/implementation.py:186-189 | The penalty loop returns the first pair of the stream whose tallies differ. |
| Matches.Match.CalculatePoints | modules/match_point/implementation.py:123-132 | A league match that is not Finished gives "Maç bitmedi."; a finished one gives the score's verdict. A friendly gives its fixed no-points text and a tournament gives the round text. |
| Matches.Match.MatchInfo | modules/match_point/implementation.py:207-211 | The per-kind summary line. A tournament line gets " (UZ)" exactly after extra time and " (PEN)" exactly after penalties. |
| Matches.FirstUnequalIsUnique | modules/match_point/implementation.py:187-189 | The first unequal pair is determined by its position. |
| Matches.SimulatedLeagueVerdict | modules/match_point/implementation.py:97-132 | A simulated league match, read back by `calculate_points`, names the side with more power as the 3-point winner, or a draw for equal powers. |
| MatchService.MatchError.Code | modules/match_point/exceptions.py:23-37 | SameTeamError carries code 101 and MissingTeamError carries code 102. |
| MatchService.RequestedKind | modules/match_point/services.py:37-52 | A match is built exactly for Friendly, for Tournament, and for League when a referee is given. The type name matches the request. League defaults to week 1, and Tournament defaults to round "Eleme" with knockout. |
| MatchService.WithStatus | modules/match_point/services.py:65 | It keeps every match with the status, and no other match. |
| MatchService.WithStatusInOrder | modules/match_point/services.py:65 | The selected matches keep their list order. |
| MatchService.OfTeam | modules/match_point/services.py:80-88 | It keeps every match whose home or away name contains the key, and no other match. |
| MatchService.OfTeamInOrder | modules/match_point/services.py:80-88 | The collected matches keep their list order. |
| MatchService.CountIsFilterLength | modules/match_point/services.py:64-74 | The number `simulate_all_scheduled` counts equals the length of `get_matches_by_status("Scheduled")`. |
| MatchService.MatchManager.constructor | modules/match_point/services.py:15-16 | The registry starts empty. |
| MatchService.MatchManager.Schedule | modules/match_point/services.py:54-57 | Exactly one fresh Scheduled match with score "0-0" is appended at the end. |
| MatchService.MatchManager.CreateMatch | modules/match_point/services.py:18-59 | A missing team gives MissingTeamError and equal team names give SameTeamError, and neither registers anything. Otherwise the requested kind, if any, is appended once with the drawn id, and nothing changes when there is none. |
| MatchService.MatchManager.CreateMatchQuiet | modules/match_point/implementation.py:229-263 | Returns a match exactly when both teams are present and the kind can be built. A missing team, a League request with no referee or an unknown type returns None and appends nothing. |
| MatchService.MatchManager.MatchesByStatus | modules/match_point/services.py:64-65 | The registered matches with the status, in insertion order: every such match is kept, and no other. |
| MatchService.MatchManager.SimulateAllScheduled | modules/match_point/services.py:67-74 | Every match that was Scheduled is simulated once on its own draws. It ends Finished with its outcome's score, and its extra-time and penalty flags are set as the outcome says. Every other match keeps its status, score and flags. Each team's statistics record, in list order, the results of the Scheduled matches it played. Each league referee's count grows by the number of Scheduled matches it officiates. The count equals the number that were Scheduled. |
| MatchService.MatchManager.Step | modules/match_point/services.py:70-73 | One loop iteration extends the sweep by one match: the matches, team statistics and referee counts are those of the first i + 1 matches swept. |
| MatchService.MatchManager.PlayIfScheduled | modules/match_point/services.py:71-73 | A Scheduled match is simulated and reported: it is Finished with its outcome's score and flags, both teams record the result, and a league referee counts one more match. Any other match, team and referee is left untouched. |
| MatchService.StatsAfterRecords | modules/match_point/services.py:71-73 | Playing one match changes a team's statistics exactly as recording that team's results from the match, home first. |
| MatchService.SweptStatsInOrder | modules/match_point/services.py:69-73 | After the sweep, a team's statistics are its earlier statistics with the results of its Scheduled matches recorded in list order. |
| MatchService.SweptStatsCounts | modules/match_point/services.py:69-73 | The sweep adds one played match per appearance in a Scheduled match, and keeps the statistics consistent. |
| MatchService.SweepStarts | modules/match_point/services.py:67-69 | Before the loop, every match, team and referee stands as the snapshot taken at the start. |
| MatchService.Advance | modules/match_point/services.py:70-73 | Playing or skipping match n, with its teams and referee updated and nothing else changed, moves the sweep from n steps to n + 1. |
| MatchService.MatchManager.MatchesOfTeam | modules/match_point/services.py:78-88 | The matches, in insertion order and without duplicates, whose lower-cased home or away name contains the lower-cased name. |
| Standings.SortByRank | modules/match_point/services.py:98-102 | The result is ordered by (points, goal difference), highest first, and is a permutation of the input. |
| Standings.InsertRankedKeepsRanked | modules/match_point/services.py:98-102 | Inserting an entry into a ranked table keeps it ranked. |
| Standings.SortIsStable | modules/match_point/services.py:98-102 | For every key, the entries with that key come out in their input order. |
| Standings.RowOf | modules/match_point/services.py:111-121 | A row shows the position and the name cut to 19 characters. Played equals w + d + l, which equals the team's played count when its statistics are consistent. It also shows the goal difference and the points. |
| Standings.RowsOf | modules/match_point/services.py:109-121 | The rows are numbered from 1, one per sorted team. |
| Standings.Ranking | modules/match_point/services.py:98-102 | The teams in table order: ranked, and a permutation of the team list. |
| Standings.RankingIsStable | modules/match_point/services.py:98-102 | Teams level on points and goal difference keep the order of the team list. |
| Standings.Table | modules/match_point/services.py:95-121 | One row per team, in ranking order, with points and goal difference never increasing down the table. |
| FinanceRules.CategoryValuesComplete | modules/finance/data/json_db_rules.py:31-40 | The value lists hold exactly the values of the category enumerations. |
| FinanceRules.FinanceError.Code | modules/finance/exceptions/errors.py:9-37 | Each finance error carries its code: 1001 to 1005, and 1002, 1004 and 1005 for amount, limit and category errors. |
| FinanceRules.CheckBusinessLimits | modules/finance/data/json_db_rules.py:16-26 | A non-positive amount is refused first, then an amount above 10,000,000. The limit itself passes. |
| FinanceRules.ValidateCategoryConsistency | modules/finance/data/json_db_rules.py:29-42 | "Gelir" passes exactly with an income category and "Gider" exactly with an expense category. Any other type passes. The only error is CategoryMismatch. |
| FinanceRules.CategoriesDisjoint | modules/finance/data/constants.py:9-25 | No category is both an income and an expense category. |
| Ledger.NewTransaction | modules/finance/data/transaction.py:8-20 | It fails exactly when the amount is not a number in plain decimal notation. The id is 8 characters of the UUID. A blank description becomes "Açıklama belirtilmedi." and any other is kept verbatim. |
| Ledger.ToDict | modules/finance/data/transaction.py:22-33 | Exactly the six Turkish keys, each mirroring its field, with no "id" key. |
| Ledger.RecordOf | modules/finance/data/transaction.py:22-33 | The stored record mirrors every field, with the identifier under `id`. |
| Ledger.SumOfKindAppend | modules/finance/services/manager.py:113-114 | Appending a record adds its amount to its own type's total only. |
| Ledger.SumOfKindNonNegative | modules/finance/services/manager.py:113-114 | With positive amounts on record, every type's total is at least zero. |
| Ledger.AddAmount | modules/finance/services/manager.py:130 | `m[key] = m.get(key, 0) + amount` changes only that key. |
| Ledger.TotalsSnoc | modules/finance/services/manager.py:128-130 | One more pair updates only its own key. |
| Ledger.TotalsAreSums | modules/finance/services/manager.py:127-131 | There is a key exactly for each key that occurs, and it holds the sum of that key's amounts. |
| FinanceService.Without | modules/finance/services/manager.py:55 | Exactly the records without the id, and never more records than before. |
| FinanceService.WithoutKeepsOrder | modules/finance/services/manager.py:55 | The records that stay keep their order. |
| FinanceService.WithoutLength | modules/finance/services/manager.py:55-57 | The filter drops exactly the records carrying the id. |
| FinanceService.WithoutKeepsAll | modules/finance/services/manager.py:55-58 | Nothing is dropped exactly when no record carries the id. |
| FinanceService.WithoutNoMatch | modules/finance/services/manager.py:55-58 | With no matching record, the filter returns the list unchanged. |
| FinanceService.FirstWithId | modules/finance/services/manager.py:74-85 | The position of the first record with the id, or none when no record has it. |
| FinanceService.SummaryOf | modules/finance/services/manager.py:113-119 | balance == income − expense. |
| FinanceService.SummaryOfAppend | modules/finance/services/manager.py:113-118 | An income raises income and balance by its amount. An expense raises expense and lowers the balance. Any other type changes nothing. |
| FinanceService.BreakdownEntries | modules/finance/services/manager.py:128-130 | Each record is paired with its "tip - kategori" key and amount. |
| FinanceService.FinanceManager.constructor | modules/finance/services/manager.py:12-14 | Starts from the stored records. |
| FinanceService.FinanceManager.AddTransaction | modules/finance/services/manager.py:17-48 | An amount that is not a number in plain decimal notation gives "Hata: Tutar sayısal olmalıdır.". The limit check runs before the category check, and each failure is reported as blocked. Success happens exactly when all three checks pass, and then exactly one record is appended. On failure nothing is stored. |
| FinanceService.FinanceManager.DeleteTransaction | modules/finance/services/manager.py:51-66 | Succeeds exactly when some record has the id, and then every such record is removed. Otherwise it reports "Silinecek kayıt bulunamadı." and the store is untouched. |
| FinanceService.FinanceManager.UpdateTransaction | modules/finance/services/manager.py:69-98 | Only the first record with the id is edited. A missing id gives NotFound. A new amount that is not a number in plain decimal notation, or that breaks the limits, aborts before any write. |
| FinanceService.FinanceManager.FinancialSummary | modules/finance/services/manager.py:110-121 | The income and expense totals and their difference over the stored records. |
| FinanceService.FinanceManager.CategoryBreakdown | modules/finance/services/manager.py:124-133 | The loop's map equals the per-key totals, and each key holds the sum of its amounts. |
| FinanceService.BreakdownKeys | modules/finance/services/manager.py:127-131 | A key is present exactly when some record is filed under it. |
| FinanceService.DeleteAsWrittenNeverSucceeds | modules/finance/services/manager.py:51-66 | Over the dictionaries `to_dict` writes, no delete ever succeeds, and a non-empty store reports "Silme Hatası: 'id'". |
| FinanceService.DeleteByIdRemoves | modules/finance/services/manager.py:55-62 | With the id stored as `id`, deleting a stored transaction removes it. |
| FinanceService.UpdateAsWrittenNeverSucceeds | modules/finance/services/manager.py:69-98 | Over the dictionaries `to_dict` writes, every update of a non-empty store fails with "Hata: 'id'". |
| Dates.ParseDate | modules/finance/services/analyzer.py:26 | `strptime(…, "%d-%m-%Y")` accepts only an existing date of three dash-separated fields. |
| Dates.FormatDate | modules/finance/data/transaction.py:13 | The `%d-%m-%Y` text of a date is 10 characters long. |
| Dates.ParseFormatDate | modules/finance/services/analyzer.py:26 | Parsing what `strftime` wrote gives the same date back. |
| Dates.OrdinalNextDay | modules/finance/services/calculator.py:125 | Consecutive dates have consecutive day numbers. |
| Dates.Midnight | modules/finance/services/calculator.py:124-125 | Midnight of a date is a whole number of days, namely the date's day number. |
| Dates.DaysSince | modules/finance/services/calculator.py:125-126 | `timedelta.days` is the whole number of days, rounded down. |
| Calculators.RoundHalfEven | modules/finance/services/calculator.py:118 | The nearest integer, with ties going to the even one. |
| Calculators.Round2 | modules/finance/services/calculator.py:118 | `round(x, 2)` is within half a cent and a whole number of cents. |
| Calculators.Round2Monotone | modules/finance/services/calculator.py:118 | Rounding never reverses the order of two amounts. |
| Calculators.Round2OfCents | modules/finance/services/calculator.py:118 | An amount in whole cents is unchanged. |
| Calculators.ValidateAmount | modules/finance/services/calculator.py:45-54 | A non-number raises InvalidDataType and a negative number raises InvalidAmount. Zero and positive values come back unchanged. |
| Calculators.NewCurrency | modules/finance/services/calculator.py:32-41 | A non-string or a length other than 3 is refused. Otherwise the upper-cased code is stored. |
| Calculators.CurrencySetting.constructor | modules/finance/services/calculator.py:14 | The currency starts as "TRY". |
| Calculators.CurrencySetting.SetCurrency | modules/finance/services/calculator.py:31-41 | An accepted code is stored. A refused code raises and keeps the old one. |
| Calculators.SetCurrencyIdempotent | modules/finance/services/calculator.py:32-41 | Setting the stored code again changes nothing. |
| Calculators.CheckRate | modules/finance/services/calculator.py:73-80 | A rate is accepted exactly when it is a number in [0, 1], with a type error for a non-number and a rate error otherwise. |
| Calculators.ActiveRate | modules/finance/services/calculator.py:112-115 | The penalty rate applies past 180 days and the daily rate up to 180. |
| Calculators.Interest | modules/finance/services/calculator.py:117 | The interest is never negative. |
| Calculators.InterestMonotone | modules/finance/services/calculator.py:117 | More days or a higher rate never earn less interest. |
| Calculators.LateFee | modules/finance/services/calculator.py:108-118 | No delay owes the amount itself. Any delay owes at least the rounded amount. |
| Calculators.LateFeeMonotone | modules/finance/services/calculator.py:112-118 | Within one tier, a longer delay never owes less. |
| Calculators.PenaltyTierNotCheaper | modules/finance/services/calculator.py:112-118 | When the penalty rate is the higher one, day 181 never owes less than day 180. |
| Calculators.LateFeeCalculator.constructor | modules/finance/services/calculator.py:60-64 | Stores two rates already accepted by the setters. |
| Calculators.LateFeeCalculator.Create | modules/finance/services/calculator.py:60-64 | The daily rate is checked before the penalty rate, and the first refusal is raised. |
| Calculators.LateFeeCalculator.CreateDefault | modules/finance/services/calculator.py:60 | The defaults are 0.5% and 2%. |
| Calculators.LateFeeCalculator.CreateStrict | modules/finance/services/calculator.py:131-133 | The strict rates are 1% and 5%. |
| Calculators.LateFeeCalculator.SetDailyRate | modules/finance/services/calculator.py:72-80 | A refused rate raises and keeps the old one. |
| Calculators.LateFeeCalculator.SetPenaltyRate | modules/finance/services/calculator.py:88-96 | A refused rate raises and keeps the old one. |
| Calculators.LateFeeCalculator.Calculate | modules/finance/services/calculator.py:99-118 | The amount is validated before the day count, and a non-int `days_late` raises. A missing `days_late` counts as 0. On success the result is the tiered late fee. |
| Calculators.LateFeeStandardExample | modules/finance/services/calculator.py:117-118 | 1000 owed for 30 days at the default rates is 1150. |
| Calculators.LateFeePenaltyExample | modules/finance/services/calculator.py:112-118 | 1000 owed for 200 days is 5000. |
| Calculators.LateFeeNoDelayExample | modules/finance/services/calculator.py:108-109 | No delay leaves 500 at 500. |
| Calculators.DaysOverdue | modules/finance/services/calculator.py:122-129 | A text that is not a `%d-%m-%Y` date raises InvalidDateFormat. Otherwise the result is the whole days since the due date's midnight, and never negative. |
| Calculators.DaysOverdueNextDay | modules/finance/services/calculator.py:124-126 | Any moment of the day after the due date is one day overdue. |
| Calculators.DaysOverdueOnTime | modules/finance/services/calculator.py:124-126 | Before the due date ends, nothing is overdue. |
| Calculators.CheckTaxRate | modules/finance/services/calculator.py:146-150 | A number in [0, 1] is accepted. Another number raises InvalidRate and a non-number raises TypeError. |
| Calculators.NetOfTax | modules/finance/services/calculator.py:153-156 | The net amount lies between zero and the rounded gross. |
| Calculators.NetOfTaxExample | modules/finance/services/calculator.py:153-156 | 10000 at 18% nets 8200. |
| Calculators.TaxDeductionCalculator.constructor | modules/finance/services/calculator.py:138-140 | Stores a rate already accepted by the setter. |
| Calculators.TaxDeductionCalculator.Create | modules/finance/services/calculator.py:138-140 | The rate passes through the setter's check. |
| Calculators.TaxDeductionCalculator.CreateDefault | modules/finance/services/calculator.py:138 | The default rate is 18%. |
| Calculators.TaxDeductionCalculator.CreateCorporate | modules/finance/services/calculator.py:164-166 | The corporate rate is 20%. |
| Calculators.TaxDeductionCalculator.SetTaxRate | modules/finance/services/calculator.py:146-150 | A refused rate raises and keeps the old one. |
| Calculators.TaxDeductionCalculator.Calculate | modules/finance/services/calculator.py:153-156 | Fails exactly when the amount is invalid. Otherwise it returns the net of tax, between 0 and the rounded gross. |
| Calculators.TaxBracketInfo | modules/finance/services/calculator.py:158-162 | The high bracket applies above 100000 and the standard one otherwise. A non-number raises TypeError. |
| Calculators.NetSalary | modules/finance/services/calculator.py:177-184 | The net is 72.25% of the gross, rounded. It is never negative and is strictly below any gross of at least 0.02. |
| Calculators.NetSalaryExample | modules/finance/services/calculator.py:177-184 | A gross of 20000 nets 14450. |
| Calculators.EstimateAnnualCost | modules/finance/services/calculator.py:186-193 | Twelve times the validated gross. The validation error passes through. |
| Analysis.IsDateInRange | modules/finance/services/analyzer.py:22-29 | A blank text raises IndexError. An unparseable date is out of range. Otherwise the date is in range exactly when start ≤ its midnight ≤ end. |
| Analysis.TimestampInRange | modules/finance/services/analyzer.py:26-27 | A stored timestamp is in range exactly when midnight of its date is. |
| Analysis.PeriodDays | modules/finance/services/analyzer.py:41-48 | The windows are 7, 30 and 365 days, and any other period is unknown. |
| Analysis.CollectSucceeds | modules/finance/services/analyzer.py:56-67 | Records with non-blank dates and known types are collected without error. |
| Analysis.CollectFailsOnUnknownType | modules/finance/services/analyzer.py:59-64 | An in-range record of any other type makes the report raise. |
| Analysis.InRange | modules/finance/services/analyzer.py:56-67 | There are at most as many pairs as records. |
| Analysis.InRangeKeeps | modules/finance/services/analyzer.py:56-62 | Every in-range record of the type contributes its category and amount. |
| Analysis.InRangeSource | modules/finance/services/analyzer.py:56-62 | Every pair comes from an in-range record of the type. |
| Analysis.CollectFiles | modules/finance/services/analyzer.py:56-67 | The loop raises exactly when some record has a blank date or an in-range record has an unknown type. Otherwise it files, in ledger order, exactly the in-range income records under income and the in-range expense records under expense. |
| Analysis.InRangeHasCategory | modules/finance/services/analyzer.py:56-67 | A category occurs among the filed pairs exactly when some in-range record of the type has it. |
| Analysis.KindTotals | modules/finance/services/analyzer.py:63-67 | The totals of one type hold a category exactly when an in-range record of the type has it, and then hold the sum of its amounts. |
| Analysis.PeriodReportOf | modules/finance/services/analyzer.py:32-70 | An unknown period gives the empty report. Otherwise the report raises exactly when some record has a blank date or an in-range record has an unknown type. Else its income and expense parts are the per-category totals of the in-range income and expense records. |
| Analysis.ReportTotals | modules/finance/services/analyzer.py:56-67 | A category appears in a part of the report exactly when some in-range record of that type has it. It then holds the sum of those records' amounts. |
| Analysis.AthleteExpenses | modules/finance/services/analyzer.py:82-88 | It keeps every expense record whose description contains the id, and no other record. |
| Analysis.AthleteExpensesInOrder | modules/finance/services/analyzer.py:82-88 | Those records keep the ledger's order. |
| Analysis.AthleteCostIsExpenseShare | modules/finance/services/analyzer.py:82-87 | One athlete's cost lies between zero and the total expense. |
| Analysis.SearchResults | modules/finance/services/analyzer.py:119-127 | It keeps every record whose id, category, date or description contains the term, and no other record. |
| Analysis.SearchResultsInOrder | modules/finance/services/analyzer.py:119-127 | The results keep the ledger's order. |
| Analysis.EmptySearchFindsAll | modules/finance/services/analyzer.py:121-124 | The empty term finds every record. |
| Analysis.BudgetStatusOf | modules/finance/services/analyzer.py:98-112 | "KÂR" exactly when income exceeds expense, "ZARAR (BÜTÇE AÇIĞI)" exactly when it falls short, and "DENK" exactly when they are equal. The net balance is income − expense. |
| Analysis.ReportOverRange | modules/finance/services/analyzer.py:56-67 | The loop's running totals equal the collected report, or the first error. |
| Analysis.FinancialAnalyzer.constructor | modules/finance/services/analyzer.py:8-13 | The language starts as "TR" and the cache starts empty. |
| Analysis.FinancialAnalyzer.SetReportLanguage | modules/finance/services/analyzer.py:16-19 | Only "TR" or "EN" changes the language. |
| Analysis.FinancialAnalyzer.AnalyzeByPeriod | modules/finance/services/analyzer.py:32-70 | Returns the period report. It is cached under "period_<name>" only when it is computed for a known period. |
| Analysis.FinancialAnalyzer.CalculateAthleteTotalCost | modules/finance/services/analyzer.py:73-95 | The matching expenses, their count and their total. |
| Analysis.FinancialAnalyzer.SearchTransactions | modules/finance/services/analyzer.py:115-127 | The loop returns exactly the matching records in order. |
| Analysis.SearchAsWrittenFails | modules/finance/services/analyzer.py:115-127 | Over the dictionaries `to_dict` writes, searching any non-empty store raises KeyError('id'). |
| AthleteRules.SideOrRandom | modules/PlayerInfo/implementations2.py:128-130 | A given, non-empty side is kept. Otherwise the drawn side is used. |
| AthleteRules.CalculateCost | modules/PlayerInfo/implementations2.py:14-17 | A professional costs between 1.15 and 1.20 times the salary. An amateur always costs 2250 and a youth costs the scholarship. |
| AthleteRules.ProfessionalCostTiers | modules/PlayerInfo/implementations2.py:34-37 | Tax is 20% of a salary above 500000 and 15% otherwise, on top of the salary. |
| AthleteRules.ProfessionalCostMonotone | modules/PlayerInfo/implementations2.py:14-17 | A higher salary never costs less. |
| AthleteRules.StrongSideLabel | modules/PlayerInfo/implementations2.py:19-27 | A branch containing "football" gets "Preferred Foot". One containing basketball or volleyball gets "Shooting Hand", and any other branch gets "Dominant Side". |
| AthleteRules.StrongSideIgnoresCase | modules/PlayerInfo/implementations2.py:20 | The label does not depend on the case of the branch. |
| AthleteRules.StrongSideFootballExample | modules/PlayerInfo/implementations2.py:21-22 | "Football" with "Left" gives "Preferred Foot : Left". |
| AthleteRules.RenewalTerms | modules/PlayerInfo/implementations2.py:54-63 | A rating of 8.5 or more gives ×1.25 for 3 years, one of 6.0 or more gives ×1.10 for 2 years, and anything lower gives ×0.90 for 1 year. |
| AthleteRules.RenewalRewardsRating | modules/PlayerInfo/implementations2.py:54-63 | A higher rating never lowers the raise or the duration. |
| AthleteRules.ContractEnd | modules/PlayerInfo/implementations2.py:65 | The end date ends in "-06-30". |
| AthleteRules.RenewContract | modules/PlayerInfo/implementations2.py:39-82 | None exactly when age ≥ 38 or fewer than 20 matches were played. Otherwise the result has age + 1, status "Active", the tiered salary and the end date current year + duration. |
| AthleteRules.RenewedSalaryMonotone | modules/PlayerInfo/implementations2.py:54-63 | A better rating never renews at a lower salary. |
| AthleteRules.TransportSupported | modules/PlayerInfo/implementations2.py:106-108 | True exactly for distances above 10. |
| AthleteRules.LicenseNumber | modules/PlayerInfo/implementations2.py:126 | "TUR-", the upper-cased first three letters of the branch, "-", then three digits. |
| AthleteRules.LicenseTennisExample | modules/PlayerInfo/implementations2.py:126 | A tennis licence starts with "TUR-TEN". |
| AthleteRules.TransferFromLocalClub | modules/PlayerInfo/implementations2.py:110-142 | None exactly without clearance or with more than 5 penalty points. Otherwise the result is an active amateur with the drawn id, the licence and the side. |
| AthleteRules.AgeCategoryAsWritten | modules/PlayerInfo/implementations2.py:169-175 | As written, the limits are 10, 13, 15, 17 and 19. |
| AthleteRules.AgeCategoryAsWrittenPlacesTwelveInU12 | modules/PlayerInfo/implementations2.py:171 | As written, 12 falls in "U12", 14 in "U14" and 16 in "U16". |
| AthleteRules.AgeCategory | modules/PlayerInfo/implementations2.py:169-175 | The group is chosen by the limits 10, 12, 14, 16 and 19. |
| AthleteRules.AgeCategoryNamesItsLimit | modules/PlayerInfo/implementations2.py:169-175 | "U12" holds exactly ages 10–11, "U14" ages 12–13, "U16" ages 14–15 and "U19" ages 16–18, so 12 is in "U14". |
| AthleteRules.GroupIndexMonotone | modules/PlayerInfo/implementations2.py:169-175 | An older athlete is never placed in a younger group. |
| AthleteRules.Scholarship | modules/PlayerInfo/implementations2.py:186-197 | An exam score of 90 or more gives 10000, 75 or more gives 5000, and anything lower gives 0. A sibling adds 1000. |
| AthleteRules.ScholarshipMonotone | modules/PlayerInfo/implementations2.py:189-197 | A higher score never gives less, and a sibling adds exactly 1000. |
| AthleteRules.RegisterWithScholarship | modules/PlayerInfo/implementations2.py:177-213 | None exactly when age ≥ 18. Otherwise the result is an active youth with the scholarship, the guardian, the branch (defaulting to "General") and the side. |
| AthleteRules.ScholarshipExample | modules/PlayerInfo/implementations2.py:186-197 | A 12-year-old with exam score 95 and a sibling gets 11000. |
| AthleteInfo.AthleteBase.constructor | modules/information/base.py:5-10 | The five fields are stored unchecked. |
| AthleteInfo.AthleteBase.SetAge | modules/information/base.py:24-29 | Only an int with 0 < age < 100 replaces the age, and the range is kept. |
| AthleteInfo.AthleteBase.SetStatus | modules/information/base.py:39-46 | Only one of the six statuses is accepted. Any other raises ValueError and keeps the status. |
| AthleteInfo.AthleteBase.CalculateBmi | modules/information/base.py:48-54 | A height ≤ 0 gives 0.0. Otherwise bmi · height² = weight. |
| AthleteProfiles.AthleteBase.constructor | modules/information/BaseFile/base.py:7-17 | The ten fields are stored unchecked, the status included. |
| AthleteProfiles.AthleteBase.SetAge | modules/information/BaseFile/base.py:55-60 | Only an int with 10 < age < 50 replaces the age, and the range is kept. |
| AthleteProfiles.AthleteBase.SetStatus | modules/information/BaseFile/base.py:73-80 | Only one of the six statuses is accepted. Any other raises ValueError and keeps the status. |
| AthleteProfiles.AthleteBase.ToDict | modules/information/BaseFile/base.py:131-143 | Exactly the ten stored fields under their names. |
| AthleteProfiles.ProfileRecord | modules/information/BaseFile/base.py:131-143 | Exactly ten keys, each mirroring its field. |
| AthleteProfiles.HeightInMetres | modules/information/BaseFile/base.py:101-102 | A height above 3.0 is read as centimetres. |
| AthleteProfiles.CalculateBmi | modules/information/BaseFile/base.py:98-105 | A height ≤ 0 in metres gives 0.0. Otherwise bmi · m² = weight. |
| AthleteProfiles.BmiUnitsAgree | modules/information/BaseFile/base.py:98-105 | A height given in centimetres gives the same index as the same height in metres. |
| AthleteStore.Get | modules/information/repository.py:37 | `dict.get` returns the stored value, or the default when the key is absent. |
| AthleteStore.FirstIndex | modules/information/repository.py:46-50 | The first record whose `str(athlete_id)` equals the key, or none when no record has it. |
| AthleteStore.Find | modules/information/repository.py:46-50 | A record is found exactly when some record has the id, and it has that id. |
| AthleteStore.Target | modules/information/repository.py:58-60 | The record that delete and update act on: the first match, if it is non-empty. |
| AthleteStore.Added | modules/information/repository.py:31-43 | A record whose id is already stored leaves the list unchanged. Otherwise exactly one record is appended, and then it is found by its id. |
| AthleteStore.Removed | modules/information/repository.py:57-64 | The target record is removed. The records before it keep their places and those after it move up by one. With no target, the list is unchanged. |
| AthleteStore.Updated | modules/information/repository.py:67-74 | The given keys are merged into the target record only. Every other record and key is unchanged. |
| AthleteStore.AddedKeepsLookups | modules/information/repository.py:37-41 | Adding never changes what an existing id finds. |
| AthleteStore.AddedKeepsIdsUnique | modules/information/repository.py:37-41 | Adding keeps the stored ids distinct. |
| AthleteStore.RemovedForgetsId | modules/information/repository.py:57-64 | After a delete, the id is no longer found. |
| AthleteStore.UpdatedKeepsIds | modules/information/repository.py:67-74 | An update without "athlete_id" keeps every id. |
| AthleteStore.TextField | modules/information/repository.py:78 | Reading a field as text fails with AttributeError exactly when the field is present and is not text. |
| AthleteStore.WithField | modules/information/repository.py:77-82 | It keeps every record whose field equals the text case-insensitively, and no other record. It fails exactly when some field is not text. |
| AthleteStore.WithFieldInOrder | modules/information/repository.py:77-82 | The filtered records keep the list's order. |
| AthleteStore.WithFieldIgnoresCase | modules/information/repository.py:77-82 | Upper-casing the searched text changes nothing. |
| AthleteStore.AthleteRepository.constructor | modules/information/repository.py:8-10 | Starts from the loaded records. |
| AthleteStore.AthleteRepository.GetById | modules/information/repository.py:46-50 | The search loop returns the first record with that id, or None. |
| AthleteStore.AthleteRepository.Add | modules/information/repository.py:31-43 | The list becomes `Added`. |
| AthleteStore.AthleteRepository.DeleteById | modules/information/repository.py:57-64 | True exactly when a target exists, and the list becomes `Removed`. |
| AthleteStore.AthleteRepository.Update | modules/information/repository.py:67-74 | The list becomes `Updated`. |
| AthleteStore.AthleteRepository.GetByBranch | modules/information/repository.py:77-78 | Exactly the athletes of the branch, case-insensitively and in order. |
| AthleteStore.AthleteRepository.GetByStatus | modules/information/repository.py:81-82 | Exactly the athletes with the status, case-insensitively and in order. |
| AthleteServices.ValidateAthleteAge | modules/information/services.py:87-88 | True exactly for 5 ≤ age ≤ 100. |
| AthleteServices.KeywordMatch | modules/information/services.py:60-72 | Fails with AttributeError exactly when the name or surname is not text. |
| AthleteServices.Search | modules/information/services.py:56-74 | Matches are an all-digit keyword equal to the id text, or the lower-cased keyword inside the name or surname; every match is returned and nothing else. It fails exactly when some record's name or surname is not text. |
| AthleteServices.SearchIsSubsequence | modules/information/services.py:56-74 | Each record is looked at once, so the results keep the list's order. |
| AthleteServices.SearchIgnoresCase | modules/information/services.py:62-72 | Upper-casing the keyword changes nothing. |
| AthleteServices.SearchRegisteredNameExample | modules/information/test_module.py:81-88 | A registered athlete is found by name. |
| AthleteServices.Keep | modules/information/services.py:78-83 | A record passes exactly when age ≥ min, a non-empty status matches and a non-empty gender matches case-insensitively. A non-numeric age raises TypeError. |
| AthleteServices.Filter | modules/information/services.py:76-84 | It keeps every passing record, and no other record. It fails exactly when some record fails. |
| AthleteServices.FilterIsSubsequence | modules/information/services.py:76-84 | The passing records keep the list's order. |
| AthleteServices.FilterErrorPersists | modules/information/services.py:76-84 | The first failure ends the whole filter. |
| AthleteServices.FilterKeepsPassingList | modules/information/services.py:76-84 | A list whose every record passes comes back whole. |
| AthleteServices.FilterIdempotent | modules/information/services.py:76-84 | Filtering twice equals filtering once. |
| AthleteServices.AthleteService.constructor | modules/information/services.py:7-8 | Keeps the repository. |
| AthleteServices.AthleteService.RegisterAthlete | modules/information/services.py:10-38 | An invalid age or unknown category raises ValueError and stores nothing. Otherwise one active ten-field record with the drawn id is added, and the message "… sisteme eklendi." is returned. |
| AthleteServices.AthleteService.UpdateAthleteStatus | modules/information/services.py:40-51 | False for an unknown id and for Suspended → Injured, with nothing changed. Otherwise the status is merged into the record. |
| AthleteServices.AthleteService.SearchAthlete | modules/information/services.py:56-74 | The loop returns exactly `Search`. |
| AthleteServices.AthleteService.FilterAthletesByCriteria | modules/information/services.py:76-84 | The loop returns exactly `Filter`. |
| AthleteServices.RegisteredIsFound | modules/information/services.py:37 | A registered athlete with a new id is found by that id afterwards. |
| ProfileServices.FirstWithId | modules/information/BaseFile/services.py:86 | The first athlete object with the id, or none when no athlete has it. |
| ProfileServices.Search | modules/information/BaseFile/services.py:106-114 | Matches are a digit keyword equal to the integer id, or the keyword inside the name, case-insensitively. The matching athletes, in order: every match is kept, and no other athlete. |
| ProfileServices.SurnameIsNotSearched | modules/information/BaseFile/services.py:112 | An athlete matched only by surname is not found. |
| ProfileServices.Filter | modules/information/BaseFile/services.py:116-130 | The passing athletes, in order: every passing athlete is kept, and no other. Status and gender filter whenever they are given. |
| ProfileServices.EmptyStatusFilters | modules/information/BaseFile/services.py:125 | An empty status still filters. |
| ProfileServices.StatusNarrows | modules/information/BaseFile/services.py:125-126 | Adding a status criterion only removes athletes. |
| ProfileServices.AthleteService.constructor | modules/information/BaseFile/services.py:7-8 | Starts from the stored athletes. |
| ProfileServices.AthleteService.RegisterAthlete | modules/information/BaseFile/services.py:10-83 | An invalid age or unknown category raises ValueError and stores nothing. Otherwise a fresh active athlete with the drawn id and no surname is appended, unless that id is taken. |
| ProfileServices.AthleteService.UpdateAthleteStatus | modules/information/BaseFile/services.py:85-101 | False for an unknown id, for Suspended → Injured, or for a status the setter refuses, and then nothing changes. Otherwise exactly that athlete's status changes. |
| ProfileServices.AthleteService.SearchAthlete | modules/information/BaseFile/services.py:106-114 | The loop returns exactly `Search`. |
| ProfileServices.AthleteService.FilterAthletesByCriteria | modules/information/BaseFile/services.py:116-130 | The loop returns exactly `Filter`. |

## Left out

**Input, output and outside sources**
- Printing, console messages, JSON files and log files are not modelled.
  - The stores are in-memory sequences, so the storage errors (`DataStorageError`, the file handlers) never arise.
  - `get_all_transactions` and `get_all` are plain reads of the list.
- `random.randint`, `random.choice`, `uuid.uuid4()` and `datetime.now()` are parameters.
  - The current year of `renew_contract` is a parameter too.
  - `format_match_date`, a pure display helper, is not modelled.

**Numbers**
- Floats are exact reals. `round(x, 2)` is modelled as half-to-even rounding of the exact value, not of its binary-float approximation.
- `Calculators.Round2`: binary-float rounding effects near a half cent are not captured.
- `AthleteInfo.AthleteBase.CalculateBmi` and `AthleteProfiles.CalculateBmi` do not state that the index is non-negative for a non-negative weight. They state only the defining product.
- `AthleteStore.FloatText`: `str()` of a float is exact only for whole numbers. Other values get a placeholder fraction, so an id stored as a non-whole float is compared approximately.
- `AthleteRules.Tax` has no contract of its own. Its tiers are stated by `AthleteRules.ProfessionalCostTiers`.

**Removing an athlete**
- AthleteStore.Removed: removes the record the lookup found. The source's `list.remove` (modules/information/repository.py:60) removes the first record that is equal to it by value. Python counts `True`, `1` and `1.0` as equal, but `str()` prints them differently. So in the source an earlier record whose id is equal as a number but printed differently can be removed instead. This is not modelled.
- AthleteStore.AthleteRepository.DeleteById: inherits this. It removes the found record, not the first record equal to it.
- AthleteStore.RemovedForgetsId: holds for the model's removal. In the source, for `[{"athlete_id": True}, {"athlete_id": 1}]`, deleting id "1" removes the first record and leaves "1" still found.

**Number parsing**
- Common.ParseNat: reads only a run of ASCII decimal digits. The surrounding whitespace, the sign and the digit-separating underscores that `int()` also accepts are read as errors.
- Matches.ParseScore: each side of the score is read with `Common.ParseNat`. So " 1-2", "+1-2" and "1_0-2", which `set_score` can store, give ValueError here, while `int()` would read them. The scores the simulations write are plain numerals and read back exactly (`Matches.ScoreRoundTrip`).
- Common.FloatOf: a string is read only in plain decimal notation: optional surrounding whitespace, an optional sign, digits and at most one ".". Exponents ("1e3"), underscores ("1_000"), "inf", "infinity" and "nan" are read as ValueError, while `float()` accepts them. An infinite or NaN amount has no `real` counterpart.
- Ledger.NewTransaction: inherits this narrowing of `float(amount)`. An amount such as "1e3" is refused here but accepted by the source.
- FinanceService.FinanceManager.AddTransaction: inherits this narrowing. "1e3" is reported as not numeric, and a NaN amount, which the source's limit comparisons let through, cannot arise.
- FinanceService.FinanceManager.UpdateTransaction: inherits this narrowing. A new amount such as "1e3" aborts the update here but is stored by the source.

**Text and dates**
- String case mapping, `isdigit` and whitespace are ASCII-only.
- Finance error messages embed the float representation of amounts. They are represented by their headline and fields, not by the full text.
- Dates are formatted only for years from 1000 upward, because `%Y` padding of smaller years depends on the platform.
- The `OverflowError` of date arithmetic near year 1 is not modelled.

**Class-level state**
- `__default_currency` and `__report_language` are name-mangled class attributes. They are a single `CurrencySetting` object and a language field on the analyzer, not shadowed per subclass.
- The class-level counters are an `ObjectCounter` object handed to the constructors.

**The match engine**
- The subclasses of `MatchBase` become one `Match` class with a `Kind`, and each kind's own flags are fields of every match.
- `create_match` in services.py has a second truthiness check after the `None` checks. It can never fire, because team objects are always truthy, so it is not modelled.

**The athlete layer**
- The dictionary arguments of `renew_contract`, `transfer_from_local_club` and `register_with_scholarship_calc` are typed records.
  - A missing name, age or salary is not modelled; the source would raise on comparing `None`.
  - The optional entries (`matches_played`, `rating`, `has_clearance`, `penalty_points`, `dominant_side`, `branch`, `has_sibling`) keep their defaults.
- `register_athlete` in both services builds subclass objects whose constructors do not accept the arguments passed.
  - The model stores the ten-field profile record that `to_dict` gives. The category extras (salary, licence, guardian, scholarship, the `**kwargs`) are not stored.
  - In the object-based variant, no surname is passed, so the surname is "".
  - The height warning there is only printed.
- The object-based service variant:
  - its `get_by_id` compares the integer id;
  - its `list_athletes_by_branch` calls an undefined `filter_by_branch`, so it is not modelled;
  - `create_random`, `branch_strong_side`, `calculate_salary`, `get_service_info`, `get_database_info` and `from_backup` are not modelled.
- modules/PlayerInfo/base.py is not part of this model. Its athlete base is taken to be the five-field base of modules/information/base.py.

## Findings

| source | as written | input that shows it | evidently intended | confidence | as-written member | corrected member |
|---|---|---|---|---|---|---|
| modules/finance/services/manager.py:55 | Records are written with the key `islem_id` (transaction.py:27), but delete looks up `t["id"]` and raises `KeyError` | a store holding one transaction written by `to_dict`, deleted by its own id | The stored identifier is read as `id`, so the record is removed | high (not executed) | FinanceService.DeleteAsWrittenNeverSucceeds | FinanceService.DeleteByIdRemoves |
| modules/finance/services/manager.py:75 | Update looks up `item["id"]` on records that only have `islem_id` | a store holding one transaction, updated by its own id | Only the first record with the id is edited | high (not executed) | FinanceService.UpdateAsWrittenNeverSucceeds | FinanceService.FinanceManager.UpdateTransaction |
| modules/finance/services/analyzer.py:121 | Search tests `search_term in item["id"]` first, which raises `KeyError` on every stored record | any non-empty store and any term | The term is matched against the id, category, date and description | high (not executed) | Analysis.SearchAsWrittenFails | Analysis.SearchResults |
| modules/PlayerInfo/implementations2.py:171 | The limits 13, 15 and 17 put age 12 in "U12" (and 14 in "U14", 16 in "U16"); modules/information/implementations.py has the same limits, and modules/information/test_module.py:75, which tests that copy, expects "U14" for 12 | age 12 | Each "U<n>" holds the ages below n, so 12 is in "U14" | medium (not executed) | AthleteRules.AgeCategoryAsWrittenPlacesTwelveInU12 | AthleteRules.AgeCategoryNamesItsLimit |

Other defects in the source:

- **Undefined calculator errors.** calculator.py imports `InvalidRateError`, `InvalidCurrencyError` and `InvalidDateFormatError`. None of them is defined in errors.py, so the module cannot be imported as written. The model gives them as the `CalcError` cases `InvalidRate`, `InvalidCurrency` and `InvalidDateFormat`.
- **Two athlete lists.** `AthleteRepository.__init__` sets `self.athletes`, but every method reads `self.__athletes`. The model keeps one list, `athletes`.
- **Misnamed import.** modules/information/services.py imports `YouthAthlete`, but modules/information/implementations.py defines `YoungAthlete`. The model stores the profile record instead of a subclass object.
- **Dead error handler.** In the dictionary-based `update_athlete_status`, any status text is merged without validation, so its `except ValueError` can never run. The model follows the code.
