/**
 * The athlete decision rules of modules/PlayerInfo/implementations2.py:
 * professional pay and tax, the branch-specific strong-side label, contract
 * renewal, transfers from a local club, youth age groups and scholarships.
 *
 * Every rule computes a value or builds a new athlete; nothing is updated in
 * place, so athletes are values here. The dictionaries the class methods
 * read with `dict.get(key, default)` are records whose optional entries are
 * `Option`s, resolved to the same defaults. The random draws
 * (`random.randint`, `random.choice`) and the current year are parameters.
 */
module AthleteRules {
  import opened Common

  /** The sides `random.choice` picks from when no dominant side is given. */
  const Sides: seq<string> := ["Right", "Left", "Both"]

  /** What distinguishes the three kinds of athlete. */
  datatype Role =
    | Professional(salary: real, contractEndDate: string)
    | Amateur(licenseNumber: string)
    | Youth(guardianName: Option<string>, scholarshipAmount: real)

  /** The five base fields, the role-specific ones and the strong side. */
  datatype Athlete = Athlete(
    athleteId: Value, name: string, age: int, sportBranch: string, status: string,
    role: Role, strongSide: string)

  /** Python truthiness of an optional text: present and not empty. */
  predicate Truthy(s: Option<string>)
  {
    s.Some? && s.value != ""
  }

  /** A given dominant side, or else the randomly chosen one. */
  function SideOrRandom(given: Option<string>, randomSide: string): (side: string)
    ensures Truthy(given) ==> side == given.value
    ensures !Truthy(given) ==> side == randomSide
  {
    if Truthy(given) then given.value else randomSide
  }

  // ---------------------------------------------------------------------
  // Cost

  const HighSalaryThreshold: real := 500000.0

  /** `calculate_tax`: 20% above the threshold, 15% up to it. */
  function Tax(salary: real): real
  {
    if salary > HighSalaryThreshold then salary * 0.20 else salary * 0.15
  }

  /** Amateur licence fee plus transport support. */
  const AmateurCost: real := 1500.0 + 750.0

  /** `calculate_cost` of each kind of athlete. */
  function CalculateCost(a: Athlete): (cost: real)
    ensures a.role.Amateur? ==> cost == 2250.0
    ensures a.role.Youth? ==> cost == a.role.scholarshipAmount
    ensures a.role.Professional? && a.role.salary >= 0.0 ==>
      a.role.salary * 1.15 <= cost <= a.role.salary * 1.20
  {
    match a.role
    case Professional(salary, _) => salary + Tax(salary) + 0.0
    case Amateur(_) => AmateurCost
    case Youth(_, amount) => amount
  }

  /** The professional cost is the salary plus 20% above the threshold and 15% up to it. */
  lemma ProfessionalCostTiers(a: Athlete)
    requires a.role.Professional?
    ensures a.role.salary > HighSalaryThreshold ==> CalculateCost(a) == a.role.salary * 1.20
    ensures a.role.salary <= HighSalaryThreshold ==> CalculateCost(a) == a.role.salary * 1.15
  {
  }

  /**
   * A higher salary never costs the club less, even where the rate jumps
   * from 15% to 20%.
   */
  lemma ProfessionalCostMonotone(a: Athlete, b: Athlete)
    requires a.role.Professional? && b.role.Professional?
    requires 0.0 <= a.role.salary <= b.role.salary
    ensures CalculateCost(a) <= CalculateCost(b)
  {
    var x, y := a.role.salary, b.role.salary;
    if x <= HighSalaryThreshold < y {
      assert x * 1.15 <= y * 1.15 <= y * 1.20;
    }
  }

  // ---------------------------------------------------------------------
  // Strong side

  /** `athlete_strong_side`: the label is chosen from the lower-cased branch. */
  function StrongSideLabel(branch: string, side: string): (r: string)
    ensures Contains(Lower(branch), "football") ==> r == "Preferred Foot : " + side
    ensures (!Contains(Lower(branch), "football") &&
             (Contains(Lower(branch), "basketball") || Contains(Lower(branch), "volleyball")))
      ==> r == "Shooting Hand: " + side
    ensures (!Contains(Lower(branch), "football") && !Contains(Lower(branch), "basketball") &&
             !Contains(Lower(branch), "volleyball"))
      ==> r == "Dominant Side: " + side
  {
    var b := Lower(branch);
    if Contains(b, "football") then "Preferred Foot : " + side
    else if Contains(b, "basketball") || Contains(b, "volleyball") then "Shooting Hand: " + side
    else "Dominant Side: " + side
  }

  /** The label does not depend on how the branch is capitalised. */
  lemma {:induction false} StrongSideIgnoresCase(branch: string, side: string)
    ensures StrongSideLabel(Upper(branch), side) == StrongSideLabel(branch, side)
  {
    LowerOfUpper(branch);
  }

  /** A "Football" player's label names the preferred foot. */
  lemma StrongSideFootballExample()
    ensures StrongSideLabel("Football", "Left") == "Preferred Foot : Left"
  {
    assert Lower("Football") == "football";
    assert OccursAt(Lower("Football"), "football", 0);
  }

  // ---------------------------------------------------------------------
  // Contract renewal

  const RetirementAge := 38
  const MinMatchesPlayed := 20

  /** The athlete dictionary `renew_contract` reads. */
  datatype ContractData = ContractData(
    athleteId: Value, name: string, age: int, salary: real, branch: string,
    dominantSide: Option<string>)

  /** The performance dictionary; missing entries count as 0. */
  datatype Performance = Performance(matchesPlayed: Option<int>, rating: Option<real>)

  function MatchesPlayed(p: Performance): int
  {
    if p.matchesPlayed.Some? then p.matchesPlayed.value else 0
  }

  function Rating(p: Performance): real
  {
    if p.rating.Some? then p.rating.value else 0.0
  }

  /** The salary factor and the contract length in years for a rating. */
  function RenewalTerms(rating: real): (terms: (real, int))
    ensures rating >= 8.5 <==> terms == (1.25, 3)
    ensures 6.0 <= rating < 8.5 <==> terms == (1.10, 2)
    ensures rating < 6.0 <==> terms == (0.90, 1)
  {
    if rating >= 8.5 then (1.25, 3)
    else if rating >= 6.0 then (1.10, 2)
    else (0.90, 1)
  }

  /** A better rating never earns a lower salary factor or a shorter contract. */
  lemma RenewalRewardsRating(r1: real, r2: real)
    requires r1 <= r2
    ensures RenewalTerms(r1).0 <= RenewalTerms(r2).0
    ensures RenewalTerms(r1).1 <= RenewalTerms(r2).1
  {
  }

  /** `f"{year}-06-30"`: the contract ends on 30 June. */
  function ContractEnd(year: int): (r: string)
    ensures |r| >= 7 && r[|r| - 6..] == "-06-30"
  {
    IntText(year) + "-06-30"
  }

  /**
   * `renew_contract`: no renewal at retirement age or with too few matches;
   * otherwise a professional one year older, active again, paid by the
   * rating tier until 30 June of the current year plus the tier's length.
   */
  function RenewContract(data: ContractData, perf: Performance, currentYear: int,
                         randomSide: string): (r: Option<Athlete>)
    requires randomSide in Sides
    ensures r.None? <==> data.age >= RetirementAge || MatchesPlayed(perf) < MinMatchesPlayed
    ensures r.Some? ==>
      var a := r.value;
      a.athleteId == data.athleteId && a.name == data.name && a.age == data.age + 1 &&
      a.age <= RetirementAge && a.sportBranch == data.branch && a.status == "Active" &&
      a.strongSide == SideOrRandom(data.dominantSide, randomSide) &&
      a.role == Professional(data.salary * RenewalTerms(Rating(perf)).0,
                             ContractEnd(currentYear + RenewalTerms(Rating(perf)).1))
  {
    if data.age >= RetirementAge then None
    else if MatchesPlayed(perf) < MinMatchesPlayed then None
    else
      var terms := RenewalTerms(Rating(perf));
      Some(Athlete(data.athleteId, data.name, data.age + 1, data.branch, "Active",
                   Professional(data.salary * terms.0, ContractEnd(currentYear + terms.1)),
                   SideOrRandom(data.dominantSide, randomSide)))
  }

  /** With a non-negative salary, a higher rating never lowers the renewed salary. */
  lemma RenewedSalaryMonotone(data: ContractData, p1: Performance, p2: Performance,
                              year: int, side: string)
    requires side in Sides && data.salary >= 0.0
    requires Rating(p1) <= Rating(p2)
    requires RenewContract(data, p1, year, side).Some? && RenewContract(data, p2, year, side).Some?
    ensures RenewContract(data, p1, year, side).value.role.salary <=
            RenewContract(data, p2, year, side).value.role.salary
  {
    RenewalRewardsRating(Rating(p1), Rating(p2));
    var f1, f2 := RenewalTerms(Rating(p1)).0, RenewalTerms(Rating(p2)).0;
    assert data.salary * f1 <= data.salary * f2;
  }

  // ---------------------------------------------------------------------
  // Amateur athletes

  /** `check_transport_distance`: transport is supported beyond 10 km. */
  function TransportSupported(distanceKm: real): (supported: bool)
    ensures supported <==> distanceKm > 10.0
  {
    distanceKm > 10.0
  }

  /** The documents from the previous club; missing entries take the code's defaults. */
  datatype ClubDocument = ClubDocument(
    clubName: Option<string>, hasClearance: Option<bool>, penaltyPoints: Option<int>,
    dominantSide: Option<string>)

  function Cleared(doc: ClubDocument): bool
  {
    doc.hasClearance.Some? && doc.hasClearance.value
  }

  function PenaltyPoints(doc: ClubDocument): int
  {
    if doc.penaltyPoints.Some? then doc.penaltyPoints.value else 0
  }

  const MaxPenaltyPoints := 5

  /** `str(n)` of a three-digit number has three characters. */
  lemma ThreeDigitText(n: nat)
    requires 100 <= n <= 999
    ensures |NatText(n)| == 3
  {
    assert NatText(n / 10 / 10) == [DigitChar(n / 10 / 10)];
  }

  /** `f"TUR-{branch[:3].upper()}-{serial}"`. */
  function LicenseNumber(branch: string, serial: int): (r: string)
    requires 100 <= serial <= 999
    ensures |r| == 4 + |Take(branch, 3)| + 4
    ensures r[..4] == "TUR-"
    ensures r[4..4 + |Take(branch, 3)|] == Upper(Take(branch, 3))
    ensures r[|r| - 4] == '-' && IsDigits(r[|r| - 3..])
  {
    ThreeDigitText(serial);
    var r := "TUR-" + Upper(Take(branch, 3)) + "-" + NatText(serial);
    assert r[|r| - 3..] == NatText(serial);
    r
  }

  /** A tennis player's licence begins "TUR-TEN". */
  lemma LicenseTennisExample(serial: int)
    requires 100 <= serial <= 999
    ensures LicenseNumber("Tennis", serial)[..7] == "TUR-TEN"
  {
    var r := LicenseNumber("Tennis", serial);
    assert Take("Tennis", 3) == "Ten";
    assert Upper("Ten") == "TEN";
    assert r[..7] == r[..4] + r[4..7];
  }

  /**
   * `transfer_from_local_club`: refused without a clearance document or with
   * more than five penalty points; otherwise an active amateur with a new id
   * and a licence number built from the branch.
   */
  function TransferFromLocalClub(name: string, age: int, branch: string, doc: ClubDocument,
                                 newId: int, serial: int, randomSide: string): (r: Option<Athlete>)
    requires 3000 <= newId <= 4999 && 100 <= serial <= 999 && randomSide in Sides
    ensures r.None? <==> !Cleared(doc) || PenaltyPoints(doc) > MaxPenaltyPoints
    ensures r.Some? ==>
      r.value == Athlete(VInt(newId), name, age, branch, "Active",
                         Amateur(LicenseNumber(branch, serial)),
                         SideOrRandom(doc.dominantSide, randomSide))
  {
    if !Cleared(doc) then None
    else if PenaltyPoints(doc) > MaxPenaltyPoints then None
    else Some(Athlete(VInt(newId), name, age, branch, "Active",
                      Amateur(LicenseNumber(branch, serial)),
                      SideOrRandom(doc.dominantSide, randomSide)))
  }

  // ---------------------------------------------------------------------
  // Youth age groups

  /** The age groups from youngest to oldest. */
  const AgeGroups: seq<string> := ["Minik Takım", "U12", "U14", "U16", "U19", "As takım adayı"]

  /** The index of the group for `age` when group k takes the ages below limits[k]. */
  function GroupIndex(age: int, limits: seq<int>): (k: nat)
    ensures k <= |limits|
    ensures forall j :: 0 <= j < k ==> age >= limits[j]
    ensures k < |limits| ==> age < limits[k]
  {
    if limits == [] || age < limits[0] then 0 else 1 + GroupIndex(age, limits[1..])
  }

  /** With five increasing limits, the group is found by comparing against each in turn. */
  lemma GroupIndexOfFive(age: int, limits: seq<int>)
    requires |limits| == 5
    ensures GroupIndex(age, limits) ==
      if age < limits[0] then 0 else if age < limits[1] then 1 else if age < limits[2] then 2
      else if age < limits[3] then 3 else if age < limits[4] then 4 else 5
  {
    var t := limits;
    assert t[1..][0] == t[1] && t[1..][1..][0] == t[2] && t[1..][1..][1..][0] == t[3];
    assert t[1..][1..][1..][1..][0] == t[4] && t[1..][1..][1..][1..][1..] == [];
  }

  /** The limits `age_category` compares against, as written. */
  const WrittenLimits: seq<int> := [10, 13, 15, 17, 19]

  /** `age_category` as written: <10, <13, <15, <17, <19, then the senior squad. */
  function AgeCategoryAsWritten(age: int): (group: string)
    ensures group == AgeGroups[GroupIndex(age, WrittenLimits)]
  {
    GroupIndexOfFive(age, WrittenLimits);
    if age < 10 then "Minik Takım"
    else if age < 13 then "U12"
    else if age < 15 then "U14"
    else if age < 17 then "U16"
    else if age < 19 then "U19"
    else "As takım adayı"
  }

  /** A twelve-year-old is put in the under-12 group, which is for ages below 12. */
  lemma AgeCategoryAsWrittenPlacesTwelveInU12()
    ensures AgeCategoryAsWritten(12) == "U12"
    ensures AgeCategoryAsWritten(14) == "U14" && AgeCategoryAsWritten(16) == "U16"
  {
  }

  /** Each "U<n>" group holds the ages below n, as its name says. */
  const IntendedLimits: seq<int> := [10, 12, 14, 16, 19]

  /**
   * The age group with each "U<n>" group holding exactly the ages from the
   * previous limit up to n - 1.
   */
  function AgeCategory(age: int): (group: string)
    ensures group == AgeGroups[GroupIndex(age, IntendedLimits)]
  {
    GroupIndexOfFive(age, IntendedLimits);
    if age < 10 then "Minik Takım"
    else if age < 12 then "U12"
    else if age < 14 then "U14"
    else if age < 16 then "U16"
    else if age < 19 then "U19"
    else "As takım adayı"
  }

  /** An age is in an under-n group only when it is below n, and in the oldest one that fits. */
  lemma AgeCategoryNamesItsLimit(age: int)
    ensures AgeCategory(age) == "U12" <==> 10 <= age < 12
    ensures AgeCategory(age) == "U14" <==> 12 <= age < 14
    ensures AgeCategory(age) == "U16" <==> 14 <= age < 16
    ensures AgeCategory(age) == "U19" <==> 16 <= age < 19
    ensures AgeCategory(12) == "U14"
  {
  }

  /** Older athletes are never placed in a younger group. */
  lemma {:induction false} GroupIndexMonotone(a1: int, a2: int, limits: seq<int>)
    requires a1 <= a2
    ensures GroupIndex(a1, limits) <= GroupIndex(a2, limits)
    decreases |limits|
  {
    if limits != [] && a1 >= limits[0] {
      GroupIndexMonotone(a1, a2, limits[1..]);
    }
  }

  // ---------------------------------------------------------------------
  // Youth scholarships

  const YouthAgeLimit := 18
  const BaseFee: real := 10000.0

  /** The student dictionary `register_with_scholarship_calc` reads. */
  datatype StudentInfo = StudentInfo(
    name: string, age: int, branch: Option<string>, parentName: Option<string>,
    hasSibling: Option<bool>, dominantSide: Option<string>)

  /** Full fee from 90 points, half from 75, nothing below; a tenth more with a sibling. */
  function Scholarship(examScore: real, hasSibling: bool): (amount: real)
    ensures examScore >= 90.0 ==> amount == BaseFee + (if hasSibling then 1000.0 else 0.0)
    ensures 75.0 <= examScore < 90.0 ==> amount == 5000.0 + (if hasSibling then 1000.0 else 0.0)
    ensures examScore < 75.0 ==> amount == (if hasSibling then 1000.0 else 0.0)
  {
    var award := if examScore >= 90.0 then BaseFee
                 else if examScore >= 75.0 then BaseFee * 0.50
                 else 0.0;
    if hasSibling then award + BaseFee * 0.10 else award
  }

  /** A better exam score never lowers the scholarship; a sibling adds 1000. */
  lemma ScholarshipMonotone(e1: real, e2: real, sibling: bool)
    requires e1 <= e2
    ensures Scholarship(e1, sibling) <= Scholarship(e2, sibling)
    ensures Scholarship(e1, true) == Scholarship(e1, false) + 1000.0
  {
  }

  /**
   * `register_with_scholarship_calc`: refused from age 18; otherwise an
   * active youth athlete whose cost is the computed scholarship.
   */
  function RegisterWithScholarship(info: StudentInfo, examScore: real, newId: int,
                                   randomSide: string): (r: Option<Athlete>)
    requires 500 <= newId <= 999 && randomSide in Sides
    ensures r.None? <==> info.age >= YouthAgeLimit
    ensures r.Some? ==>
      var a := r.value;
      a.athleteId == VInt(newId) && a.name == info.name && a.age == info.age && a.age < 18 &&
      a.sportBranch == (if info.branch.Some? then info.branch.value else "General") &&
      a.status == "Active" && a.strongSide == SideOrRandom(info.dominantSide, randomSide) &&
      a.role == Youth(info.parentName,
                      Scholarship(examScore, info.hasSibling.Some? && info.hasSibling.value))
  {
    if info.age >= YouthAgeLimit then None
    else
      var sibling := info.hasSibling.Some? && info.hasSibling.value;
      Some(Athlete(VInt(newId), info.name, info.age,
                   if info.branch.Some? then info.branch.value else "General",
                   "Active", Youth(info.parentName, Scholarship(examScore, sibling)),
                   SideOrRandom(info.dominantSide, randomSide)))
  }

  /** A twelve-year-old with 95 points and a sibling costs 11000. */
  lemma ScholarshipExample(newId: int)
    requires 500 <= newId <= 999
    ensures var info := StudentInfo("Can", 12, Some("Basketball"), Some("Veli"), Some(true), Some("Right"));
      var r := RegisterWithScholarship(info, 95.0, newId, "Right");
      r.Some? && CalculateCost(r.value) == 11000.0
  {
  }
}
