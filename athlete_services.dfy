/**
 * The dictionary-based athlete service of modules/information/services.py:
 * registration with its age and category checks, status changes under the
 * "a suspended athlete cannot be listed injured" rule, keyword search and
 * filtering by age, status and gender.
 *
 * The athlete registered is the ten-field dictionary of
 * `AthleteProfiles.AthleteBase.to_dict`; the random id is a parameter.
 */
module AthleteServices {
  import opened Common
  import opened AthleteStore
  import AthleteProfiles

  /** The categories `register_athlete` knows. */
  const Categories: seq<string> := ["Professional", "Amateur", "Youth"]

  /** `validate_athlete_age`: ages from 5 to 100 inclusive. */
  function ValidateAthleteAge(age: int): (ok: bool)
    ensures ok <==> 5 <= age <= 100
  {
    5 <= age <= 100
  }

  /** Python truthiness of an optional text argument: given and not empty. */
  predicate Given(s: Option<string>)
  {
    s.Some? && s.value != ""
  }

  // ---------------------------------------------------------------------
  // Search

  /** `str(athlete.get('athlete_id', ''))`: a missing id reads as the empty text. */
  function SearchIdText(rec: Record): string
  {
    Str(Get(rec, "athlete_id", VStr("")))
  }

  /**
   * Whether `search_athlete` keeps a record: an all-digit keyword equal to
   * its id, or the lower-cased keyword inside its lower-cased name or
   * surname. Both names are lower-cased first, so a name or surname that is
   * not text raises `AttributeError` whatever the keyword.
   */
  function KeywordMatch(rec: Record, keyword: string): (r: Result<bool, PyError>)
    ensures r.Err? <==> TextField(rec, "name").Err? || TextField(rec, "surname").Err?
    ensures r.Err? ==> r.error == AttributeError
  {
    match (TextField(rec, "name"), TextField(rec, "surname"))
    case (Ok(name), Ok(surname)) =>
      var key := Lower(keyword);
      Ok((IsDigits(keyword) && SearchIdText(rec) == keyword) ||
         Contains(Lower(name), key) || Contains(Lower(surname), key))
    case (Err(e), _) => Err(e)
    case (_, Err(e)) => Err(e)
  }

  /** The records `search_athlete` returns: every match once, in list order. */
  function Search(rs: seq<Record>, keyword: string): (r: Result<seq<Record>, PyError>)
    ensures r.Err? <==> exists j :: 0 <= j < |rs| && KeywordMatch(rs[j], keyword).Err?
    ensures r.Err? ==> r.error == AttributeError
    ensures r.Ok? ==> forall x :: x in r.value ==> KeywordMatch(x, keyword) == Ok(true)
    ensures r.Ok? ==> forall j :: 0 <= j < |rs| && KeywordMatch(rs[j], keyword) == Ok(true) ==>
      rs[j] in r.value
    decreases |rs|
  {
    if rs == [] then Ok([])
    else
      var init, last := rs[..|rs| - 1], rs[|rs| - 1];
      assert rs == init + [last];
      assert forall j :: 0 <= j < |init| ==> init[j] == rs[j];
      match Search(init, keyword)
      case Err(e) => Err(e)
      case Ok(kept) =>
        match KeywordMatch(last, keyword)
        case Err(e) => Err(e)
        case Ok(keep) =>
          if keep then Ok(kept + [last]) else Ok(kept)
  }

  /** The search results keep the list's order. */
  lemma {:induction false} SearchIsSubsequence(rs: seq<Record>, keyword: string)
    requires Search(rs, keyword).Ok?
    ensures SubseqOf(Search(rs, keyword).value, rs)
    decreases |rs|
  {
    if rs != [] {
      var init, last := rs[..|rs| - 1], rs[|rs| - 1];
      assert rs == init + [last];
      SearchIsSubsequence(init, keyword);
      SubseqOfSnoc(Search(init, keyword).value, init, last);
    }
  }

  /** Upper-casing a keyword does not change whether it is all digits, nor its digits. */
  lemma UpperOfDigits(s: string)
    ensures IsDigits(Upper(s)) <==> IsDigits(s)
    ensures IsDigits(s) ==> Upper(s) == s
  {
  }

  /** Search ignores the case of the keyword. */
  lemma {:induction false} SearchIgnoresCase(rs: seq<Record>, keyword: string)
    ensures Search(rs, Upper(keyword)) == Search(rs, keyword)
    decreases |rs|
  {
    LowerOfUpper(keyword);
    UpperOfDigits(keyword);
    if rs != [] {
      SearchIgnoresCase(rs[..|rs| - 1], keyword);
    }
  }

  /** A registered "Servis Test" is the one result of searching for "Servis". */
  lemma SearchRegisteredNameExample(athleteId: int, age: int, gender: string, height: int,
                                    weight: int, branch: string, strongSide: string)
    ensures var rec := AthleteProfiles.ProfileRecord(athleteId, "Servis", "Test", age, gender,
                                                     height, weight, branch, "Active", strongSide);
      Search([rec], "Servis") == Ok([rec])
  {
    var rec := AthleteProfiles.ProfileRecord(athleteId, "Servis", "Test", age, gender,
                                             height, weight, branch, "Active", strongSide);
    ContainsSelf(Lower("Servis"));
    assert KeywordMatch(rec, "Servis") == Ok(true);
    assert [rec][..0] == [] && [rec][0] == rec;
    assert Search([], "Servis") == Ok([]);
    assert [] + [rec] == [rec];
  }

  // ---------------------------------------------------------------------
  // Filter

  /** An athlete old enough, with the given status and the given gender (in any case). */
  predicate MeetsCriteria(rec: Record, minAge: int, status: Option<string>, gender: Option<string>)
  {
    IsNumber(Get(rec, "age", VInt(0))) && AsReal(Get(rec, "age", VInt(0))) >= minAge as real &&
    (Given(status) ==> Get(rec, "status", VNone) == VStr(status.value)) &&
    (Given(gender) ==> FieldMatches(rec, "gender", gender.value))
  }

  /**
   * Whether `filter_athletes_by_criteria` keeps a record, checking in the
   * code's order: the age (missing counts as 0; comparing a non-number
   * raises `TypeError`), then the status if one is given, then the gender
   * if one is given (lower-cased, so a non-text gender raises
   * `AttributeError`). A record dropped by an earlier check is not looked at
   * further.
   */
  function Keep(rec: Record, minAge: int, status: Option<string>, gender: Option<string>): (r: Result<bool, PyError>)
    ensures r == Ok(true) <==> MeetsCriteria(rec, minAge, status, gender)
    ensures !IsNumber(Get(rec, "age", VInt(0))) ==> r == Err(TypeError)
  {
    var age := Get(rec, "age", VInt(0));
    if !IsNumber(age) then Err(TypeError)
    else if AsReal(age) < minAge as real then Ok(false)
    else if Given(status) && Get(rec, "status", VNone) != VStr(status.value) then Ok(false)
    else if Given(gender) then
      match TextField(rec, "gender")
      case Err(e) => Err(e)
      case Ok(g) => Ok(Lower(g) == Lower(gender.value))
    else Ok(true)
  }

  /** The records `filter_athletes_by_criteria` returns, or the first error raised. */
  function Filter(rs: seq<Record>, minAge: int, status: Option<string>, gender: Option<string>): (r: Result<seq<Record>, PyError>)
    ensures r.Err? <==> exists j :: 0 <= j < |rs| && Keep(rs[j], minAge, status, gender).Err?
    ensures r.Ok? ==> forall x :: x in r.value ==> Keep(x, minAge, status, gender) == Ok(true)
    ensures r.Ok? ==> forall j :: 0 <= j < |rs| && Keep(rs[j], minAge, status, gender) == Ok(true) ==>
      rs[j] in r.value
    decreases |rs|
  {
    if rs == [] then Ok([])
    else
      var init, last := rs[..|rs| - 1], rs[|rs| - 1];
      assert rs == init + [last];
      assert forall j :: 0 <= j < |init| ==> init[j] == rs[j];
      match Filter(init, minAge, status, gender)
      case Err(e) => Err(e)
      case Ok(kept) =>
        match Keep(last, minAge, status, gender)
        case Err(e) => Err(e)
        case Ok(keep) =>
          if keep then Ok(kept + [last]) else Ok(kept)
  }

  /** What the filter keeps stays in the list's order. */
  lemma {:induction false} FilterIsSubsequence(rs: seq<Record>, minAge: int,
                                               status: Option<string>, gender: Option<string>)
    requires Filter(rs, minAge, status, gender).Ok?
    ensures SubseqOf(Filter(rs, minAge, status, gender).value, rs)
    decreases |rs|
  {
    if rs != [] {
      var init, last := rs[..|rs| - 1], rs[|rs| - 1];
      assert rs == init + [last];
      FilterIsSubsequence(init, minAge, status, gender);
      SubseqOfSnoc(Filter(init, minAge, status, gender).value, init, last);
    }
  }

  /** Once a prefix of the list raises, the whole filter raises the same error. */
  lemma {:induction false} FilterErrorPersists(rs: seq<Record>, k: nat, minAge: int,
                                               status: Option<string>, gender: Option<string>)
    requires k <= |rs|
    requires Filter(rs[..k], minAge, status, gender).Err?
    ensures Filter(rs, minAge, status, gender) == Filter(rs[..k], minAge, status, gender)
    decreases |rs|
  {
    if k < |rs| {
      var init := rs[..|rs| - 1];
      assert init[..k] == rs[..k];
      FilterErrorPersists(init, k, minAge, status, gender);
    } else {
      assert rs[..k] == rs;
    }
  }

  /** A list every record of which passes the criteria is returned whole. */
  lemma {:induction false} FilterKeepsPassingList(rs: seq<Record>, minAge: int,
                                                  status: Option<string>, gender: Option<string>)
    requires forall j :: 0 <= j < |rs| ==> Keep(rs[j], minAge, status, gender) == Ok(true)
    ensures Filter(rs, minAge, status, gender) == Ok(rs)
    decreases |rs|
  {
    if rs != [] {
      var init := rs[..|rs| - 1];
      assert forall j :: 0 <= j < |init| ==> init[j] == rs[j];
      FilterKeepsPassingList(init, minAge, status, gender);
      assert rs == init + [rs[|rs| - 1]];
    }
  }

  /** Filtering twice with the same criteria gives the same list as filtering once. */
  lemma FilterIdempotent(rs: seq<Record>, minAge: int, status: Option<string>, gender: Option<string>)
    requires Filter(rs, minAge, status, gender).Ok?
    ensures Filter(Filter(rs, minAge, status, gender).value, minAge, status, gender) ==
            Filter(rs, minAge, status, gender)
  {
    var kept := Filter(rs, minAge, status, gender).value;
    forall j | 0 <= j < |kept| ensures Keep(kept[j], minAge, status, gender) == Ok(true) {
      assert kept[j] in kept;
    }
    FilterKeepsPassingList(kept, minAge, status, gender);
  }

  // ---------------------------------------------------------------------
  // The service

  class AthleteService {
    const repository: AthleteRepository

    constructor (repository: AthleteRepository)
      ensures this.repository == repository
    {
      this.repository := repository;
    }

    /**
     * `register_athlete`: an age outside 5..100 or an unknown category raises
     * `ValueError` and stores nothing; otherwise an active athlete with the
     * drawn id is added (unless that id is already stored) and a
     * confirmation is returned.
     */
    method RegisterAthlete(name: string, surname: string, age: int, gender: string, height: int,
                           weight: int, branch: string, category: string, strongSide: string,
                           newId: int) returns (r: Result<string, PyError>)
      requires 10000 <= newId <= 99999
      modifies repository`athletes
      ensures !ValidateAthleteAge(age) || category !in Categories ==>
        r == Err(ValueError) && repository.athletes == old(repository.athletes)
      ensures ValidateAthleteAge(age) && category in Categories ==>
        r == Ok(name + " " + surname + " (" + category + ") sisteme eklendi.") &&
        repository.athletes == Added(old(repository.athletes),
          AthleteProfiles.ProfileRecord(newId, name, surname, age, gender, height, weight,
                                        branch, "Active", strongSide))
    {
      if !ValidateAthleteAge(age) {
        return Err(ValueError);
      }
      if category !in Categories {
        return Err(ValueError);
      }
      var athlete := new AthleteProfiles.AthleteBase(newId, name, surname, age, gender, height,
                                                     weight, branch, "Active", strongSide);
      repository.Add(athlete.ToDict());
      return Ok(name + " " + surname + " (" + category + ") sisteme eklendi.");
    }

    /**
     * `update_athlete_status`: false for an unknown id and for moving a
     * suspended athlete to injured; otherwise the new status (any text) is
     * merged into the record and the answer is true.
     */
    method UpdateAthleteStatus(athleteId: Value, newStatus: string) returns (ok: bool)
      modifies repository`athletes
      ensures var t := Target(old(repository.athletes), Str(athleteId));
        ok <==> (t.Some? &&
                 !(Get(old(repository.athletes)[t.value], "status", VNone) == VStr("Suspended") &&
                   newStatus == "Injured"))
      ensures ok ==>
        repository.athletes == Updated(old(repository.athletes), Str(athleteId), map["status" := VStr(newStatus)])
      ensures !ok ==> repository.athletes == old(repository.athletes)
    {
      var found := repository.GetById(athleteId);
      if found.None? || !Truthy(found.value) {
        return false;
      }
      if Get(found.value, "status", VNone) == VStr("Suspended") && newStatus == "Injured" {
        return false;
      }
      repository.Update(athleteId, map["status" := VStr(newStatus)]);
      return true;
    }

    /** `search_athlete`: scans the stored athletes in order, collecting the matches. */
    method SearchAthlete(keyword: string) returns (r: Result<seq<Record>, PyError>)
      ensures r == Search(repository.athletes, keyword)
    {
      var all := repository.athletes;
      var results: seq<Record> := [];
      var i := 0;
      while i < |all|
        invariant 0 <= i <= |all|
        invariant Search(all[..i], keyword) == Ok(results)
      {
        assert all[..i + 1][..i] == all[..i];
        var m := KeywordMatch(all[i], keyword);
        if m.Err? {
          return Err(AttributeError);
        }
        if m.value {
          results := results + [all[i]];
        }
        i := i + 1;
      }
      assert all[..i] == all;
      return Ok(results);
    }

    /** `filter_athletes_by_criteria`: scans the stored athletes in order, keeping those that pass. */
    method FilterAthletesByCriteria(minAge: int, status: Option<string>, gender: Option<string>)
      returns (r: Result<seq<Record>, PyError>)
      ensures r == Filter(repository.athletes, minAge, status, gender)
    {
      var all := repository.athletes;
      var filtered: seq<Record> := [];
      var i := 0;
      while i < |all|
        invariant 0 <= i <= |all|
        invariant Filter(all[..i], minAge, status, gender) == Ok(filtered)
      {
        assert all[..i + 1][..i] == all[..i];
        var k := Keep(all[i], minAge, status, gender);
        if k.Err? {
          FilterErrorPersists(all, i + 1, minAge, status, gender);
          return Err(k.error);
        }
        if k.value {
          filtered := filtered + [all[i]];
        }
        i := i + 1;
      }
      assert all[..i] == all;
      return Ok(filtered);
    }
  }

  /** A registered athlete whose id was not stored before is found by that id. */
  lemma RegisteredIsFound(rs: seq<Record>, newId: int, name: string, surname: string, age: int,
                          gender: string, height: int, weight: int, branch: string, strongSide: string)
    requires FirstIndex(rs, IntText(newId)).None?
    ensures var rec := AthleteProfiles.ProfileRecord(newId, name, surname, age, gender, height,
                                                     weight, branch, "Active", strongSide);
      Find(Added(rs, rec), IntText(newId)) == Some(rec)
  {
    var rec := AthleteProfiles.ProfileRecord(newId, name, surname, age, gender, height,
                                             weight, branch, "Active", strongSide);
    assert IdText(rec) == IntText(newId);
  }
}
