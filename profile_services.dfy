/**
 * The object-based athlete service of modules/information/BaseFile/services.py.
 * Its store holds `AthleteProfiles.AthleteBase` objects rather than
 * dictionaries: status changes go through the validating `status` setter of
 * the stored object, search compares the integer id and the name only, and
 * the filters apply whenever an argument is not `None`, even an empty one.
 *
 * The store is the service's own list of athlete objects; the random id is a
 * parameter.
 */
module ProfileServices {
  import opened Common
  import AthleteInfo
  import AthleteServices
  import opened AthleteProfiles

  /** The position of the first athlete with this id. */
  function FirstWithId(rs: seq<AthleteBase>, athleteId: int): (r: Option<nat>)
    reads rs
    ensures r.Some? ==> r.value < |rs| && rs[r.value].athleteId == athleteId
    ensures r.Some? ==> forall j :: 0 <= j < r.value ==> rs[j].athleteId != athleteId
    ensures r.None? <==> forall j :: 0 <= j < |rs| ==> rs[j].athleteId != athleteId
    decreases |rs|
  {
    if rs == [] then None
    else if rs[0].athleteId == athleteId then Some(0)
    else
      match FirstWithId(rs[1..], athleteId)
      case None =>
        assert forall j :: 1 <= j < |rs| ==> rs[j] == rs[1..][j - 1];
        None
      case Some(i) => Some(i + 1)
  }

  // ---------------------------------------------------------------------
  // Search

  /** An all-digit keyword whose value is the id, or the keyword inside the name, ignoring case. */
  predicate KeywordMatch(a: AthleteBase, keyword: string)
    reads a
  {
    (IsDigits(keyword) && a.athleteId == DigitsValue(keyword)) ||
    Contains(Lower(a.name), Lower(keyword))
  }

  /** The athletes `search_athlete` returns: every match once, in list order. */
  function Search(rs: seq<AthleteBase>, keyword: string): (r: seq<AthleteBase>)
    reads rs
    ensures SubseqOf(r, rs)
    ensures forall a :: a in r ==> KeywordMatch(a, keyword)
    ensures forall j :: 0 <= j < |rs| && KeywordMatch(rs[j], keyword) ==> rs[j] in r
    decreases |rs|
  {
    if rs == [] then []
    else
      var init, last := rs[..|rs| - 1], rs[|rs| - 1];
      assert rs == init + [last];
      assert forall j :: 0 <= j < |init| ==> init[j] == rs[j];
      var kept := Search(init, keyword);
      SubseqOfSnoc(kept, init, last);
      if KeywordMatch(last, keyword) then kept + [last] else kept
  }

  /** Only the name is searched: an athlete matched by surname alone is not found. */
  lemma SurnameIsNotSearched(a: AthleteBase)
    requires a.name == "Ali" && a.surname == "Kaya" && a.athleteId == 7
    ensures Search([a], "Kaya") == []
  {
    assert !IsDigits("Kaya");
    assert Lower("Ali") == "ali" && Lower("Kaya") == "kaya";
    assert !Contains("ali", "kaya");
    assert [a][..0] == [];
  }

  // ---------------------------------------------------------------------
  // Filter

  /** `status is not None` and `gender is not None`: an empty text still filters. */
  predicate Passes(a: AthleteBase, minAge: int, status: Option<string>, gender: Option<string>)
    reads a
  {
    a.age >= minAge &&
    (status.Some? ==> a.status == status.value) &&
    (gender.Some? ==> Lower(a.gender) == Lower(gender.value))
  }

  /** The athletes `filter_athletes_by_criteria` returns, in list order. */
  function Filter(rs: seq<AthleteBase>, minAge: int, status: Option<string>, gender: Option<string>): (r: seq<AthleteBase>)
    reads rs
    ensures SubseqOf(r, rs)
    ensures forall a :: a in r ==> Passes(a, minAge, status, gender)
    ensures forall j :: 0 <= j < |rs| && Passes(rs[j], minAge, status, gender) ==> rs[j] in r
    decreases |rs|
  {
    if rs == [] then []
    else
      var init, last := rs[..|rs| - 1], rs[|rs| - 1];
      assert rs == init + [last];
      assert forall j :: 0 <= j < |init| ==> init[j] == rs[j];
      var kept := Filter(init, minAge, status, gender);
      SubseqOfSnoc(kept, init, last);
      if Passes(last, minAge, status, gender) then kept + [last] else kept
  }

  /** An empty status is a criterion too: it keeps only athletes whose status is empty. */
  lemma EmptyStatusFilters(rs: seq<AthleteBase>, minAge: int)
    ensures forall a :: a in Filter(rs, minAge, Some(""), None) ==> a.status == ""
  {
  }

  /** Adding a status criterion can only drop athletes from the result. */
  lemma {:induction false} StatusNarrows(rs: seq<AthleteBase>, minAge: int, status: string,
                                         gender: Option<string>)
    ensures SubseqOf(Filter(rs, minAge, Some(status), gender), Filter(rs, minAge, None, gender))
    decreases |rs|
  {
    if rs != [] {
      var init, last := rs[..|rs| - 1], rs[|rs| - 1];
      StatusNarrows(init, minAge, status, gender);
      var narrow, wide := Filter(init, minAge, Some(status), gender), Filter(init, minAge, None, gender);
      SubseqOfSnoc(narrow, wide, last);
    }
  }

  // ---------------------------------------------------------------------
  // The service

  class AthleteService {
    var athletes: seq<AthleteBase>

    /** Starts from the athletes already stored. */
    constructor (athletes: seq<AthleteBase>)
      ensures this.athletes == athletes
    {
      this.athletes := athletes;
    }

    /** The confirmation `register_athlete` returns. */
    static function Confirmation(name: string, gender: string, category: string, height: int,
                                 weight: int): string
    {
      name + " (" + gender + ", " + category + "," + IntText(height) + "cm," + IntText(weight) +
      "kg) başarıyla sisteme eklendi."
    }

    /**
     * `register_athlete`: an age outside 5..100 or an unknown category raises
     * `ValueError` and stores nothing; otherwise a new active athlete with
     * the drawn id and no surname is stored, unless that id is taken.
     */
    method RegisterAthlete(name: string, age: int, gender: string, height: int, weight: int,
                           branch: string, category: string, strongSide: string, newId: int)
      returns (r: Result<string, PyError>)
      requires 10000 <= newId <= 99999
      modifies this`athletes
      ensures !AthleteServices.ValidateAthleteAge(age) || category !in AthleteServices.Categories ==>
        r == Err(ValueError) && athletes == old(athletes)
      ensures AthleteServices.ValidateAthleteAge(age) && category in AthleteServices.Categories ==>
        r == Ok(Confirmation(name, gender, category, height, weight))
      ensures r.Ok? && old(FirstWithId(athletes, newId)).Some? ==> athletes == old(athletes)
      ensures r.Ok? && old(FirstWithId(athletes, newId)).None? ==>
        |athletes| == |old(athletes)| + 1 && athletes[..|old(athletes)|] == old(athletes) &&
        fresh(athletes[|old(athletes)|]) &&
        athletes[|old(athletes)|].ToDict() ==
          ProfileRecord(newId, name, "", age, gender, height, weight, branch, "Active", strongSide)
    {
      if !AthleteServices.ValidateAthleteAge(age) {
        return Err(ValueError);
      }
      if category !in AthleteServices.Categories {
        return Err(ValueError);
      }
      var athlete := new AthleteBase(newId, name, "", age, gender, height, weight, branch,
                                     "Active", strongSide);
      if FirstWithId(athletes, newId).None? {
        athletes := athletes + [athlete];
      }
      return Ok(Confirmation(name, gender, category, height, weight));
    }

    /**
     * `update_athlete_status`: false for an unknown id and for moving a
     * suspended athlete to injured; otherwise the status setter of the stored
     * athlete decides, and a status it refuses (`ValueError`) is reported as
     * false with nothing changed.
     */
    method UpdateAthleteStatus(athleteId: int, newStatus: string) returns (ok: bool)
      modifies athletes`status
      ensures athletes == old(athletes)
      ensures var k := old(FirstWithId(athletes, athleteId));
        ok <==> (k.Some? && newStatus in AthleteInfo.Statuses &&
                 !(old(athletes[k.value].status) == "Suspended" && newStatus == "Injured"))
      ensures ok ==> athletes[old(FirstWithId(athletes, athleteId)).value].status == newStatus
      ensures forall a :: a in athletes && (!ok || a != athletes[old(FirstWithId(athletes, athleteId)).value]) ==>
        a.status == old(a.status)
    {
      var k := FirstWithId(athletes, athleteId);
      if k.None? {
        return false;
      }
      var athlete := athletes[k.value];
      if athlete.status == "Suspended" && newStatus == "Injured" {
        return false;
      }
      var error := athlete.SetStatus(newStatus);
      return error.None?;
    }

    /** `search_athlete`: scans the athletes in order, collecting the matches. */
    method SearchAthlete(keyword: string) returns (r: seq<AthleteBase>)
      ensures r == Search(athletes, keyword)
    {
      var all := athletes;
      r := [];
      var i := 0;
      while i < |all|
        invariant 0 <= i <= |all|
        invariant r == Search(all[..i], keyword)
      {
        assert all[..i + 1][..i] == all[..i];
        var a := all[i];
        if IsDigits(keyword) && a.athleteId == DigitsValue(keyword) {
          r := r + [a];
        } else if Contains(Lower(a.name), Lower(keyword)) {
          r := r + [a];
        }
        i := i + 1;
      }
      assert all[..i] == all;
    }

    /** `filter_athletes_by_criteria`: scans the athletes in order, keeping those that pass. */
    method FilterAthletesByCriteria(minAge: int, status: Option<string>, gender: Option<string>)
      returns (r: seq<AthleteBase>)
      ensures r == Filter(athletes, minAge, status, gender)
    {
      var all := athletes;
      r := [];
      var i := 0;
      while i < |all|
        invariant 0 <= i <= |all|
        invariant r == Filter(all[..i], minAge, status, gender)
      {
        assert all[..i + 1][..i] == all[..i];
        var a := all[i];
        var keep := a.age >= minAge && (status.None? || a.status == status.value) &&
                    (gender.None? || Lower(a.gender) == Lower(gender.value));
        if keep {
          r := r + [a];
        }
        i := i + 1;
      }
      assert all[..i] == all;
    }
  }
}
