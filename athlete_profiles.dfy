/**
 * The ten-field athlete of modules/information/BaseFile/base.py: identity,
 * body measurements, branch, status and strong side, with guarded setters
 * for the age and the status, the body-mass index with its centimetre
 * reading, and the dictionary form the repository stores.
 */
module AthleteProfiles {
  import opened Common
  import AthleteInfo

  /** The keys of `to_dict`, one per stored field. */
  const ProfileKeys: set<string> := {
    "athlete_id", "name", "surname", "age", "gender", "height", "weight",
    "sport_branch", "strong_side", "status"}

  class AthleteBase {
    var athleteId: int
    var name: string
    var surname: string
    var age: int
    var gender: string
    var height: int
    var weight: int
    var sportBranch: string
    var status: string
    var strongSide: string

    /** Stores the ten arguments without checking any of them, the status included. */
    constructor (athleteId: int, name: string, surname: string, age: int, gender: string,
                 height: int, weight: int, sportBranch: string, status: string, strongSide: string)
      ensures this.athleteId == athleteId && this.name == name && this.surname == surname
      ensures this.age == age && this.gender == gender && this.height == height
      ensures this.weight == weight && this.sportBranch == sportBranch
      ensures this.status == status && this.strongSide == strongSide
    {
      this.athleteId := athleteId;
      this.name := name;
      this.surname := surname;
      this.age := age;
      this.gender := gender;
      this.height := height;
      this.weight := weight;
      this.sportBranch := sportBranch;
      this.status := status;
      this.strongSide := strongSide;
    }

    /**
     * Only an `int` (a `bool` counts as one) strictly between 10 and 50
     * replaces the age; anything else is reported and ignored.
     */
    method SetAge(newAge: Value)
      modifies this`age
      ensures age == if IsInt(newAge) && 10 < AsInt(newAge) < 50 then AsInt(newAge) else old(age)
      ensures 10 < old(age) < 50 ==> 10 < age < 50
    {
      if IsInt(newAge) && 10 < AsInt(newAge) < 50 {
        age := AsInt(newAge);
      }
    }

    /**
     * Only one of the six known statuses replaces the current one; any other
     * value raises `ValueError` and leaves the status as it was.
     */
    method SetStatus(newStatus: string) returns (error: Option<PyError>)
      modifies this`status
      ensures error.None? <==> newStatus in AthleteInfo.Statuses
      ensures error.Some? ==> error.value == ValueError
      ensures status == if newStatus in AthleteInfo.Statuses then newStatus else old(status)
      ensures old(status) in AthleteInfo.Statuses ==> status in AthleteInfo.Statuses
    {
      if newStatus in AthleteInfo.Statuses {
        status := newStatus;
        error := None;
      } else {
        error := Some(ValueError);
      }
    }

    /** `to_dict`: the ten stored fields under their own names. */
    function ToDict(): (d: map<string, Value>)
      reads this
      ensures d == ProfileRecord(athleteId, name, surname, age, gender, height, weight,
                                 sportBranch, status, strongSide)
      ensures d.Keys == ProfileKeys
    {
      ProfileRecord(athleteId, name, surname, age, gender, height, weight,
                    sportBranch, status, strongSide)
    }
  }

  /** The dictionary of an athlete with these ten fields, each under its own name. */
  function ProfileRecord(athleteId: int, name: string, surname: string, age: int, gender: string,
                         height: int, weight: int, sportBranch: string, status: string,
                         strongSide: string): (d: map<string, Value>)
    ensures d.Keys == ProfileKeys
    ensures d["athlete_id"] == VInt(athleteId) && d["name"] == VStr(name)
    ensures d["surname"] == VStr(surname) && d["age"] == VInt(age)
    ensures d["gender"] == VStr(gender) && d["height"] == VInt(height)
    ensures d["weight"] == VInt(weight) && d["sport_branch"] == VStr(sportBranch)
    ensures d["strong_side"] == VStr(strongSide) && d["status"] == VStr(status)
  {
    map["athlete_id" := VInt(athleteId), "name" := VStr(name), "surname" := VStr(surname),
        "age" := VInt(age), "gender" := VStr(gender), "height" := VInt(height),
        "weight" := VInt(weight), "sport_branch" := VStr(sportBranch),
        "strong_side" := VStr(strongSide), "status" := VStr(status)]
  }

  /** A height above 3.0 is read as centimetres and converted to metres. */
  function HeightInMetres(height: real): (m: real)
    ensures height > 3.0 ==> m * 100.0 == height
    ensures height <= 3.0 ==> m == height
  {
    if height > 3.0 then height / 100.0 else height
  }

  /** `calculate_bmi`: weight over the squared height in metres, or 0.0 for a height that is not positive. */
  function CalculateBmi(weight: real, height: real): (bmi: real)
    ensures HeightInMetres(height) <= 0.0 ==> bmi == 0.0
    ensures HeightInMetres(height) > 0.0 ==>
      bmi * (HeightInMetres(height) * HeightInMetres(height)) == weight
  {
    var m := HeightInMetres(height);
    if m <= 0.0 then 0.0 else weight / (m * m)
  }

  /**
   * A height given in centimetres gives the same index as the same height
   * in metres (for heights from 3 cm up to 3 m).
   */
  lemma BmiUnitsAgree(weight: real, metres: real)
    requires 0.03 < metres <= 3.0
    ensures CalculateBmi(weight, metres * 100.0) == CalculateBmi(weight, metres)
  {
    assert HeightInMetres(metres * 100.0) == metres;
  }
}
