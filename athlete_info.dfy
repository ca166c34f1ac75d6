/**
 * The five-field athlete of modules/information/base.py: an id, a name, an
 * age, a sport branch and a status, with guarded setters for the age and
 * the status and the body-mass-index helper.
 */
module AthleteInfo {
  import opened Common

  /** The statuses the `status` setter accepts. */
  const Statuses: seq<string> := ["Active", "Injured", "Suspended", "Retired", "TransferListed", "Excluded"]

  class AthleteBase {
    var athleteId: Value
    var name: string
    var age: int
    var sportBranch: string
    var status: string

    /** Stores the five arguments without checking any of them. */
    constructor (athleteId: Value, name: string, age: int, sportBranch: string, status: string)
      ensures this.athleteId == athleteId && this.name == name && this.age == age
      ensures this.sportBranch == sportBranch && this.status == status
    {
      this.athleteId := athleteId;
      this.name := name;
      this.age := age;
      this.sportBranch := sportBranch;
      this.status := status;
    }

    /**
     * Only an `int` (a `bool` counts as one) strictly between 0 and 100
     * replaces the age; anything else is reported and ignored.
     */
    method SetAge(newAge: Value)
      modifies this`age
      ensures age == if IsInt(newAge) && 0 < AsInt(newAge) < 100 then AsInt(newAge) else old(age)
      ensures 0 < old(age) < 100 ==> 0 < age < 100
    {
      if IsInt(newAge) && 0 < AsInt(newAge) < 100 {
        age := AsInt(newAge);
      }
    }

    /**
     * Only one of the six known statuses replaces the current one; any other
     * value raises `ValueError` and leaves the status as it was.
     */
    method SetStatus(newStatus: string) returns (error: Option<PyError>)
      modifies this`status
      ensures error.None? <==> newStatus in Statuses
      ensures error.Some? ==> error.value == ValueError
      ensures status == if newStatus in Statuses then newStatus else old(status)
      ensures old(status) in Statuses ==> status in Statuses
    {
      if newStatus in Statuses {
        status := newStatus;
        error := None;
      } else {
        error := Some(ValueError);
      }
    }

    /** `weight / height ** 2`, or 0.0 for a height that is not positive. */
    static function CalculateBmi(weight: real, height: real): (bmi: real)
      ensures height <= 0.0 ==> bmi == 0.0
      ensures height > 0.0 ==> bmi * (height * height) == weight
    {
      if height <= 0.0 then 0.0 else weight / (height * height)
    }
  }
}
