/**
 * The athlete repository of modules/information/repository.py: a list of
 * athlete dictionaries looked up by the text of their `"athlete_id"`, with
 * add, delete and merge-update, and filters by branch and by status.
 *
 * The list lives in memory; loading it from and saving it to the JSON file
 * are not part of this model (the loaded list is the constructor's argument).
 * Every operation's new list is given by a function of the old one
 * (`Added`, `Removed`, `Updated`), and the lemmas below are about those.
 */
module AthleteStore {
  import opened Common

  /** An athlete dictionary. */
  type Record = map<string, Value>

  /** `d.get(key, default)`. */
  function Get(rec: Record, key: string, default: Value): (v: Value)
    ensures key in rec ==> v == rec[key]
    ensures key !in rec ==> v == default
  {
    if key in rec then rec[key] else default
  }

  /** `str(f)` of a float: whole numbers as Python writes them, others by their integer part. */
  function FloatText(r: real): (t: string)
    ensures |t| >= 3
  {
    if r == r.Floor as real then IntText(r.Floor) + ".0" else IntText(r.Floor) + ".x"
  }

  /** `str(v)`. */
  function Str(v: Value): string
  {
    match v
    case VInt(i) => IntText(i)
    case VFloat(r) => FloatText(r)
    case VBool(b) => if b then "True" else "False"
    case VStr(s) => s
    case VNone => "None"
  }

  /** The text `get_by_id` compares: `str(a.get("athlete_id"))`. */
  function IdText(rec: Record): string
  {
    Str(Get(rec, "athlete_id", VNone))
  }

  /** Python's `if athlete:` on a dictionary: true when it is not empty. */
  predicate Truthy(rec: Record)
  {
    rec != map[]
  }

  /** No two records have the same id text. */
  predicate UniqueIds(rs: seq<Record>)
  {
    forall i, j :: 0 <= i < j < |rs| ==> IdText(rs[i]) != IdText(rs[j])
  }

  // ---------------------------------------------------------------------
  // Lookup

  /** The position of the first record whose id text is `key`. */
  function FirstIndex(rs: seq<Record>, key: string): (r: Option<nat>)
    ensures r.Some? ==> r.value < |rs| && IdText(rs[r.value]) == key
    ensures r.Some? ==> forall j :: 0 <= j < r.value ==> IdText(rs[j]) != key
    ensures r.None? <==> forall j :: 0 <= j < |rs| ==> IdText(rs[j]) != key
    decreases |rs|
  {
    if rs == [] then None
    else if IdText(rs[0]) == key then Some(0)
    else
      match FirstIndex(rs[1..], key)
      case None =>
        assert forall j :: 1 <= j < |rs| ==> rs[j] == rs[1..][j - 1];
        None
      case Some(i) => Some(i + 1)
  }

  /** What `get_by_id` returns: the first record with that id text, if any. */
  function Find(rs: seq<Record>, key: string): (r: Option<Record>)
    ensures r.Some? <==> exists j :: 0 <= j < |rs| && IdText(rs[j]) == key
    ensures r.Some? ==> r.value in rs && IdText(r.value) == key
  {
    match FirstIndex(rs, key)
    case None => None
    case Some(i) => Some(rs[i])
  }

  /**
   * The position `add`, `delete_by_id` and `update` treat as present: the
   * first match, provided it is a non-empty dictionary.
   */
  function Target(rs: seq<Record>, key: string): (r: Option<nat>)
    ensures r.Some? ==> r.value < |rs| && IdText(rs[r.value]) == key && Truthy(rs[r.value])
    ensures r.Some? ==> r == FirstIndex(rs, key)
    ensures r.None? ==> Find(rs, key).None? || !Truthy(Find(rs, key).value)
  {
    match FirstIndex(rs, key)
    case None => None
    case Some(i) => if Truthy(rs[i]) then Some(i) else None
  }

  // ---------------------------------------------------------------------
  // The new list after each change

  /** `add`: the record is appended unless its id is already present. */
  function Added(rs: seq<Record>, rec: Record): (r: seq<Record>)
    ensures Target(rs, IdText(rec)).Some? ==> r == rs
    ensures Target(rs, IdText(rec)).None? ==> r == rs + [rec]
    ensures FirstIndex(rs, IdText(rec)).None? ==> Find(r, IdText(rec)) == Some(rec)
  {
    if Target(rs, IdText(rec)).Some? then rs
    else
      var r := rs + [rec];
      assert forall j :: 0 <= j < |rs| ==> r[j] == rs[j];
      assert r[|rs|] == rec;
      r
  }

  /** `delete_by_id`: the found record is removed. */
  function Removed(rs: seq<Record>, key: string): (r: seq<Record>)
    ensures Target(rs, key).None? ==> r == rs
    ensures Target(rs, key).Some? ==>
      |r| == |rs| - 1 && multiset(r) + multiset{rs[Target(rs, key).value]} == multiset(rs)
    // the records before the target stay in place and those after it move up by one
    ensures Target(rs, key).Some? ==>
      var i := Target(rs, key).value;
      r[..i] == rs[..i] && r[i..] == rs[i + 1..]
  {
    match Target(rs, key)
    case None => rs
    case Some(i) =>
      assert rs == rs[..i] + [rs[i]] + rs[i + 1..];
      rs[..i] + rs[i + 1..]
  }

  /** `update`: the given entries are merged into the found record. */
  function Updated(rs: seq<Record>, key: string, data: Record): (r: seq<Record>)
    ensures |r| == |rs|
    ensures Target(rs, key).None? ==> r == rs
    ensures Target(rs, key).Some? ==>
      var i := Target(rs, key).value;
      (forall j :: 0 <= j < |rs| && j != i ==> r[j] == rs[j]) &&
      r[i].Keys == rs[i].Keys + data.Keys &&
      (forall k :: k in data ==> r[i][k] == data[k]) &&
      (forall k :: k in rs[i] && k !in data ==> r[i][k] == rs[i][k])
  {
    match Target(rs, key)
    case None => rs
    case Some(i) => rs[i := rs[i] + data]
  }

  // ---------------------------------------------------------------------
  // What the changes preserve

  /** Once an id is present, adding any record leaves every earlier lookup unchanged. */
  lemma AddedKeepsLookups(rs: seq<Record>, rec: Record, key: string)
    requires Find(rs, key).Some?
    ensures Find(Added(rs, rec), key) == Find(rs, key)
  {
    var r := Added(rs, rec);
    var i := FirstIndex(rs, key).value;
    if r != rs {
      assert r[..|rs|] == rs;
      assert FirstIndex(r, key) == Some(i) by {
        assert forall j :: 0 <= j <= i ==> r[j] == rs[j];
      }
    }
  }

  /** A list without empty records and with distinct ids keeps its ids distinct under `add`. */
  lemma AddedKeepsIdsUnique(rs: seq<Record>, rec: Record)
    requires UniqueIds(rs)
    requires forall j :: 0 <= j < |rs| ==> Truthy(rs[j])
    ensures UniqueIds(Added(rs, rec))
  {
    if Target(rs, IdText(rec)).None? {
      assert FirstIndex(rs, IdText(rec)).None?;
      var r := rs + [rec];
      forall i, j | 0 <= i < j < |r| ensures IdText(r[i]) != IdText(r[j]) {
        if j == |rs| {
          assert r[i] == rs[i];
        } else {
          assert r[i] == rs[i] && r[j] == rs[j];
        }
      }
    }
  }

  /** With distinct ids, a deleted id is no longer found. */
  lemma RemovedForgetsId(rs: seq<Record>, key: string)
    requires UniqueIds(rs)
    requires Target(rs, key).Some?
    ensures Find(Removed(rs, key), key).None?
  {
    var i := Target(rs, key).value;
    var r := Removed(rs, key);
    assert r == rs[..i] + rs[i + 1..];
    forall j | 0 <= j < |r| ensures IdText(r[j]) != key {
      if j < i {
        assert r[j] == rs[j];
      } else {
        assert r[j] == rs[j + 1];
      }
    }
  }

  /** An update that does not touch `"athlete_id"` leaves every id text as it was. */
  lemma UpdatedKeepsIds(rs: seq<Record>, key: string, data: Record)
    requires "athlete_id" !in data
    ensures forall j :: 0 <= j < |rs| ==> IdText(Updated(rs, key, data)[j]) == IdText(rs[j])
  {
  }

  // ---------------------------------------------------------------------
  // Filters

  /** `rec.get(key, "").lower()` needs a text; any other value raises `AttributeError`. */
  function TextField(rec: Record, key: string): (r: Result<string, PyError>)
    ensures r.Err? <==> key in rec && !rec[key].VStr?
    ensures r.Err? ==> r.error == AttributeError
  {
    if key !in rec then Ok("")
    else if rec[key].VStr? then Ok(rec[key].s)
    else Err(AttributeError)
  }

  /** `rec.get(key, "").lower() == text.lower()`. */
  predicate FieldMatches(rec: Record, key: string, text: string)
  {
    TextField(rec, key).Ok? && Lower(TextField(rec, key).value) == Lower(text)
  }

  /**
   * `[a for a in rs if a.get(key, "").lower() == text.lower()]`: the
   * matching records in order, or the error a non-text entry raises.
   */
  function WithField(rs: seq<Record>, key: string, text: string): (r: Result<seq<Record>, PyError>)
    ensures r.Err? <==> exists j :: 0 <= j < |rs| && TextField(rs[j], key).Err?
    ensures r.Ok? ==> forall x :: x in r.value ==> FieldMatches(x, key, text)
    ensures r.Ok? ==> forall j :: 0 <= j < |rs| && FieldMatches(rs[j], key, text) ==> rs[j] in r.value
    decreases |rs|
  {
    if rs == [] then Ok([])
    else
      var init, last := rs[..|rs| - 1], rs[|rs| - 1];
      assert forall j :: 0 <= j < |init| ==> init[j] == rs[j];
      match WithField(init, key, text)
      case Err(e) => Err(e)
      case Ok(kept) =>
        match TextField(last, key)
        case Err(e) => Err(e)
        case Ok(t) =>
          assert rs == init + [last];
          if Lower(t) == Lower(text) then Ok(kept + [last]) else Ok(kept)
  }

  /** The filtered records keep the list's order. */
  lemma {:induction false} WithFieldInOrder(rs: seq<Record>, key: string, text: string)
    ensures WithField(rs, key, text).Ok? ==> SubseqOf(WithField(rs, key, text).value, rs)
    decreases |rs|
  {
    if rs != [] && WithField(rs, key, text).Ok? {
      var init, last := rs[..|rs| - 1], rs[|rs| - 1];
      assert rs == init + [last];
      WithFieldInOrder(init, key, text);
      SubseqOfSnoc(WithField(init, key, text).value, init, last);
    }
  }

  /** The filters ignore the case of the text they are given. */
  lemma {:induction false} WithFieldIgnoresCase(rs: seq<Record>, key: string, text: string)
    ensures WithField(rs, key, Upper(text)) == WithField(rs, key, text)
    decreases |rs|
  {
    LowerOfUpper(text);
    if rs != [] {
      WithFieldIgnoresCase(rs[..|rs| - 1], key, text);
    }
  }

  // ---------------------------------------------------------------------
  // The repository

  class AthleteRepository {
    var athletes: seq<Record>

    /** Starts from the list read from the JSON file (empty when there is none). */
    constructor (loaded: seq<Record>)
      ensures athletes == loaded
    {
      athletes := loaded;
    }

    /** `get_by_id`: scans the list for the first record whose id text is `str(athleteId)`. */
    method GetById(athleteId: Value) returns (r: Option<Record>)
      ensures r == Find(athletes, Str(athleteId))
    {
      var key := Str(athleteId);
      var i := 0;
      while i < |athletes|
        invariant 0 <= i <= |athletes|
        invariant forall j :: 0 <= j < i ==> IdText(athletes[j]) != key
      {
        if IdText(athletes[i]) == key {
          return Some(athletes[i]);
        }
        i := i + 1;
      }
      return None;
    }

    /** `add`: appends the record unless one with the same id text is already stored. */
    method Add(record: Record)
      modifies this`athletes
      ensures athletes == Added(old(athletes), record)
    {
      var existing := GetById(Get(record, "athlete_id", VNone));
      if existing.Some? && Truthy(existing.value) {
        return;
      }
      athletes := athletes + [record];
    }

    /** `delete_by_id`: removes the found record and reports whether there was one. */
    method DeleteById(athleteId: Value) returns (deleted: bool)
      modifies this`athletes
      ensures deleted <==> Target(old(athletes), Str(athleteId)).Some?
      ensures athletes == Removed(old(athletes), Str(athleteId))
    {
      var found := GetById(athleteId);
      if found.Some? && Truthy(found.value) {
        var i := FirstIndex(athletes, Str(athleteId)).value;
        athletes := athletes[..i] + athletes[i + 1..];
        return true;
      }
      return false;
    }

    /** `update`: merges `data` into the found record; nothing happens when there is none. */
    method Update(athleteId: Value, data: Record)
      modifies this`athletes
      ensures athletes == Updated(old(athletes), Str(athleteId), data)
    {
      var found := GetById(athleteId);
      if found.Some? && Truthy(found.value) {
        var i := FirstIndex(athletes, Str(athleteId)).value;
        athletes := athletes[i := athletes[i] + data];
      }
    }

    /** `get_by_branch`: the athletes of a branch, compared without regard to case. */
    function GetByBranch(branch: string): (r: Result<seq<Record>, PyError>)
      reads this
      ensures r.Err? <==> exists j :: 0 <= j < |athletes| && TextField(athletes[j], "sport_branch").Err?
      ensures r.Ok? ==> SubseqOf(r.value, athletes)
      ensures r.Ok? ==> forall x :: x in r.value ==> FieldMatches(x, "sport_branch", branch)
      ensures r.Ok? ==> forall j :: 0 <= j < |athletes| && FieldMatches(athletes[j], "sport_branch", branch) ==>
        athletes[j] in r.value
    {
      WithFieldInOrder(athletes, "sport_branch", branch);
      WithField(athletes, "sport_branch", branch)
    }

    /** `get_by_status`: the athletes with a status, compared without regard to case. */
    function GetByStatus(status: string): (r: Result<seq<Record>, PyError>)
      reads this
      ensures r.Err? <==> exists j :: 0 <= j < |athletes| && TextField(athletes[j], "status").Err?
      ensures r.Ok? ==> SubseqOf(r.value, athletes)
      ensures r.Ok? ==> forall x :: x in r.value ==> FieldMatches(x, "status", status)
      ensures r.Ok? ==> forall j :: 0 <= j < |athletes| && FieldMatches(athletes[j], "status", status) ==>
        athletes[j] in r.value
    {
      WithFieldInOrder(athletes, "status", status);
      WithField(athletes, "status", status)
    }
  }
}
