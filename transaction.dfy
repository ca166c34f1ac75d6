/**
 * A finance transaction (modules/finance/data/transaction.py) and the
 * record it is stored as.
 *
 * `uuid.uuid4()` and `datetime.now()` are parameters: the canonical text
 * of the drawn UUID (always 36 characters) and the formatted timestamp.
 */
module Ledger {
  import opened Common

  /** The description stored when none is given. */
  const NoDescription := "Açıklama belirtilmedi."

  /** The fields a `Transaction` is given once, at construction. */
  datatype Transaction = Transaction(
    transactionId: string, timestamp: string,
    kind: string, category: string, amount: real, description: string)

  /**
   * `Transaction(t_type, category, amount, description)`: the id is the
   * first eight characters of the UUID text, the amount is `float(amount)`
   * (which can raise), and a blank description is replaced by the default.
   */
  function NewTransaction(uuidText: string, timestamp: string, kind: string, category: string,
                          amount: Value, description: string): (r: Result<Transaction, PyError>)
    requires |uuidText| == 36
    ensures r.Ok? <==> FloatOf(amount).Ok?
    ensures r.Err? ==> r.error == FloatOf(amount).error
    ensures r.Ok? ==>
      var t := r.value;
      |t.transactionId| == 8 && t.transactionId == uuidText[..8] &&
      t.timestamp == timestamp && t.kind == kind && t.category == category &&
      t.amount == FloatOf(amount).value
    ensures r.Ok? && !IsBlank(description) ==> r.value.description == description
    ensures r.Ok? && IsBlank(description) ==> r.value.description == NoDescription
  {
    match FloatOf(amount)
    case Err(e) => Err(e)
    case Ok(value) =>
      Ok(Transaction(uuidText[..8], timestamp, kind, category, value,
                     if Strip(description) != [] then description else NoDescription))
  }

  /** The keys `to_dict` writes. */
  const DictKeys: set<string> := {"islem_id", "tarih", "tip", "kategori", "tutar", "aciklama"}

  /** `to_dict`: the record as it is written to the store, keyed in Turkish. */
  function ToDict(t: Transaction): (d: map<string, Value>)
    ensures d.Keys == DictKeys
    ensures d["islem_id"] == VStr(t.transactionId) && d["tarih"] == VStr(t.timestamp)
    ensures d["tip"] == VStr(t.kind) && d["kategori"] == VStr(t.category)
    ensures d["tutar"] == VFloat(t.amount) && d["aciklama"] == VStr(t.description)
    ensures "id" !in d
  {
    map["islem_id" := VStr(t.transactionId), "tarih" := VStr(t.timestamp),
        "tip" := VStr(t.kind), "kategori" := VStr(t.category),
        "tutar" := VFloat(t.amount), "aciklama" := VStr(t.description)]
  }

  /**
   * A stored record as the rest of the finance code reads it: the same
   * fields, with the identifier under `id`.
   */
  datatype Record = Record(
    id: string, date: string, kind: string, category: string,
    amount: real, description: string)

  /** The record a transaction is stored as, with its identifier as `id`. */
  function RecordOf(t: Transaction): (r: Record)
    ensures r.id == t.transactionId && r.date == t.timestamp && r.kind == t.kind
    ensures r.category == t.category && r.amount == t.amount && r.description == t.description
  {
    Record(t.transactionId, t.timestamp, t.kind, t.category, t.amount, t.description)
  }

  // ---------------------------------------------------------------------
  // Sums over records

  /** Sum of the amounts of the records of type `kind`. */
  function SumOfKind(rs: seq<Record>, kind: string): real
  {
    if rs == [] then 0.0
    else SumOfKind(rs[..|rs| - 1], kind) + (if rs[|rs| - 1].kind == kind then rs[|rs| - 1].amount else 0.0)
  }

  /** Appending a record adds its amount to its own type's total and nothing elsewhere. */
  lemma SumOfKindAppend(rs: seq<Record>, r: Record, kind: string)
    ensures SumOfKind(rs + [r], kind) == SumOfKind(rs, kind) + (if r.kind == kind then r.amount else 0.0)
  {
    assert (rs + [r])[..|rs|] == rs;
  }

  /** With only positive amounts on record, every type's total is at least zero. */
  lemma {:induction false} SumOfKindNonNegative(rs: seq<Record>, kind: string)
    requires forall i :: 0 <= i < |rs| ==> rs[i].amount > 0.0
    ensures SumOfKind(rs, kind) >= 0.0
  {
    if rs != [] {
      SumOfKindNonNegative(rs[..|rs| - 1], kind);
    }
  }

  // ---------------------------------------------------------------------
  // Per-key totals

  /** `m[key] = m.get(key, 0) + amount`. */
  function AddAmount(m: map<string, real>, key: string, amount: real): (r: map<string, real>)
    ensures r.Keys == m.Keys + {key}
    ensures r[key] == (if key in m then m[key] else 0.0) + amount
    ensures forall k :: k in m && k != key ==> r[k] == m[k]
  {
    m[key := (if key in m then m[key] else 0.0) + amount]
  }

  /** Accumulate `(key, amount)` pairs into per-key totals, in order. */
  function Totals(entries: seq<(string, real)>): map<string, real>
  {
    if entries == [] then map[]
    else
      var e := entries[|entries| - 1];
      AddAmount(Totals(entries[..|entries| - 1]), e.0, e.1)
  }

  /** Adding one more pair updates only that pair's key. */
  lemma TotalsSnoc(entries: seq<(string, real)>, key: string, amount: real)
    ensures Totals(entries + [(key, amount)]) == AddAmount(Totals(entries), key, amount)
  {
    assert (entries + [(key, amount)])[..|entries|] == entries;
  }

  /** Sum of the amounts paired with `key`. */
  function SumFor(entries: seq<(string, real)>, key: string): real
  {
    if entries == [] then 0.0
    else
      var e := entries[|entries| - 1];
      SumFor(entries[..|entries| - 1], key) + (if e.0 == key then e.1 else 0.0)
  }

  /** The totals have a key exactly for each key that occurs, holding the sum of its amounts. */
  lemma {:induction false} TotalsAreSums(entries: seq<(string, real)>, key: string)
    ensures key in Totals(entries) <==> exists i :: 0 <= i < |entries| && entries[i].0 == key
    ensures key in Totals(entries) ==> Totals(entries)[key] == SumFor(entries, key)
    ensures key !in Totals(entries) ==> SumFor(entries, key) == 0.0
  {
    if entries != [] {
      var init := entries[..|entries| - 1];
      TotalsAreSums(init, key);
      if exists i :: 0 <= i < |init| && init[i].0 == key {
        var i :| 0 <= i < |init| && init[i].0 == key;
        assert entries[i] == init[i];
      }
      if exists i :: 0 <= i < |entries| && entries[i].0 == key {
        var i :| 0 <= i < |entries| && entries[i].0 == key;
        if i < |init| {
          assert init[i] == entries[i];
        }
      }
    }
  }
}
