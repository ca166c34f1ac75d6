/**
 * The ledger service of modules/finance/services/manager.py.
 *
 * The JSON file behind `FinanceRepository` is the in-memory record list
 * `records`; loading it is reading the field and saving it is assigning the
 * field, so storage errors do not arise. The UUID text and the timestamp a
 * new transaction takes are parameters.
 */
module FinanceService {
  import opened Common
  import opened FinanceRules
  import opened Ledger

  /** What `add_transaction` reports; `Success()` is the boolean it returns. */
  datatype AddOutcome =
    | Saved
    | NotNumeric
    | Blocked(error: FinanceError)
    | Unexpected(failure: PyError)
  {
    predicate Success()
    {
      Saved?
    }

    /** The message returned with the flag; a `FinanceError` is shown by its headline. */
    function Message(): string
    {
      match this
      case Saved => "İşlem başarıyla kaydedildi."
      case NotNumeric => "Hata: Tutar sayısal olmalıdır."
      case Blocked(e) => "Engel: " + e.Headline()
      case Unexpected(f) => "Beklenmeyen Hata: " + PyErrorText(f)
    }
  }

  /** What `update_transaction` reports. */
  datatype UpdateOutcome =
    | Updated
    | NotFound
    | InvalidNewAmount
    | UpdateBlocked(error: FinanceError)
    | UpdateFailed(failure: PyError)
  {
    predicate Success()
    {
      Updated?
    }

    function Message(): string
    {
      match this
      case Updated => "Güncelleme başarılı."
      case NotFound => "Kayıt bulunamadı."
      case InvalidNewAmount => "Yeni tutar geçersiz."
      case UpdateBlocked(e) => "Güncelleme Engeli: " + e.Headline()
      case UpdateFailed(f) => "Hata: " + PyErrorText(f)
    }
  }

  /** `[t for t in records if t["id"] != id]`. */
  function Without(rs: seq<Record>, id: string): (r: seq<Record>)
    ensures forall i :: 0 <= i < |r| ==> r[i].id != id && r[i] in rs
    ensures forall i :: 0 <= i < |rs| && rs[i].id != id ==> rs[i] in r
    ensures |r| <= |rs|
  {
    if rs == [] then []
    else
      var last := rs[|rs| - 1];
      var kept := Without(rs[..|rs| - 1], id);
      assert rs == rs[..|rs| - 1] + [last];
      if last.id != id then kept + [last] else kept
  }

  /** The records that stay keep their order. */
  lemma {:induction false} WithoutKeepsOrder(rs: seq<Record>, id: string)
    ensures SubseqOf(Without(rs, id), rs)
  {
    if rs != [] {
      var init, last := rs[..|rs| - 1], rs[|rs| - 1];
      assert rs == init + [last];
      WithoutKeepsOrder(init, id);
      SubseqOfSnoc(Without(init, id), init, last);
    }
  }

  /** How many records carry the id. */
  function CountWithId(rs: seq<Record>, id: string): nat
  {
    if rs == [] then 0
    else CountWithId(rs[..|rs| - 1], id) + (if rs[|rs| - 1].id == id then 1 else 0)
  }

  /** The filter drops exactly the records that carry the id. */
  lemma {:induction false} WithoutLength(rs: seq<Record>, id: string)
    ensures |Without(rs, id)| == |rs| - CountWithId(rs, id)
  {
    if rs != [] {
      WithoutLength(rs[..|rs| - 1], id);
    }
  }

  lemma {:induction false} CountWithIdZero(rs: seq<Record>, id: string)
    ensures CountWithId(rs, id) == 0 <==> forall i :: 0 <= i < |rs| ==> rs[i].id != id
  {
    if rs != [] {
      var init := rs[..|rs| - 1];
      CountWithIdZero(init, id);
      if exists i :: 0 <= i < |init| && init[i].id == id {
        var i :| 0 <= i < |init| && init[i].id == id;
        assert rs[i] == init[i];
      }
      if forall i :: 0 <= i < |init| ==> init[i].id != id {
        assert forall i :: 0 <= i < |init| ==> rs[i] == init[i];
      }
    }
  }

  /** Nothing is filtered out exactly when no record carries the id. */
  lemma WithoutKeepsAll(rs: seq<Record>, id: string)
    ensures |Without(rs, id)| == |rs| <==> forall i :: 0 <= i < |rs| ==> rs[i].id != id
  {
    WithoutLength(rs, id);
    CountWithIdZero(rs, id);
  }

  /** When no record carries the id, the filter returns the records unchanged. */
  lemma {:induction false} WithoutNoMatch(rs: seq<Record>, id: string)
    requires forall i :: 0 <= i < |rs| ==> rs[i].id != id
    ensures Without(rs, id) == rs
  {
    if rs != [] {
      var init := rs[..|rs| - 1];
      WithoutNoMatch(init, id);
      assert rs == init + [rs[|rs| - 1]];
    }
  }

  /** The position of the first record with the id, if any. */
  function FirstWithId(rs: seq<Record>, id: string): (r: Option<nat>)
    ensures r.Some? ==>
      r.value < |rs| && rs[r.value].id == id && forall j :: 0 <= j < r.value ==> rs[j].id != id
    ensures r.None? ==> forall j :: 0 <= j < |rs| ==> rs[j].id != id
  {
    if rs == [] then None
    else if rs[0].id == id then Some(0)
    else
      match FirstWithId(rs[1..], id)
      case None => None
      case Some(k) => Some(k + 1)
  }

  /** `get_financial_summary`: income, expense and their difference. */
  datatype Summary = Summary(totalIncome: real, totalExpense: real, balance: real)

  function SummaryOf(rs: seq<Record>): (s: Summary)
    ensures s.balance == s.totalIncome - s.totalExpense
  {
    var income := SumOfKind(rs, Income.Value());
    var expense := SumOfKind(rs, Expense.Value());
    Summary(income, expense, income - expense)
  }

  /**
   * Recording an income raises income and balance by its amount, an expense
   * raises expense and lowers the balance, and a record of any other type
   * changes neither total.
   */
  lemma SummaryOfAppend(rs: seq<Record>, r: Record)
    ensures var before, after := SummaryOf(rs), SummaryOf(rs + [r]);
      (r.kind == Income.Value() ==>
        after == Summary(before.totalIncome + r.amount, before.totalExpense, before.balance + r.amount)) &&
      (r.kind == Expense.Value() ==>
        after == Summary(before.totalIncome, before.totalExpense + r.amount, before.balance - r.amount)) &&
      (r.kind != Income.Value() && r.kind != Expense.Value() ==> after == before)
  {
    SumOfKindAppend(rs, r, Income.Value());
    SumOfKindAppend(rs, r, Expense.Value());
  }

  /** The `"tip - kategori"` key a record is reported under. */
  function BreakdownKey(r: Record): string
  {
    r.kind + " - " + r.category
  }

  /** The records as (key, amount) pairs. */
  function BreakdownEntries(rs: seq<Record>): (es: seq<(string, real)>)
    ensures |es| == |rs|
    ensures forall i :: 0 <= i < |rs| ==> es[i] == (BreakdownKey(rs[i]), rs[i].amount)
  {
    seq(|rs|, i requires 0 <= i < |rs| => (BreakdownKey(rs[i]), rs[i].amount))
  }

  class FinanceManager {
    /** The stored records, in the order they were saved. */
    var records: seq<Record>

    constructor (records: seq<Record>)
      ensures this.records == records
    {
      this.records := records;
    }

    /**
     * `add_transaction`: the amount must convert with `float`, then pass the
     * limits, then the category check; only then is one record appended.
     */
    method AddTransaction(kind: string, category: string, amount: Value, description: string,
                          uuidText: string, timestamp: string)
      returns (outcome: AddOutcome)
      requires |uuidText| == 36
      modifies this`records
      ensures FloatOf(amount) == Err(ValueError) ==> outcome == NotNumeric
      ensures FloatOf(amount).Err? && FloatOf(amount).error != ValueError ==>
        outcome == Unexpected(FloatOf(amount).error)
      ensures FloatOf(amount).Ok? && CheckBusinessLimits(FloatOf(amount).value).Err? ==>
        outcome == Blocked(CheckBusinessLimits(FloatOf(amount).value).error)
      ensures (FloatOf(amount).Ok? && CheckBusinessLimits(FloatOf(amount).value).Ok? &&
               ValidateCategoryConsistency(kind, category).Err?) ==>
        outcome == Blocked(ValidateCategoryConsistency(kind, category).error)
      ensures outcome.Success() <==>
        FloatOf(amount).Ok? && CheckBusinessLimits(FloatOf(amount).value).Ok? &&
        ValidateCategoryConsistency(kind, category).Ok?
      ensures outcome.Success() ==>
        var t := NewTransaction(uuidText, timestamp, kind, category, VFloat(FloatOf(amount).value), description);
        t.Ok? && records == old(records) + [RecordOf(t.value)]
      ensures !outcome.Success() ==> records == old(records)
    {
      var value := FloatOf(amount);
      if value.Err? {
        if value.error == ValueError {
          return NotNumeric;
        }
        return Unexpected(value.error);
      }
      var limits := CheckBusinessLimits(value.value);
      if limits.Err? {
        return Blocked(limits.error);
      }
      var consistent := ValidateCategoryConsistency(kind, category);
      if consistent.Err? {
        return Blocked(consistent.error);
      }
      var t := NewTransaction(uuidText, timestamp, kind, category, VFloat(value.value), description);
      records := records + [RecordOf(t.value)];
      return Saved;
    }

    /**
     * `delete_transaction`: every record with the id is dropped; when none
     * matched, nothing is written and the call fails.
     */
    method DeleteTransaction(id: string) returns (ok: bool, message: string)
      modifies this`records
      ensures ok <==> exists i :: 0 <= i < |old(records)| && old(records)[i].id == id
      ensures ok ==> records == Without(old(records), id) && message == "Kayıt silindi."
      ensures !ok ==> records == old(records) && message == "Silinecek kayıt bulunamadı."
    {
      var kept := Without(records, id);
      WithoutKeepsAll(records, id);
      if forall i :: 0 <= i < |records| ==> records[i].id != id {
        WithoutNoMatch(records, id);
      }
      if |kept| == |records| {
        return false, "Silinecek kayıt bulunamadı.";
      }
      records := kept;
      return true, "Kayıt silindi.";
    }

    /**
     * `update_transaction`: only the first record with the id is edited.
     * A new amount must convert and pass the limits before anything is
     * written; a missing id leaves the store alone.
     */
    method UpdateTransaction(id: string, newAmount: Option<Value>, newDesc: Option<string>)
      returns (outcome: UpdateOutcome)
      modifies this`records
      ensures FirstWithId(old(records), id).None? ==> outcome == NotFound
      ensures FirstWithId(old(records), id).Some? && newAmount.Some? ==>
        var v := FloatOf(newAmount.value);
        (v == Err(ValueError) ==> outcome == InvalidNewAmount) &&
        (v.Err? && v.error != ValueError ==> outcome == UpdateFailed(v.error)) &&
        (v.Ok? && CheckBusinessLimits(v.value).Err? ==> outcome == UpdateBlocked(CheckBusinessLimits(v.value).error))
      ensures outcome.Success() <==>
        FirstWithId(old(records), id).Some? &&
        (newAmount.Some? ==> FloatOf(newAmount.value).Ok? && CheckBusinessLimits(FloatOf(newAmount.value).value).Ok?)
      ensures outcome.Success() ==>
        var k := FirstWithId(old(records), id).value;
        var r := old(records)[k];
        records == old(records)[k := r.(amount := if newAmount.Some? then FloatOf(newAmount.value).value else r.amount,
                                        description := if newDesc.Some? then newDesc.value else r.description)]
      ensures !outcome.Success() ==> records == old(records)
    {
      var i := 0;
      while i < |records| && records[i].id != id
        invariant 0 <= i <= |records|
        invariant forall j :: 0 <= j < i ==> records[j].id != id
      {
        i := i + 1;
      }
      if i == |records| {
        return NotFound;
      }
      assert FirstWithId(records, id) == Some(i);
      var item := records[i];
      if newAmount.Some? {
        var value := FloatOf(newAmount.value);
        if value.Err? {
          if value.error == ValueError {
            return InvalidNewAmount;
          }
          return UpdateFailed(value.error);
        }
        var limits := CheckBusinessLimits(value.value);
        if limits.Err? {
          return UpdateBlocked(limits.error);
        }
        item := item.(amount := value.value);
      }
      if newDesc.Some? {
        item := item.(description := newDesc.value);
      }
      records := records[i := item];
      return Updated;
    }

    /** `get_financial_summary` over the stored records. */
    function FinancialSummary(): (s: Summary)
      reads this
      ensures s == SummaryOf(records)
      ensures s.totalIncome == SumOfKind(records, Income.Value())
      ensures s.totalExpense == SumOfKind(records, Expense.Value())
    {
      SummaryOf(records)
    }

    /**
     * `get_category_breakdown`: the amounts summed per `"tip - kategori"`
     * key, one entry per key that occurs.
     */
    method CategoryBreakdown() returns (breakdown: map<string, real>)
      ensures breakdown == Totals(BreakdownEntries(records))
      ensures forall key :: key in breakdown ==> breakdown[key] == SumFor(BreakdownEntries(records), key)
    {
      breakdown := map[];
      var i := 0;
      while i < |records|
        invariant 0 <= i <= |records|
        invariant breakdown == Totals(BreakdownEntries(records[..i]))
      {
        var t := records[i];
        var key := BreakdownKey(t);
        breakdown := AddAmount(breakdown, key, t.amount);
        assert BreakdownEntries(records[..i + 1]) == BreakdownEntries(records[..i]) + [(key, t.amount)];
        i := i + 1;
      }
      assert records[..i] == records;
      forall key | key in breakdown ensures breakdown[key] == SumFor(BreakdownEntries(records), key) {
        TotalsAreSums(BreakdownEntries(records), key);
      }
    }
  }

  /** A breakdown key is present exactly when some record is filed under it. */
  lemma BreakdownKeys(rs: seq<Record>, key: string)
    ensures key in Totals(BreakdownEntries(rs)) <==> exists i :: 0 <= i < |rs| && BreakdownKey(rs[i]) == key
  {
    var es := BreakdownEntries(rs);
    TotalsAreSums(es, key);
    if exists i :: 0 <= i < |es| && es[i].0 == key {
      var i :| 0 <= i < |es| && es[i].0 == key;
      assert BreakdownKey(rs[i]) == key;
    }
  }

  // ---------------------------------------------------------------------
  // The store as it is written

  /** `d[key]`: the value, or the `KeyError` Python raises. */
  function Lookup(d: map<string, Value>, key: string): (r: Result<Value, PyError>)
    ensures r.Ok? <==> key in d
    ensures r.Err? ==> r.error == KeyError(key)
  {
    if key in d then Ok(d[key]) else Err(KeyError(key))
  }

  /**
   * The delete filter evaluated over the dictionaries actually stored: each
   * `t["id"]` is looked up in turn, and the first missing key raises.
   */
  function KeepOthersAsWritten(store: seq<map<string, Value>>, id: string)
    : (r: Result<seq<map<string, Value>>, PyError>)
  {
    if store == [] then Ok([])
    else
      match Lookup(store[0], "id")
      case Err(e) => Err(e)
      case Ok(v) =>
        match KeepOthersAsWritten(store[1..], id)
        case Err(e) => Err(e)
        case Ok(rest) => Ok((if v != VStr(id) then [store[0]] else []) + rest)
  }

  /**
   * `delete_transaction` on the dictionaries `to_dict` writes: the
   * generic handler turns the `KeyError` into a failed delete.
   */
  function DeleteAsWritten(store: seq<map<string, Value>>, id: string): (r: (bool, string))
  {
    match KeepOthersAsWritten(store, id)
    case Err(e) => (false, "Silme Hatası: " + PyErrorText(e))
    case Ok(kept) =>
      if |kept| == |store| then (false, "Silinecek kayıt bulunamadı.") else (true, "Kayıt silindi.")
  }

  /** The dictionaries a sequence of transactions is written as. */
  function Written(ts: seq<Transaction>): (ds: seq<map<string, Value>>)
    ensures |ds| == |ts| && forall i :: 0 <= i < |ts| ==> ds[i] == ToDict(ts[i])
  {
    seq(|ts|, i requires 0 <= i < |ts| => ToDict(ts[i]))
  }

  /**
   * As written, no stored transaction can ever be deleted: the lookup of
   * `"id"` fails on the first record, even when that record's `islem_id`
   * is the very id asked for.
   */
  lemma DeleteAsWrittenNeverSucceeds(ts: seq<Transaction>, id: string)
    ensures !DeleteAsWritten(Written(ts), id).0
    ensures ts != [] ==> DeleteAsWritten(Written(ts), id) == (false, "Silme Hatası: 'id'")
  {
    if ts != [] {
      assert "id" !in Written(ts)[0];
      assert Lookup(Written(ts)[0], "id") == Err(KeyError("id"));
      assert PyErrorText(KeyError("id")) == "'id'";
      assert KeepOthersAsWritten(Written(ts), id) == Err(KeyError("id"));
      assert "Silme Hatası: " + "'id'" == "Silme Hatası: 'id'";
    }
  }

  /** With the identifier stored as `id`, deleting a stored transaction succeeds and removes it. */
  lemma DeleteByIdRemoves(rs: seq<Record>, t: Transaction)
    requires RecordOf(t) in rs
    ensures |Without(rs, t.transactionId)| < |rs|
    ensures forall i :: 0 <= i < |Without(rs, t.transactionId)| ==> Without(rs, t.transactionId)[i].id != t.transactionId
  {
    WithoutKeepsAll(rs, t.transactionId);
    var i :| 0 <= i < |rs| && rs[i] == RecordOf(t);
    assert rs[i].id == t.transactionId;
  }

  /**
   * `update_transaction` on the dictionaries `to_dict` writes: the loop's
   * first `item["id"]` raises, and the generic handler reports it.
   */
  function UpdateAsWritten(store: seq<map<string, Value>>, id: string): (r: (bool, string))
  {
    if store == [] then (false, "Kayıt bulunamadı.")
    else
      match Lookup(store[0], "id")
      case Err(e) => (false, "Hata: " + PyErrorText(e))
      case Ok(v) =>
        if v == VStr(id) then (true, "Güncelleme başarılı.") else UpdateAsWritten(store[1..], id)
  }

  /** As written, every update of a non-empty store fails with the missing-key message. */
  lemma UpdateAsWrittenNeverSucceeds(ts: seq<Transaction>, id: string)
    ensures ts != [] ==> UpdateAsWritten(Written(ts), id) == (false, "Hata: 'id'")
    ensures ts == [] ==> UpdateAsWritten(Written(ts), id) == (false, "Kayıt bulunamadı.")
  {
    if ts != [] {
      assert "id" !in Written(ts)[0];
      assert Lookup(Written(ts)[0], "id") == Err(KeyError("id"));
      assert PyErrorText(KeyError("id")) == "'id'";
      assert "Hata: " + "'id'" == "Hata: 'id'";
    }
  }
}
