/**
  The transaction value type of models/transaction.py: a record of description,
  amount, ISO date, category and optional database id, validated when it is
  constructed, and converted to and from a five-key dictionary.
 */
module Transactions {
  import opened Wrappers
  import opened PyStr
  import opened IsoDate

  /** A financial record. `amount` is positive for income and negative for an
      expense; `id` is `None` until the database assigns one. */
  datatype Transaction = Transaction(
    description: string,
    amount: real,
    date: string,
    category: string,
    id: Option<int>)

  /** The `ValueError`s construction raises, one per guard. `InvalidDate`
      carries the rejected string, which the error message quotes. */
  datatype ValidationError =
    | EmptyDescription
    | ZeroAmount
    | EmptyCategory
    | InvalidDate(date: string)

  /** The invariant every constructed transaction satisfies. */
  predicate Valid(t: Transaction)
    ensures Valid(t) ==> t.description != "" && t.category != "" && |t.date| == 10
  {
    !IsBlank(t.description) && t.amount != 0.0 && !IsBlank(t.category) && IsIsoDate(t.date)
  }

  /** Constructing a `Transaction` (the dataclass initialiser followed by
      `__post_init__`): the guards run in order, so the first one that fails
      decides the error; when none fails the fields are kept exactly as given.
      The date guard accepts the documented `YYYY-MM-DD` form only. */
  function New(description: string, amount: real, date: string, category: string,
               id: Option<int>): (r: Result<Transaction, ValidationError>)
    ensures r.Ok? <==> Valid(Transaction(description, amount, date, category, id))
    ensures r.Ok? ==> r.value == Transaction(description, amount, date, category, id)
    ensures r == Err(EmptyDescription) <==> IsBlank(description)
    ensures r == Err(ZeroAmount) <==> !IsBlank(description) && amount == 0.0
    ensures r == Err(EmptyCategory) <==>
      !IsBlank(description) && amount != 0.0 && IsBlank(category)
    ensures r == Err(InvalidDate(date)) <==>
      !IsBlank(description) && amount != 0.0 && !IsBlank(category) && !IsIsoDate(date)
    ensures r.Err? && r.error.InvalidDate? ==> r.error.date == date
  {
    StripEmptyIffBlank(description);
    StripEmptyIffBlank(category);
    if Strip(description) == "" then Err(EmptyDescription)
    else if amount == 0.0 then Err(ZeroAmount)
    else if Strip(category) == "" then Err(EmptyCategory)
    else if !IsIsoDate(date) then Err(InvalidDate(date))
    else Ok(Transaction(description, amount, date, category, id))
  }

  /** Validation inspects the fields and never alters them: a transaction is
      rebuilt from its own fields exactly when it is valid. */
  lemma RebuildIffValid(t: Transaction)
    ensures New(t.description, t.amount, t.date, t.category, t.id) == Ok(t) <==> Valid(t)
  {
  }

  /** The id, present or `None`, takes no part in validation. */
  lemma IdIrrelevant(description: string, amount: real, date: string, category: string,
                     id1: Option<int>, id2: Option<int>)
    ensures New(description, amount, date, category, id1).Ok? ==
            New(description, amount, date, category, id2).Ok?
    ensures New(description, amount, date, category, id1).Err? ==>
            New(description, amount, date, category, id1) ==
            New(description, amount, date, category, id2)
  {
  }

  /** The values a Python dictionary of transaction data may hold. */
  datatype DictValue = NoneValue | IntValue(i: int) | FloatValue(f: real) | StrValue(s: string)

  type Dict = map<string, DictValue>

  /** The keys `to_dict` writes and `from_dict` reads. */
  const Keys: set<string> := {"id", "description", "amount", "date", "category"}

  function IdToValue(id: Option<int>): DictValue {
    if id.None? then NoneValue else IntValue(id.value)
  }

  /** `to_dict`: exactly the five keys, each carrying its field's value. */
  function ToDict(t: Transaction): (d: Dict)
    ensures d.Keys == Keys
    ensures d["description"] == StrValue(t.description) && d["amount"] == FloatValue(t.amount)
    ensures d["date"] == StrValue(t.date) && d["category"] == StrValue(t.category)
    ensures d["id"] == (if t.id.None? then NoneValue else IntValue(t.id.value))
  {
    map["id" := IdToValue(t.id), "description" := StrValue(t.description),
        "amount" := FloatValue(t.amount), "date" := StrValue(t.date),
        "category" := StrValue(t.category)]
  }

  /** Why `from_dict` can fail: a guard of the constructor, or a value whose
      Python type the transaction fields do not admit (see README). */
  datatype FromDictError = Invalid(reason: ValidationError) | IllTyped(key: string)

  /** `data.get(key, default)`. */
  function Get(d: Dict, key: string, default: DictValue): DictValue {
    if key in d then d[key] else default
  }

  /** The Python types a field admits: text or `None` for the description,
      date and category, a float or an int for the amount, an int or `None`
      for the id. */
  predicate WellTyped(key: string, v: DictValue) {
    if key == "amount" then v.FloatValue? || v.IntValue?
    else if key == "id" then v.NoneValue? || v.IntValue?
    else v.StrValue? || v.NoneValue?
  }

  /** The text field read under `key` is `s`: the string stored there, or `""`
      when the key is missing or holds `None`. A `None` text is rejected by its
      guard as `""` is (`not None` holds, and `fromisoformat(None)` raises the
      `TypeError` the date guard catches), so reading it as `""` decides the
      same guard; only the string a date error quotes differs (`None` there). */
  predicate ReadsText(d: Dict, key: string, s: string) {
    if key in d && d[key].StrValue? then d[key].s == s else s == ""
  }

  /** The amount read is the float or int stored, or the default `0.0`. */
  predicate ReadsAmount(d: Dict, a: real) {
    if "amount" !in d then a == 0.0
    else if d["amount"].IntValue? then a == d["amount"].i as real
    else d["amount"] == FloatValue(a)
  }

  function TextField(v: DictValue): Option<string> {
    match v
    case StrValue(s) => Some(s)
    case NoneValue => Some("")
    case _ => None
  }

  function AmountField(v: DictValue): Option<real> {
    match v
    case FloatValue(f) => Some(f)
    case IntValue(i) => Some(i as real)
    case _ => None
  }

  function IdField(v: DictValue): Option<Option<int>> {
    match v
    case NoneValue => Some(None)
    case IntValue(i) => Some(Some(i))
    case _ => None
  }

  /** The five `data.get` calls of `from_dict`, with their defaults `""`, `0.0`,
      `""`, `""` and `None`: the field values the constructor receives. */
  function ReadDict(d: Dict): (r: Result<Transaction, FromDictError>)
    ensures r.Ok? <==> forall k :: k in d && k in Keys ==> WellTyped(k, d[k])
    ensures r.Err? ==> r.error.IllTyped? && r.error.key in d && r.error.key in Keys &&
                       !WellTyped(r.error.key, d[r.error.key])
    ensures r.Ok? ==> ReadsText(d, "description", r.value.description) &&
                      ReadsAmount(d, r.value.amount) && ReadsText(d, "date", r.value.date) &&
                      ReadsText(d, "category", r.value.category) &&
                      Get(d, "id", NoneValue) == IdToValue(r.value.id)
  {
    var description := TextField(Get(d, "description", StrValue("")));
    var amount := AmountField(Get(d, "amount", FloatValue(0.0)));
    var date := TextField(Get(d, "date", StrValue("")));
    var category := TextField(Get(d, "category", StrValue("")));
    var id := IdField(Get(d, "id", NoneValue));
    if description.None? then Err(IllTyped("description"))
    else if amount.None? then Err(IllTyped("amount"))
    else if date.None? then Err(IllTyped("date"))
    else if category.None? then Err(IllTyped("category"))
    else if id.None? then Err(IllTyped("id"))
    else Ok(Transaction(description.value, amount.value, date.value, category.value, id.value))
  }

  /** `from_dict`: construct from the values read, so a missing key fails the
      guard for its field; what is built is exactly what was read. */
  function FromDict(d: Dict): (r: Result<Transaction, FromDictError>)
    ensures r.Ok? ==> Valid(r.value) && ReadDict(d) == Ok(r.value)
    ensures ReadDict(d).Err? ==> r == Err(ReadDict(d).error)
    ensures ReadDict(d).Ok? ==> (r.Ok? <==> Valid(ReadDict(d).value))
    ensures ReadDict(d).Ok? && r.Err? ==>
      var t := ReadDict(d).value;
      r.error == Invalid(New(t.description, t.amount, t.date, t.category, t.id).error)
  {
    match ReadDict(d)
    case Err(e) => Err(e)
    case Ok(raw) =>
      match New(raw.description, raw.amount, raw.date, raw.category, raw.id)
      case Ok(t) => Ok(t)
      case Err(e) => Err(Invalid(e))
  }

  /** Round trip: every valid transaction survives `to_dict` then `from_dict`. */
  lemma FromToDict(t: Transaction)
    requires Valid(t)
    ensures FromDict(ToDict(t)) == Ok(t)
  {
    var d := ToDict(t);
    assert ReadDict(d) == Ok(t);
    RebuildIffValid(t);
  }

  /** Conversely, what `from_dict` builds is written back by `to_dict` with the
      same text fields and the id it read. */
  lemma ToFromDict(d: Dict)
    requires FromDict(d).Ok?
    ensures "description" in d && "amount" in d && "date" in d && "category" in d
    ensures AmountField(ToDict(FromDict(d).value)["amount"]) == AmountField(d["amount"])
    ensures var e := ToDict(FromDict(d).value);
      e["description"] == d["description"] && e["date"] == d["date"] &&
      e["category"] == d["category"] && e["id"] == Get(d, "id", NoneValue)
  {
    var t := FromDict(d).value;
    assert ReadDict(d) == Ok(t);
    assert t.description != "" && t.category != "" && |t.date| == 10 && t.amount != 0.0;
  }

  /** Keys other than the five are ignored. */
  lemma FromDictIgnoresOtherKeys(d: Dict, extra: Dict)
    requires extra.Keys !! Keys
    ensures FromDict(d + extra) == FromDict(d)
  {
    forall k | k in Keys
      ensures forall v :: Get(d + extra, k, v) == Get(d, k, v)
    {
      assert k !in extra;
    }
    assert ReadDict(d + extra) == ReadDict(d);
  }

  /** A dictionary without a description, amount, date or category takes the
      default for it, which its guard rejects: `from_dict` then fails validation. */
  lemma MissingKeyFails(d: Dict)
    requires ReadDict(d).Ok?
    requires !("description" in d && "amount" in d && "date" in d && "category" in d)
    ensures FromDict(d).Err? && FromDict(d).error.Invalid?
  {
    var t := ReadDict(d).value;
    assert !Valid(t);
  }

  /** Without a description, whatever else it holds, the first guard fails. */
  lemma MissingDescriptionFails(d: Dict)
    requires ReadDict(d).Ok? && "description" !in d
    ensures FromDict(d) == Err(Invalid(EmptyDescription))
  {
    assert ReadDict(d).value.description == "";
  }

  /** An empty dictionary takes every default and so fails the first guard. */
  lemma FromEmptyDict()
    ensures FromDict(map[]) == Err(Invalid(EmptyDescription))
  {
  }

  /** Surrounding spaces are kept, and a negative amount (an expense) dated on
      a leap day is accepted. */
  lemma AcceptedExamples()
    ensures New(" Coffee ", 2.5, "2025-12-01", "Food", None) ==
            Ok(Transaction(" Coffee ", 2.5, "2025-12-01", "Food", None))
    ensures New("Rent", -800.0, "2024-02-29", "Housing", Some(7)).Ok?
  {
    ValidDateExamples();
    assert !IsBlank(" Coffee ") by { assert !IsWhitespace(" Coffee "[1]); }
    assert !IsBlank("Food") by { assert !IsWhitespace("Food"[0]); }
    assert Valid(Transaction(" Coffee ", 2.5, "2025-12-01", "Food", None));
    assert !IsBlank("Rent") by { assert !IsWhitespace("Rent"[0]); }
    assert !IsBlank("Housing") by { assert !IsWhitespace("Housing"[0]); }
    assert Valid(Transaction("Rent", -800.0, "2024-02-29", "Housing", Some(7)));
  }

  /** A whitespace-only description is rejected first, and a zero amount is
      rejected before the category and the date are looked at. */
  lemma GuardOrderExamples()
    ensures New(" \t", 2.5, "2025-12-01", "Food", None) == Err(EmptyDescription)
    ensures New("Coffee", 0.0, "not-a-date", "", None) == Err(ZeroAmount)
  {
    assert !IsWhitespace("Coffee"[0]);
  }

  /** Dates that are not days of the calendar fail the last guard, which
      quotes the string. */
  lemma DateGuardExamples()
    ensures New("Coffee", 2.5, "2025-02-30", "Food", None) == Err(InvalidDate("2025-02-30"))
    ensures New("Coffee", 2.5, "not-a-date", "Food", None) == Err(InvalidDate("not-a-date"))
  {
    InvalidDateExamples();
    assert !IsWhitespace("Coffee"[0]) && !IsWhitespace("Food"[0]);
  }
}
