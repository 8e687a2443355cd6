/**
 * The `salesDataSchema` check applied to a sale-record input before it is
 * stored: ten required fields, positive revenue and cost, any profit, an ISO
 * date and a gender from a fixed list. Keys are checked in schema order and
 * the first failure is reported (Joi's default `abortEarly`), with Joi's
 * default wording.
 */
module SalesValidation {
  import opened Wrappers
  import opened Calendar

  /** A `date` as received: a string in an ISO 8601 form, read as an instant, or any other string. */
  datatype DateInput = Iso(instant: Timestamp) | NotIso

  /** The mutation's input; `None` is a field the input leaves out. Numbers are in cents. */
  datatype SalesDataInput = SalesDataInput(
    product: Option<string>,
    salesRevenue: Option<int>,
    region: Option<string>,
    category: Option<string>,
    date: Option<DateInput>,
    cost: Option<int>,
    profit: Option<int>,
    ageGroup: Option<string>,
    gender: Option<string>,
    occupation: Option<string>)

  /** The schema's keys, in the order they are declared and checked. */
  datatype Field =
    | ProductField | SalesRevenueField | RegionField | CategoryField | DateField
    | CostField | ProfitField | AgeGroupField | GenderField | OccupationField

  const SchemaOrder: seq<Field> := [
    ProductField, SalesRevenueField, RegionField, CategoryField, DateField,
    CostField, ProfitField, AgeGroupField, GenderField, OccupationField]

  const Genders: set<string> := {"Male", "Female", "Other"}

  function Label(f: Field): string
  {
    match f
    case ProductField => "\"product\""
    case SalesRevenueField => "\"salesRevenue\""
    case RegionField => "\"region\""
    case CategoryField => "\"category\""
    case DateField => "\"date\""
    case CostField => "\"cost\""
    case ProfitField => "\"profit\""
    case AgeGroupField => "\"ageGroup\""
    case GenderField => "\"gender\""
    case OccupationField => "\"occupation\""
  }

  // Joi's default messages for the rules the schema uses.
  function Required(f: Field): string { Label(f) + " is required" }
  function NotEmpty(f: Field): string { Label(f) + " is not allowed to be empty" }
  function NotPositive(f: Field): string { Label(f) + " must be a positive number" }
  const GenderMessage: string := "\"gender\" must be one of [Male, Female, Other]"
  const DateMessage: string := "\"date\" must be in ISO 8601 date format"

  /** `Joi.string().required()`. */
  function CheckString(f: Field, v: Option<string>): Option<string>
  {
    match v
    case None => Some(Required(f))
    case Some(s) => if s == "" then Some(NotEmpty(f)) else None
  }

  /** `Joi.number().positive().required()`. */
  function CheckPositive(f: Field, v: Option<int>): Option<string>
  {
    match v
    case None => Some(Required(f))
    case Some(n) => if n <= 0 then Some(NotPositive(f)) else None
  }

  /** The error of one key of the schema, if any. */
  function CheckField(input: SalesDataInput, f: Field): (error: Option<string>)
    ensures error.Some? ==> Label(f) <= error.value
  {
    match f
    case ProductField => CheckString(f, input.product)
    case SalesRevenueField => CheckPositive(f, input.salesRevenue)
    case RegionField => CheckString(f, input.region)
    case CategoryField => CheckString(f, input.category)
    case DateField =>
      (match input.date
       case None => Some(Required(f))
       case Some(NotIso) => Some(DateMessage)
       case Some(Iso(_)) => None)
    case CostField => CheckPositive(f, input.cost)
    case ProfitField => if input.profit.None? then Some(Required(f)) else None
    case AgeGroupField => CheckString(f, input.ageGroup)
    case GenderField =>
      // The allowed-values test comes first, so an empty gender is reported as not in the list.
      (match input.gender
       case None => Some(Required(f))
       case Some(g) => if g in Genders then None else Some(GenderMessage))
    case OccupationField => CheckString(f, input.occupation)
  }

  /** The first error among `fields`, checked in order. */
  function FirstError(input: SalesDataInput, fields: seq<Field>): (error: Option<string>)
    decreases |fields|
  {
    if fields == [] then None
    else if CheckField(input, fields[0]).Some? then CheckField(input, fields[0])
    else FirstError(input, fields[1..])
  }

  function NonEmpty(v: Option<string>): bool { v.Some? && v.value != "" }
  function Positive(v: Option<int>): bool { v.Some? && v.value > 0 }

  /** What the schema accepts, field by field. */
  predicate IsValid(input: SalesDataInput)
    ensures IsValid(input) ==> forall i | 0 <= i < |SchemaOrder| :: CheckField(input, SchemaOrder[i]).None?
  {
    && NonEmpty(input.product)
    && Positive(input.salesRevenue)
    && NonEmpty(input.region)
    && NonEmpty(input.category)
    && input.date.Some? && input.date.value.Iso?
    && Positive(input.cost)
    && input.profit.Some?
    && NonEmpty(input.ageGroup)
    && input.gender.Some? && input.gender.value in Genders
    && NonEmpty(input.occupation)
  }

  /** `salesDataSchema.validate(input).error`, as its message; `None` when the input is accepted. */
  function Validate(input: SalesDataInput): (error: Option<string>)
    ensures error.None? <==> IsValid(input)
  {
    FirstErrorNone(input, SchemaOrder);
    AllKeysPass(input);
    FirstError(input, SchemaOrder)
  }

  /** Every key of the schema passes exactly when the input is valid. */
  lemma AllKeysPass(input: SalesDataInput)
    ensures (forall i | 0 <= i < |SchemaOrder| :: CheckField(input, SchemaOrder[i]).None?) <==> IsValid(input)
  {
    if forall i | 0 <= i < |SchemaOrder| :: CheckField(input, SchemaOrder[i]).None? {
      assert CheckField(input, SchemaOrder[0]).None? && CheckField(input, SchemaOrder[1]).None?;
      assert CheckField(input, SchemaOrder[2]).None? && CheckField(input, SchemaOrder[3]).None?;
      assert CheckField(input, SchemaOrder[4]).None? && CheckField(input, SchemaOrder[5]).None?;
      assert CheckField(input, SchemaOrder[6]).None? && CheckField(input, SchemaOrder[7]).None?;
      assert CheckField(input, SchemaOrder[8]).None? && CheckField(input, SchemaOrder[9]).None?;
    }
    if IsValid(input) {
      forall i | 0 <= i < |SchemaOrder| ensures CheckField(input, SchemaOrder[i]).None? {
        assert i <= 9;
      }
    }
  }

  /** The first error among `fields` is absent exactly when every field passes. */
  lemma {:induction false} FirstErrorNone(input: SalesDataInput, fields: seq<Field>)
    ensures FirstError(input, fields).None? <==> forall i | 0 <= i < |fields| :: CheckField(input, fields[i]).None?
  {
    if fields != [] {
      FirstErrorNone(input, fields[1..]);
      if CheckField(input, fields[0]).None? {
        forall i | 1 <= i < |fields| ensures CheckField(input, fields[i]) == CheckField(input, fields[1..][i - 1]) {}
      }
    }
  }

  /** A reported error is the error of some key, and every key declared before it passed. */
  lemma {:induction false} FirstErrorIsFirst(input: SalesDataInput, fields: seq<Field>)
    requires FirstError(input, fields).Some?
    ensures exists i | 0 <= i < |fields| ::
      && CheckField(input, fields[i]) == FirstError(input, fields)
      && forall j | 0 <= j < i :: CheckField(input, fields[j]).None?
  {
    if CheckField(input, fields[0]).Some? {
      assert CheckField(input, fields[0]) == FirstError(input, fields);
    } else {
      FirstErrorIsFirst(input, fields[1..]);
      var i :| 0 <= i < |fields[1..]| && CheckField(input, fields[1..][i]) == FirstError(input, fields[1..])
        && forall j | 0 <= j < i :: CheckField(input, fields[1..][j]).None?;
      assert CheckField(input, fields[i + 1]) == FirstError(input, fields);
      forall j | 0 <= j < i + 1 ensures CheckField(input, fields[j]).None? {
        if j > 0 { assert fields[j] == fields[1..][j - 1]; }
      }
    }
  }

  /** The message of a rejected input is the message of the first failing key in schema order. */
  lemma ValidateReportsFirstFailure(input: SalesDataInput)
    requires !IsValid(input)
    ensures Validate(input).Some?
    ensures exists i | 0 <= i < |SchemaOrder| ::
      && CheckField(input, SchemaOrder[i]) == Validate(input)
      && forall j | 0 <= j < i :: CheckField(input, SchemaOrder[j]).None?
  {
    assert Validate(input).Some?;
    FirstErrorIsFirst(input, SchemaOrder);
  }

  /** A complete, well-formed input. */
  function Accepted(date: Timestamp): SalesDataInput
  {
    SalesDataInput(Some("Laptop"), Some(120000), Some("North"), Some("Electronics"), Some(Iso(date)),
      Some(80000), Some(-500), Some("25-34"), Some("Female"), Some("Engineer"))
  }

  /** Any profit is accepted, a negative one included; a gender outside the list is refused with Joi's message. */
  lemma GenderOutsideListRejected(date: Timestamp)
    ensures Validate(Accepted(date)) == None
    ensures Validate(Accepted(date).(gender := Some("Unknown"))) == Some(GenderMessage)
  {
    var bad := Accepted(date).(gender := Some("Unknown"));
    assert "Unknown" !in Genders by {
      assert "Unknown" != "Male" && "Unknown" != "Female" && "Unknown" != "Other";
    }
    assert forall i | 0 <= i < 8 :: CheckField(bad, SchemaOrder[i]).None?;
    assert FirstError(bad, SchemaOrder[8..]) == Some(GenderMessage);
    FirstErrorSkips(bad, SchemaOrder, 8);
  }

  /** A missing product is reported first, whatever else is wrong. */
  lemma MissingProductFirst(input: SalesDataInput)
    requires input.product.None?
    ensures Validate(input) == Some("\"product\" is required")
  {
    assert SchemaOrder[0] == ProductField;
    assert FirstError(input, SchemaOrder) == Some(Required(ProductField));
    assert Required(ProductField) == "\"product\"" + " is required";
    assert Validate(input) == FirstError(input, SchemaOrder);
    assert "\"product\"" + " is required" == "\"product\" is required";
  }

  /** Keys that pass can be skipped over. */
  lemma {:induction false} FirstErrorSkips(input: SalesDataInput, fields: seq<Field>, n: nat)
    requires n <= |fields|
    requires forall i | 0 <= i < n :: CheckField(input, fields[i]).None?
    ensures FirstError(input, fields) == FirstError(input, fields[n..])
  {
    if n > 0 {
      assert fields[1..][n - 1..] == fields[n..];
      FirstErrorSkips(input, fields[1..], n - 1);
    }
  }
}
