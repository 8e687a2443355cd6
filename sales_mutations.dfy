/**
 * The `createSalesData` and `deleteSalesData` mutations over the record
 * store. The store is a map from identifier to record. What the store decides
 * on its own (the identifier and the timestamps a new record receives, and
 * whether a call throws) is passed in as parameters; neither mutation ever
 * throws to its caller.
 */
module SalesMutations {
  import opened Wrappers
  import opened Calendar
  import opened SalesTypes
  import opened SalesValidation

  /** The `{ success, message, data }` result of both mutations. */
  datatype MutationResult = MutationResult(success: bool, message: string, data: Option<SaleRecord>)

  /** What a store call threw: an `Error` with its message, or any other value. */
  datatype Thrown = ErrorThrown(message: string) | OtherThrown

  const CreatedMessage: string := "Sales data created successfully."
  const InvalidIdMessage: string := "Invalid ID format."
  const DeletedMessage: string := "Sales data deleted successfully."
  const NotFoundMessage: string := "Sales data not found."
  const UnknownErrorMessage: string := "An unknown error occurred."

  function IsHexDigit(c: char): bool
  {
    '0' <= c <= '9' || 'a' <= c <= 'f' || 'A' <= c <= 'F'
  }

  /**
   * The model's own stand-in for the ObjectId test on a string: 24
   * hexadecimal digits, or any 12 characters.
   */
  predicate IsValidObjectId(id: string)
    ensures IsValidObjectId(id) ==> |id| == 12 || |id| == 24
  {
    |id| == 12 || (|id| == 24 && forall i | 0 <= i < |id| :: IsHexDigit(id[i]))
  }

  function IsLowerHexDigit(c: char): bool
  {
    '0' <= c <= '9' || 'a' <= c <= 'f'
  }

  /** The printed form of an ObjectId: 24 lower-case hexadecimal digits. */
  predicate IsCanonicalId(k: string)
  {
    |k| == 24 && forall i | 0 <= i < |k| :: IsLowerHexDigit(k[i])
  }

  const LowerHexDigits: string := "0123456789abcdef"

  function ToLowerHex(c: char): char
  {
    if 'A' <= c <= 'F' then (c as int + 32) as char else c
  }

  /** Digit `half` (0 high, 1 low) of the byte the character `c` stands for. */
  function ByteDigit(c: char, half: int): char
  {
    var b := (c as int) % 256;
    if half == 0 then LowerHexDigits[b / 16] else LowerHexDigits[b % 16]
  }

  /**
   * The ObjectId a well-formed identifier is cast to, in its printed form:
   * 24 hexadecimal digits read without regard to case, or 12 characters
   * read as the 12 bytes of the identifier. The store looks records up by
   * this form, so two spellings of one ObjectId find the same record.
   */
  function Canonical(id: string): (k: string)
    requires IsValidObjectId(id)
    ensures IsCanonicalId(k)
    ensures IsCanonicalId(id) ==> k == id
  {
    if |id| == 24 then
      seq(24, i requires 0 <= i < 24 => ToLowerHex(id[i]))
    else
      seq(24, i requires 0 <= i < 24 => ByteDigit(id[i / 2], i % 2))
  }

  /** The message of the catch block: the `Error`'s message after `prefix`, or the generic one. */
  function CaughtMessage(prefix: string, t: Thrown): (m: string)
    ensures t.ErrorThrown? ==> m == prefix + t.message
    ensures t.OtherThrown? ==> m == UnknownErrorMessage
  {
    match t
    case ErrorThrown(msg) => prefix + msg
    case OtherThrown => UnknownErrorMessage
  }

  function CreateFailureMessage(t: Thrown): string { CaughtMessage("Error creating sales data: ", t) }
  function DeleteFailureMessage(t: Thrown): string { CaughtMessage("Error deleting sales data: ", t) }

  /** The document saved for an accepted input: its fields, identifier `id` and both timestamps `now`. */
  function NewRecord(input: SalesDataInput, id: string, now: Timestamp): (r: SaleRecord)
    requires IsValid(input)
    ensures r.id == id && r.createdAt == now && r.updatedAt == now
    ensures Some(r.product) == input.product && Some(r.salesRevenue) == input.salesRevenue
    ensures Some(r.region) == input.region && Some(r.category) == input.category
    ensures input.date == Some(Iso(r.date))
    ensures Some(r.cost) == input.cost && Some(r.profit) == input.profit
    ensures Some(r.ageGroup) == input.ageGroup && Some(r.gender) == input.gender
    ensures Some(r.occupation) == input.occupation
    ensures r.salesRevenue > 0 && r.cost > 0 && r.gender in Genders
  {
    SaleRecord(id, input.product.value, input.salesRevenue.value, input.region.value, input.category.value,
      input.date.value.instant, input.cost.value, input.profit.value, input.ageGroup.value,
      input.gender.value, input.occupation.value, now, now)
  }

  /** `success` is true exactly when a record is returned. */
  predicate WellFormed(r: MutationResult)
  {
    r.success <==> r.data.Some?
  }

  class SalesStore {
    var records: map<string, SaleRecord>

    /** Every record is filed under its own identifier, in printed ObjectId form. */
    ghost predicate Valid()
      reads this
    {
      forall k | k in records :: records[k].id == k && IsCanonicalId(k)
    }

    constructor()
      ensures Valid()
      ensures records == map[]
    {
      records := map[];
    }

    /**
     * `createSalesData`: an input the schema rejects, or a save that throws,
     * leaves the store as it was; otherwise the new record is filed under
     * `newId`, the identifier the store assigns, and returned.
     */
    method CreateSalesData(input: SalesDataInput, newId: string, now: Timestamp, failure: Option<Thrown>)
      returns (r: MutationResult)
      requires Valid()
      requires IsCanonicalId(newId) && newId !in records
      modifies this
      ensures Valid()
      ensures WellFormed(r)
      ensures Validate(input).Some? ==>
        && r == MutationResult(false, "Validation error: " + Validate(input).value, None)
        && records == old(records)
      ensures Validate(input).None? && failure.Some? ==>
        && r == MutationResult(false, CreateFailureMessage(failure.value), None)
        && records == old(records)
      ensures Validate(input).None? && failure.None? ==>
        && r == MutationResult(true, CreatedMessage, Some(NewRecord(input, newId, now)))
        && records == old(records)[newId := NewRecord(input, newId, now)]
        && |records| == |old(records)| + 1
    {
      var error := Validate(input);
      if error.Some? {
        return MutationResult(false, "Validation error: " + error.value, None);
      }
      var saved := NewRecord(input, newId, now);
      if failure.Some? {
        return MutationResult(false, CreateFailureMessage(failure.value), None);
      }
      records := records[newId := saved];
      r := MutationResult(true, CreatedMessage, Some(saved));
    }

    /**
     * `deleteSalesData`: a malformed identifier is refused before the store is
     * asked; otherwise the record filed under the ObjectId it is cast to is
     * removed and returned; an absent one, or a store call that throws,
     * leaves the store as it was.
     */
    method DeleteSalesData(id: string, failure: Option<Thrown>) returns (r: MutationResult)
      requires Valid()
      modifies this
      ensures Valid()
      ensures WellFormed(r)
      ensures !IsValidObjectId(id) ==>
        r == MutationResult(false, InvalidIdMessage, None) && records == old(records)
      ensures IsValidObjectId(id) && failure.Some? ==>
        r == MutationResult(false, DeleteFailureMessage(failure.value), None) && records == old(records)
      ensures IsValidObjectId(id) && failure.None? && Canonical(id) !in old(records) ==>
        r == MutationResult(false, NotFoundMessage, None) && records == old(records)
      ensures IsValidObjectId(id) && failure.None? && Canonical(id) in old(records) ==>
        && r == MutationResult(true, DeletedMessage, Some(old(records)[Canonical(id)]))
        && records == old(records) - {Canonical(id)}
        && |records| == |old(records)| - 1
        && r.data.value.id == Canonical(id)
    {
      if !IsValidObjectId(id) {
        return MutationResult(false, InvalidIdMessage, None);
      }
      if failure.Some? {
        return MutationResult(false, DeleteFailureMessage(failure.value), None);
      }
      var key := Canonical(id);
      if key in records {
        var removed := records[key];
        records := records - {key};
        r := MutationResult(true, DeletedMessage, Some(removed));
      } else {
        r := MutationResult(false, NotFoundMessage, None);
      }
    }
  }

  /** `not-a-valid-id` is neither 12 characters nor 24 hexadecimal digits. */
  lemma NotAValidId()
    ensures !IsValidObjectId("not-a-valid-id")
  {
    assert |"not-a-valid-id"| == 14;
  }

  /** A 24-digit hexadecimal identifier is well formed; one with a non-hex character is not. */
  lemma HexIdentifiers()
    ensures IsValidObjectId("64b7f0c2a1d3e4f5a6b7c8d9")
    ensures !IsValidObjectId("64b7f0c2a1d3e4f5a6b7c8dz")
  {
    assert "64b7f0c2a1d3e4f5a6b7c8dz"[23] == 'z';
  }

  /** Every well-formed identifier is cast to a printed ObjectId, which is itself well formed. */
  lemma CanonicalIsValid(id: string)
    requires IsValidObjectId(id)
    ensures IsValidObjectId(Canonical(id))
    ensures Canonical(Canonical(id)) == Canonical(id)
  {
  }

  /** Upper- and lower-case spellings of one ObjectId select the same record. */
  lemma CaseIgnored()
    ensures IsValidObjectId("64B7F0C2A1D3E4F5A6B7C8D9")
    ensures Canonical("64B7F0C2A1D3E4F5A6B7C8D9") == "64b7f0c2a1d3e4f5a6b7c8d9"
  {
  }

  /** A 12-character identifier is read as bytes: `"aaaaaaaaaaaa"` is the ObjectId `616161…61`. */
  lemma TwelveCharacterId()
    ensures IsValidObjectId("aaaaaaaaaaaa")
    ensures Canonical("aaaaaaaaaaaa") == "616161616161616161616161"
  {
  }
}
