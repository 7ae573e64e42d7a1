/**
 * The add/edit listing modal (src/components/AddEditPropertyModal.tsx):
 * eleven form fields reset or prefilled when the modal opens, an ordered
 * chain of checks in which the first failure alone sets the error message,
 * and the save dispatched to the store when every check passes.
 */
module PropertyForm {
  import opened Wrappers
  import opened Listing

  // -----------------------------------------------------------------------
  // String.prototype.trim

  /** The code points `String.prototype.trim` strips: ECMAScript's
      WhiteSpace (tab, vertical tab, form feed, ZWNBSP and every Unicode
      space separator) and LineTerminator (LF, CR, LS, PS). */
  predicate IsTrimmable(c: char)
  {
    var n := c as int;
    n == 0x09 || n == 0x0A || n == 0x0B || n == 0x0C || n == 0x0D
    || n == 0x20 || n == 0xA0 || n == 0x1680 || (0x2000 <= n <= 0x200A)
    || n == 0x2028 || n == 0x2029 || n == 0x202F || n == 0x205F
    || n == 0x3000 || n == 0xFEFF
  }

  /** Drops the leading trimmable characters. */
  function TrimStart(s: string): (r: string)
    ensures |r| <= |s| && r == s[|s| - |r|..]
    ensures r == [] || !IsTrimmable(r[0])
    ensures forall i :: 0 <= i < |s| - |r| ==> IsTrimmable(s[i])
  {
    if s != [] && IsTrimmable(s[0]) then TrimStart(s[1..]) else s
  }

  /** Drops the trailing trimmable characters. */
  function TrimEnd(s: string): (r: string)
    ensures |r| <= |s| && r == s[..|r|]
    ensures r == [] || !IsTrimmable(r[|r| - 1])
    ensures forall i :: |r| <= i < |s| ==> IsTrimmable(s[i])
  {
    if s != [] && IsTrimmable(s[|s| - 1]) then TrimEnd(s[..|s| - 1]) else s
  }

  /** Dropping a whitespace prefix and then a whitespace suffix keeps a
      contiguous middle of `s` between two blank parts. */
  lemma MiddleOf(s: string, t: string, r: string)
    requires |t| <= |s| && t == s[|s| - |t|..]
    requires |r| <= |t| && r == t[..|r|]
    requires forall k :: 0 <= k < |s| - |t| ==> IsTrimmable(s[k])
    requires forall k :: |r| <= k < |t| ==> IsTrimmable(t[k])
    ensures var i := |s| - |t|;
            r == s[i..i + |r|] && IsBlank(s[..i]) && IsBlank(s[i + |r|..])
  {
    var i := |s| - |t|;
    var p, q := s[..i], s[i + |r|..];
    forall k | 0 <= k < |p|
      ensures IsTrimmable(p[k])
    {
      assert p[k] == s[k];
    }
    forall k | 0 <= k < |q|
      ensures IsTrimmable(q[k])
    {
      assert q[k] == t[|r| + k];
    }
    assert r == s[i..i + |r|];
  }

  /** `s.trim()`: the middle of `s` between a whitespace-only prefix and a
      whitespace-only suffix, empty exactly when `s` is nothing but
      whitespace, and otherwise starting and ending with a kept character. */
  function Trim(s: string): (r: string)
    ensures exists i :: 0 <= i <= |s| - |r| && r == s[i..i + |r|]
                        && IsBlank(s[..i]) && IsBlank(s[i + |r|..])
    ensures r == [] <==> IsBlank(s)
    ensures r != [] ==> !IsTrimmable(r[0]) && !IsTrimmable(r[|r| - 1])
  {
    var t := TrimStart(s);
    var r := TrimEnd(t);
    assert t != [] ==> t[0] == s[|s| - |t|];
    MiddleOf(s, t, r);
    r
  }

  /** Nothing but whitespace: what `!s.trim()` tests, as `Trim`'s contract
      shows. The checks below are written with it. */
  predicate IsBlank(s: string)
  {
    forall i :: 0 <= i < |s| ==> IsTrimmable(s[i])
  }

  // -----------------------------------------------------------------------
  // The validation chain

  /** The form's checks, each named by the failure it reports. */
  datatype FormError =
    | TitleRequired
    | ImageUrlRequired
    | PriceNotPositive
    | BedroomsTooFew
    | BathroomsTooFew
    | SquareFeetNotPositive
    | DescriptionRequired
    | LatitudeOutOfRange
    | LongitudeOutOfRange

  /** The message each failure shows: never empty, so a shown error is
      never mistaken for a cleared one, and never the store's message. */
  function Message(e: FormError): (r: string)
    ensures r != "" && r != SaveFailedMessage
  {
    match e
    case TitleRequired => "Title is required."
    case ImageUrlRequired => "Image URL is required."
    case PriceNotPositive => "Price must be greater than 0."
    case BedroomsTooFew => "Bedrooms must be at least 1."
    case BathroomsTooFew => "Bathrooms must be at least 1."
    case SquareFeetNotPositive => "Square feet must be greater than 0."
    case DescriptionRequired => "Description is required."
    case LatitudeOutOfRange => "Latitude must be between -90 and 90."
    case LongitudeOutOfRange => "Longitude must be between -180 and 180."
  }

  /** The message shown when the store rejects the save. */
  const SaveFailedMessage: string := "Failed to save property. Please try again."

  /** Different checks show different messages, so the error names the
      check that failed. */
  lemma {:induction false} MessageNamesCheck(e1: FormError, e2: FormError)
    ensures Message(e1) == Message(e2) ==> e1 == e2
  {
    var a, b := Message(e1), Message(e2);
    if a == b {
      // The first two characters already tell the nine messages apart.
      assert a[0] == b[0] && a[1] == b[1];
    }
  }

  /** The order in which the checks run. */
  const CheckOrder: seq<FormError> := [
    TitleRequired, ImageUrlRequired, PriceNotPositive, BedroomsTooFew,
    BathroomsTooFew, SquareFeetNotPositive, DescriptionRequired,
    LatitudeOutOfRange, LongitudeOutOfRange]

  /** Whether check `e` rejects the fields `f`. */
  predicate Fails(f: ListingFields, e: FormError)
  {
    match e
    case TitleRequired => IsBlank(f.title)
    case ImageUrlRequired => IsBlank(f.imageUrl)
    case PriceNotPositive => f.price <= 0
    case BedroomsTooFew => f.bedrooms <= 0
    case BathroomsTooFew => f.bathrooms <= 0
    case SquareFeetNotPositive => f.squareFeet <= 0
    case DescriptionRequired => IsBlank(f.description)
    case LatitudeOutOfRange => f.lat < -90.0 || f.lat > 90.0
    case LongitudeOutOfRange => f.lng < -180.0 || f.lng > 180.0
  }

  /** The position of a check in the chain. */
  function Position(e: FormError): (i: nat)
    ensures i < |CheckOrder| && CheckOrder[i] == e
  {
    match e
    case TitleRequired => 0
    case ImageUrlRequired => 1
    case PriceNotPositive => 2
    case BedroomsTooFew => 3
    case BathroomsTooFew => 4
    case SquareFeetNotPositive => 5
    case DescriptionRequired => 6
    case LatitudeOutOfRange => 7
    case LongitudeOutOfRange => 8
  }

  /** `validateLatLng`: latitude first, then longitude, both bounds inclusive. */
  function CheckLatLng(lat: real, lng: real): (r: Option<FormError>)
    ensures r == None <==> -90.0 <= lat <= 90.0 && -180.0 <= lng <= 180.0
    ensures r == Some(LatitudeOutOfRange) <==> !(-90.0 <= lat <= 90.0)
    ensures r == Some(LongitudeOutOfRange) <==> -90.0 <= lat <= 90.0 && !(-180.0 <= lng <= 180.0)
  {
    if lat < -90.0 || lat > 90.0 then Some(LatitudeOutOfRange)
    else if lng < -180.0 || lng > 180.0 then Some(LongitudeOutOfRange)
    else None
  }

  /** The chain of checks in `handleSubmit`: the first failing check, if any. */
  function Validate(f: ListingFields): (r: Option<FormError>)
    ensures r == None <==> forall e :: !Fails(f, e)
    ensures r.Some? ==> Fails(f, r.value)
  {
    if Fails(f, TitleRequired) then Some(TitleRequired)
    else if Fails(f, ImageUrlRequired) then Some(ImageUrlRequired)
    else if Fails(f, PriceNotPositive) then Some(PriceNotPositive)
    else if Fails(f, BedroomsTooFew) then Some(BedroomsTooFew)
    else if Fails(f, BathroomsTooFew) then Some(BathroomsTooFew)
    else if Fails(f, SquareFeetNotPositive) then Some(SquareFeetNotPositive)
    else if Fails(f, DescriptionRequired) then Some(DescriptionRequired)
    else
      var latLng := CheckLatLng(f.lat, f.lng);
      assert latLng == None <==> !Fails(f, LatitudeOutOfRange) && !Fails(f, LongitudeOutOfRange);
      latLng
  }

  /** The chain reports the earliest failing check: whichever check fails,
      the reported one comes no later in `CheckOrder`. */
  lemma ValidateReportsFirstFailure(f: ListingFields, e: FormError)
    requires Fails(f, e)
    ensures Validate(f).Some?
    ensures Position(Validate(f).value) <= Position(e)
  {
    match e
    case LatitudeOutOfRange =>
    case LongitudeOutOfRange =>
    case _ =>
  }

  /** A blank title, image URL or description is rejected whatever else is
      entered; a blank title is the error reported. */
  lemma BlankTextRejected(f: ListingFields)
    ensures Trim(f.title) == [] ==> Validate(f) == Some(TitleRequired)
    ensures Trim(f.imageUrl) == [] ==> Validate(f).Some? && Position(Validate(f).value) <= Position(ImageUrlRequired)
    ensures Trim(f.description) == [] ==> Validate(f).Some? && Position(Validate(f).value) <= Position(DescriptionRequired)
  {
    if Trim(f.imageUrl) == [] {
      ValidateReportsFirstFailure(f, ImageUrlRequired);
    }
    if Trim(f.description) == [] {
      ValidateReportsFirstFailure(f, DescriptionRequired);
    }
  }

  // -----------------------------------------------------------------------
  // The modal

  /** The fields a new listing starts from. */
  const DefaultFields: ListingFields :=
    ListingFields("", "", 0, 0, 0, 0, "Residential", 34.0, -118.7, "", false)

  /** The store call `handleSubmit` makes. */
  datatype SaveRequest = NoSave | Add(fields: ListingFields) | Update(id: string, fields: ListingFields)

  /** How the awaited store call ended. */
  datatype StoreOutcome = Saved | Rejected

  /** Edit mode updates the existing listing by id; add mode adds. */
  function RequestFor(existing: Option<Property>, f: ListingFields): (r: SaveRequest)
    ensures r != NoSave && r.fields == f
    ensures r.Update? <==> existing.Some?
    ensures r.Update? ==> r.id == existing.value.id
  {
    match existing
    case Some(p) => Update(p.id, f)
    case None => Add(f)
  }

  /** Saving a freshly opened add form always stops at the title check. */
  lemma DefaultFieldsRejected()
    ensures Validate(DefaultFields) == Some(TitleRequired)
  {
    assert Trim("") == [];
  }

  class PropertyFormModal {
    var open: bool
    var existingProperty: Option<Property>
    // The form fields; each input's change handler assigns one of them.
    var title: string
    var description: string
    var price: int
    var bedrooms: int
    var bathrooms: int
    var squareFeet: int
    var propertyType: string
    var lat: real
    var lng: real
    var imageUrl: string
    var forRent: bool
    var error: string

    /** The eleven fields as the form would send them. */
    function Fields(): ListingFields
      reads this
    {
      ListingFields(title, description, price, bedrooms, bathrooms, squareFeet,
                    propertyType, lat, lng, imageUrl, forRent)
    }

    /** The form as first rendered, before the modal is opened. */
    constructor (existing: Option<Property>)
      ensures !open && existingProperty == existing
      ensures Fields() == DefaultFields && error == ""
    {
      open := false;
      existingProperty := existing;
      title, description := "", "";
      price, bedrooms, bathrooms, squareFeet := 0, 0, 0, 0;
      propertyType := "Residential";
      lat, lng := 34.0, -118.7;
      imageUrl := "";
      forRent := false;
      error := "";
    }

    /** Sets the eleven form fields at once, as the open effect's setters do. */
    method Load(f: ListingFields)
      modifies this`title, this`description, this`price, this`bedrooms, this`bathrooms,
               this`squareFeet, this`propertyType, this`lat, this`lng, this`imageUrl,
               this`forRent
      ensures Fields() == f
    {
      title, description, price, bedrooms, bathrooms, squareFeet :=
        f.title, f.description, f.price, f.bedrooms, f.bathrooms, f.squareFeet;
      propertyType, lat, lng, imageUrl, forRent :=
        f.propertyType, f.lat, f.lng, f.imageUrl, f.forRent;
    }

    /** The modal opens: the open effect resets the form in add mode or
        copies the listing in edit mode, and clears any old error. */
    method Open(existing: Option<Property>)
      modifies this
      ensures open && existingProperty == existing && error == ""
      ensures Fields() == match existing
                          case Some(p) => FieldsOf(p)
                          case None => DefaultFields
    {
      open := true;
      existingProperty := existing;
      error := "";
      match existing {
        case Some(p) => Load(FieldsOf(p));
        case None => Load(DefaultFields);
      }
    }

    /** The parent hides the modal; the form keeps its fields. */
    method Close()
      modifies this`open
      ensures !open
    {
      open := false;
    }

    /** `validateLatLng`: reports the first out-of-range coordinate. */
    method ValidateLatLng() returns (ok: bool)
      modifies this`error
      ensures ok <==> CheckLatLng(lat, lng) == None
      ensures !ok ==> error == Message(CheckLatLng(lat, lng).value)
      ensures ok ==> error == old(error)
    {
      if lat < -90.0 || lat > 90.0 {
        error := Message(LatitudeOutOfRange);
        return false;
      }
      if lng < -180.0 || lng > 180.0 {
        error := Message(LongitudeOutOfRange);
        return false;
      }
      return true;
    }

    /** The Save button. The first failing check sets the error and nothing
        is sent; otherwise the error is cleared and the eleven fields go to
        the store. A rejected save shows the failure message and keeps the
        modal open; a successful one asks the parent to close it. */
    method HandleSubmit(outcome: StoreOutcome) returns (request: SaveRequest, closeRequested: bool)
      requires open
      modifies this`error
      ensures request == if Validate(Fields()).Some? then NoSave
                         else RequestFor(existingProperty, Fields())
      ensures closeRequested <==> request != NoSave && outcome == Saved
      ensures error == match Validate(Fields())
                       case Some(e) => Message(e)
                       case None => if outcome == Saved then "" else SaveFailedMessage
    {
      request, closeRequested := NoSave, false;
      if IsBlank(title) {
        error := Message(TitleRequired);
        return;
      }
      if IsBlank(imageUrl) {
        error := Message(ImageUrlRequired);
        return;
      }
      if price <= 0 {
        error := Message(PriceNotPositive);
        return;
      }
      if bedrooms <= 0 {
        error := Message(BedroomsTooFew);
        return;
      }
      if bathrooms <= 0 {
        error := Message(BathroomsTooFew);
        return;
      }
      if squareFeet <= 0 {
        error := Message(SquareFeetNotPositive);
        return;
      }
      if IsBlank(description) {
        error := Message(DescriptionRequired);
        return;
      }
      var ok := ValidateLatLng();
      if !ok {
        return;
      }
      error := "";
      request := RequestFor(existingProperty, Fields());
      if outcome == Saved {
        closeRequested := true;
      } else {
        error := SaveFailedMessage;
      }
    }
  }
}
