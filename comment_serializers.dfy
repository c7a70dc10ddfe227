/** `CommentSerializer`: the rating range check and the no-self-rating rule. */
module CommentSerializers {
  import opened Wrappers
  import opened CommentModels
  import EcommerceModels

  /** The submitted fields of a comment: `name`, `email`, `comment`, `rating`, `item` (optional) and `vendor`. */
  datatype CommentInput = CommentInput(
    name: string,
    email: string,
    text: Option<string>,
    rating: real,
    item: Option<EcommerceModels.ItemId>,
    vendor: UserId)

  /** The validation errors the serializer reports, one per failed rule. */
  datatype ValidationError =
    | UnknownVendor        // `vendor` names no user
    | UnknownItem          // `item` is given and names no item
    | RatingBelowMinimum   // the model field's `MinValueValidator(1)`
    | RatingOutOfRange     // `validate_rating`: "Rating Value must be between 1 and 5"
    | SelfRating           // `validate`: the vendor's email is the rater's email

  /** `CommentSerializer.validate_rating`. */
  function ValidateRating(value: real): (r: Result<real, ValidationError>)
    ensures r.Success? <==> 1.0 <= value <= 5.0
    ensures r.Success? ==> r.value == value
    ensures r.Failure? ==> r.error == RatingOutOfRange
  {
    if value < 1.0 || value > 5.0 then Failure(RatingOutOfRange) else Success(value)
  }

  /**
   * The `rating` field: the model's minimum-value validator runs first, then
   * `validate_rating`. Either way a rating outside [1, 5] is refused.
   */
  function RatingFieldErrors(value: real): (errs: set<ValidationError>)
    ensures errs == {} <==> ValidateRating(value).Success?
  {
    if value < 1.0 then {RatingBelowMinimum}
    else if ValidateRating(value).Failure? then {ValidateRating(value).error}
    else {}
  }

  /** The per-field errors: every field is checked, and all their errors are reported together. */
  function FieldErrors(attrs: CommentInput, vendors: map<UserId, VendorRow>, items: set<EcommerceModels.ItemId>): set<ValidationError>
  {
    (if attrs.vendor !in vendors then {UnknownVendor} else {})
    + (if attrs.item.Some? && attrs.item.value !in items then {UnknownItem} else {})
    + RatingFieldErrors(attrs.rating)
  }

  /**
   * `CommentSerializer.is_valid`: the fields first; `validate` (no self-rating)
   * runs only when every field passed, and returns the attributes unchanged.
   */
  function IsValid(attrs: CommentInput, vendors: map<UserId, VendorRow>, items: set<EcommerceModels.ItemId>): (r: Result<CommentInput, set<ValidationError>>)
    ensures r.Success? ==> r.value == attrs
    ensures r.Failure? ==> r.error != {}
  {
    var errs := FieldErrors(attrs, vendors, items);
    if errs != {} then Failure(errs)
    else if vendors[attrs.vendor].email == attrs.email then Failure({SelfRating})
    else Success(attrs)
  }

  /** A comment passes validation exactly when its vendor and item exist, its rating is in [1, 5] and the rater is not the vendor. */
  lemma IsValidIff(attrs: CommentInput, vendors: map<UserId, VendorRow>, items: set<EcommerceModels.ItemId>)
    ensures IsValid(attrs, vendors, items).Success? <==>
      && attrs.vendor in vendors
      && (attrs.item.Some? ==> attrs.item.value in items)
      && 1.0 <= attrs.rating <= 5.0
      && vendors[attrs.vendor].email != attrs.email
  {
    var e1 := if attrs.vendor !in vendors then {UnknownVendor} else {};
    var e2 := if attrs.item.Some? && attrs.item.value !in items then {UnknownItem} else {};
    var e3 := RatingFieldErrors(attrs.rating);
    assert FieldErrors(attrs, vendors, items) == e1 + e2 + e3;
    if e1 != {} { assert UnknownVendor in e1 + e2 + e3; }
    if e2 != {} { assert UnknownItem in e1 + e2 + e3; }
    if e3 != {} { var x :| x in e3; assert x in e1 + e2 + e3; }
  }

  /** A self-rating is refused only once the fields are clean: a bad rating is reported instead. */
  lemma FieldErrorsComeFirst(attrs: CommentInput, vendors: map<UserId, VendorRow>, items: set<EcommerceModels.ItemId>)
    requires attrs.vendor in vendors && vendors[attrs.vendor].email == attrs.email
    requires attrs.rating > 5.0
    ensures IsValid(attrs, vendors, items) == Failure(FieldErrors(attrs, vendors, items))
    ensures RatingOutOfRange in IsValid(attrs, vendors, items).error
    ensures SelfRating !in IsValid(attrs, vendors, items).error
  {
  }
}
