/**
 * `CommentViewset.create` and `CommentViewset.destroy`: the ownership gates
 * around `Comment.save` and `Comment.delete`.
 */
module CommentViews {
  import opened Wrappers
  import opened CommentModels
  import opened CommentSerializers
  import EcommerceModels

  /** What the two views answer. */
  datatype ViewResponse =
    | Created(id: CommentId)                       // 201 with the new comment
    | BadRequest(errors: set<ValidationError>)     // 400 from `is_valid(raise_exception=True)`
    | NotAllowed                                   // 400 "Not Allowed. Commenter email and signed in users email must match"
    | NotFound                                     // 404 from the lookup through the comment manager
    | Forbidden                                    // 403 "comment can only be deleted by the creator/'commenter'."
    | Deleted                                      // 200 with status "success"
    | ServerError                                  // 500: the uncaught ZeroDivisionError of the average update

  /** The row `Comment.objects.create(**validated_data)` stores: approved and not deleted by default. */
  function NewComment(data: CommentInput): (c: Comment)
  {
    Comment(data.name, data.email, data.text, data.vendor, data.item, true, false, data.rating)
  }

  /**
   * `CommentViewset.create` on the store's value. Validation runs first, then
   * the submitted email must be the signed-in user's, then the comment is saved
   * under the next primary key.
   */
  function CreateSpec(db: RatingDb, items: set<EcommerceModels.ItemId>, input: CommentInput, requester: string): (RatingDb, ViewResponse)
  {
    match IsValid(input, db.vendors, items)
    case Failure(errs) => (db, BadRequest(errs))
    case Success(data) =>
      if data.email != requester then (db, NotAllowed)
      else
        var (db', out) := SaveSpec(db, |db.comments|, NewComment(data));
        (db', if out.Pass? then Created(|db.comments|) else ServerError)
  }

  /**
   * `CommentViewset.destroy` on the store's value. The lookup goes through the
   * filtering manager, so a soft-deleted or unapproved comment is not found.
   */
  function DestroySpec(db: RatingDb, pk: CommentId, requester: string): (RatingDb, ViewResponse)
    requires VendorsExist(db)
  {
    if pk >= |db.comments| || !Active(db.comments[pk]) then (db, NotFound)
    else if requester != db.comments[pk].email then (db, Forbidden)
    else
      var (db', out) := DeleteSpec(db, pk);
      (db', if out.Pass? then Deleted else ServerError)
  }

  /** An invalid comment is refused with its validation errors before the email check, and nothing is stored. */
  lemma CreateValidatesFirst(db: RatingDb, items: set<EcommerceModels.ItemId>, input: CommentInput, requester: string)
    requires IsValid(input, db.vendors, items).Failure?
    ensures CreateSpec(db, items, input, requester) == (db, BadRequest(IsValid(input, db.vendors, items).error))
  {
  }

  /** A valid comment submitted under someone else's email is refused with 400 and nothing is stored. */
  lemma CreateRequiresOwnEmail(db: RatingDb, items: set<EcommerceModels.ItemId>, input: CommentInput, requester: string)
    requires IsValid(input, db.vendors, items).Success? && input.email != requester
    ensures CreateSpec(db, items, input, requester) == (db, NotAllowed)
  {
  }

  /**
   * A valid comment from its own author is stored as a new active row, the
   * vendor's average stays the mean of its active ratings, and the answer is
   * 201: the fold cannot divide by zero because the new row is counted.
   */
  lemma CreateStoresComment(db: RatingDb, items: set<EcommerceModels.ItemId>, input: CommentInput)
    requires IsValid(input, db.vendors, items).Success? && AllAvgsAreMeans(db)
    ensures var (db', resp) := CreateSpec(db, items, input, input.email);
      && resp == Created(|db.comments|)
      && db'.comments == db.comments + [NewComment(input)]
      && Active(db'.comments[|db.comments|])
      && AllAvgsAreMeans(db')
  {
    IsValidIff(input, db.vendors, items);
    SaveKeepsMeans(db, NewComment(input));
  }

  /** Only active comments can be destroyed: anything else is 404 and nothing changes. */
  lemma DestroyInactiveNotFound(db: RatingDb, pk: CommentId, requester: string)
    requires VendorsExist(db)
    requires pk >= |db.comments| || !Active(db.comments[pk])
    ensures DestroySpec(db, pk, requester) == (db, NotFound)
  {
  }

  /** Only the commenter can destroy a comment: anyone else gets 403 and nothing changes. */
  lemma DestroyOthersForbidden(db: RatingDb, pk: CommentId, requester: string)
    requires VendorsExist(db) && pk < |db.comments| && Active(db.comments[pk])
    requires requester != db.comments[pk].email
    ensures DestroySpec(db, pk, requester) == (db, Forbidden)
  {
  }

  /** Soft deletion keeps the vendor foreign keys intact. */
  lemma DeleteKeepsVendors(db: RatingDb, pk: CommentId)
    requires VendorsExist(db) && pk < |db.comments|
    ensures VendorsExist(DeleteSpec(db, pk).0) && DeleteSpec(db, pk).0.vendors.Keys == db.vendors.Keys
  {
    var db' := DeleteSpec(db, pk).0;
    forall i | 0 <= i < |db'.comments| ensures db'.comments[i].vendor in db'.vendors {
      assert db'.comments[i].vendor == db.comments[i].vendor;
    }
  }

  /**
   * A comment is destroyed, and its rating backed out, at most once: once a
   * destroy got past the gates, every later destroy of that key is 404,
   * whoever asks.
   */
  lemma DestroyAtMostOnce(db: RatingDb, pk: CommentId, requester: string, again: string)
    requires VendorsExist(db)
    requires DestroySpec(db, pk, requester).1 in {Deleted, ServerError}
    ensures VendorsExist(DestroySpec(db, pk, requester).0)
    ensures DestroySpec(DestroySpec(db, pk, requester).0, pk, again).1 == NotFound
  {
    DeleteKeepsVendors(db, pk);
  }

  /**
   * The commenter's destroy of an active comment flags it, keeps the row and
   * answers "success"; when another active rating of the vendor remains, the
   * vendor's average stays the mean of the active ratings.
   */
  lemma DestroyByOwner(db: RatingDb, pk: CommentId)
    requires VendorsExist(db) && pk < |db.comments| && Active(db.comments[pk])
    requires AllAvgsAreMeans(db) && ActiveCount(db.comments, db.comments[pk].vendor) >= 2
    ensures var (db', resp) := DestroySpec(db, pk, db.comments[pk].email);
      && resp == Deleted
      && db'.comments == db.comments[pk := db.comments[pk].(deleted := true)]
      && AllAvgsAreMeans(db')
  {
    DeleteKeepsMeans(db, pk);
  }

  /**
   * The commenter's destroy of the vendor's only active comment fails with 500
   * after the row is flagged; the averages are untouched and, the vendor being
   * left with nothing to average, every average is still a mean.
   */
  lemma DestroyLastActive(db: RatingDb, pk: CommentId)
    requires VendorsExist(db) && pk < |db.comments| && Active(db.comments[pk])
    requires ActiveCount(db.comments, db.comments[pk].vendor) == 1
    ensures var (db', resp) := DestroySpec(db, pk, db.comments[pk].email);
      && resp == ServerError
      && db' == db.(comments := db.comments[pk := db.comments[pk].(deleted := true)])
      && (AllAvgsAreMeans(db) ==> AllAvgsAreMeans(db'))
  {
    DeleteLastDividesByZero(db, pk);
    var x := db.comments[pk].(deleted := true);
    var db' := db.(comments := db.comments[pk := x]);
    if AllAvgsAreMeans(db) {
      forall u ensures AvgIsMean(db', u) {
        assert AvgIsMean(db, u);
        ActiveTotalsUpdate(db.comments, pk, x, u);
        if u == x.vendor {
          NoCountNoSum(db'.comments, u);
        }
      }
    }
  }

  /** Creating a comment keeps the vendor foreign keys intact: a stored comment names an existing vendor. */
  lemma CreateKeepsVendors(db: RatingDb, items: set<EcommerceModels.ItemId>, input: CommentInput, requester: string)
    requires VendorsExist(db)
    ensures VendorsExist(CreateSpec(db, items, input, requester).0)
    ensures CreateSpec(db, items, input, requester).0.vendors.Keys == db.vendors.Keys
  {
    var db' := CreateSpec(db, items, input, requester).0;
    if IsValid(input, db.vendors, items).Success? && input.email == requester {
      IsValidIff(input, db.vendors, items);
      forall i | 0 <= i < |db'.comments| ensures db'.comments[i].vendor in db'.vendors {
        if i < |db.comments| {
          assert db'.comments[i] == db.comments[i];
        }
      }
    }
  }

  /** Every stored rating is within [1, 5]. */
  ghost predicate RatingsInRange(db: RatingDb)
  {
    forall i :: 0 <= i < |db.comments| ==> 1.0 <= db.comments[i].rating <= 5.0
  }

  /** Comments that enter through the view keep every stored rating within [1, 5]. */
  lemma ViewsKeepRatingsInRange(db: RatingDb, items: set<EcommerceModels.ItemId>, input: CommentInput, requester: string, pk: CommentId)
    requires RatingsInRange(db) && VendorsExist(db)
    ensures RatingsInRange(CreateSpec(db, items, input, requester).0)
    ensures RatingsInRange(DestroySpec(db, pk, requester).0)
  {
    IsValidIff(input, db.vendors, items);
    var db1 := CreateSpec(db, items, input, requester).0;
    forall i | 0 <= i < |db1.comments| ensures 1.0 <= db1.comments[i].rating <= 5.0 {
      if i < |db.comments| { assert db1.comments[i] == db.comments[i]; }
    }
    var db2 := DestroySpec(db, pk, requester).0;
    forall i | 0 <= i < |db2.comments| ensures 1.0 <= db2.comments[i].rating <= 5.0 {
      assert db2.comments[i].rating == db.comments[i].rating;
    }
  }

  /** `CommentViewset.create` against the store. */
  method Create(store: CommentStore, items: set<EcommerceModels.ItemId>, input: CommentInput, requester: string)
    returns (resp: ViewResponse)
    modifies store
    ensures (store.State(), resp) == CreateSpec(old(store.State()), items, input, requester)
  {
    var valid := IsValid(input, store.vendors, items);
    if valid.Failure? {
      return BadRequest(valid.error);
    }
    if valid.value.email != requester {
      return NotAllowed;
    }
    var id := |store.comments|;
    var out := store.Save(id, NewComment(valid.value));
    resp := if out.Pass? then Created(id) else ServerError;
  }

  /** `CommentViewset.destroy` against the store. */
  method Destroy(store: CommentStore, pk: CommentId, requester: string) returns (resp: ViewResponse)
    requires VendorsExist(store.State())
    modifies store
    ensures (store.State(), resp) == DestroySpec(old(store.State()), pk, requester)
  {
    if pk >= |store.comments| || !Active(store.comments[pk]) {
      return NotFound;
    }
    if requester != store.comments[pk].email {
      return Forbidden;
    }
    var out := store.Delete(pk);
    resp := if out.Pass? then Deleted else ServerError;
  }
}
