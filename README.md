# DRF shop backend: stock, orders, vendor ratings, profiles and the token middleware

A Dafny model of the core of the Charlez91/DRF Django backend:

- **Orders and stock** (`ecommerce_models.dfy`, `ecommerce_serializers.dfy`, `ecommerce_views.dfy`):
  - an `Item`'s stock is checked and reduced when an order is placed;
  - `OrderSerializer.validate` refuses an over-stock quantity;
  - `OrderViewSet.create` answers 400, 404 or 200;
  - `OrderViewSet.get_queryset` lists only the requester's orders;
  - orders are marked delivered.

  The mutable item table and order table are a `Shop` class. Its methods are proved equal to the value-level `PlaceOrderSpec`/`CreateSpec`, and the lemmas are proved about those functions. The central invariant: for every item, stock plus the units already ordered never changes.
- **Vendor ratings** (`comment_models.dfy`, `comment_serializers.dfy`, `comment_views.dfy`):
  - comments are soft-deleted;
  - the filtering comment manager hides deleted and unapproved comments;
  - every save folds the comment's rating into the vendor's running average, and every delete unfolds it;
  - the serializer validates the rating and refuses a vendor rating themself;
  - the view only lets the commenter create or delete a comment.

  The comment table and the vendor rows are a `CommentStore` class. The central invariant is `AllAvgsAreMeans`: a vendor's average times the number of their active comments is the sum of those ratings. It is kept by saving a new active comment and by deleting one of at least two.
- **Profiles** (`customuser_models.dfy`, `customer_serializers.dfy`, `employee_serializers.dfy`):
  - the user row with its defaults;
  - the upload path `profile_pics/<n><ext>` for profile pictures;
  - registration of customers and employees, which stores the hashed password and creates the profile row;
  - the partial-update rules for both profile kinds. Absent fields are kept, except bio and phone, which are nulled. A new picture is stored under its upload path.

  The user is a `CustomUser` class that the update methods change in place.
- **Token middleware** (`token_middleware.dfy`): an `access_token` cookie becomes an `Authorization: Token <cookie>` header, unless the request already carries a header containing `Token`. The request is then handed on exactly once.

The average rating is one column, `CustomUser.avg_rating`. The profile side (`CustomUserModels.CustomUser.avgRating`) and the rating side (the `avgRating` of a row in `CommentModels.RatingDb.vendors`) both stand for it. The rating side carries only the two columns the rating code reads and writes.

Support modules:
- `wrappers.dfy` holds `Option`, `Result` and `Outcome`.
- `validated_data.dfy` holds `Field`, an entry of a serializer's `validated_data` that is either absent or given. Its members mirror `dict.get` and `dict.pop`.

Things outside the model become parameters:
- the password hasher (`make_password`/`set_password`) is a function parameter;
- the random number of the upload path is a parameter limited to `randint`'s range. The profile updates take it too, because saving a new image names the file through that path.

Where the behaviour is surprising, the model keeps the code's behaviour:
- Deleting a vendor's last active comment divides by zero. The row is already flagged deleted and the average is not changed, so the view fails with 500. It does not reset the average to 0, which is what one might expect.
- Re-saving a comment folds its rating in again.
- Saving an unapproved comment folds its rating in, but the comment is not counted.

## Model

| member | source | states |
|---|---|---|
| CustomUserModels.LastIndexOf | backend/core/models/user_models/customuser_models.py:11 | the index of the last occurrence of a character, or -1; no later position holds it |
| CustomUserModels.BaseName | backend/core/models/user_models/customuser_models.py:11 | `os.path.basename`: a suffix of the path without '/', preceded by '/' when shorter than the path |
| CustomUserModels.SplitExt | backend/core/models/user_models/customuser_models.py:12 | `os.path.splitext`: root + ext is the name; ext is non-empty exactly when a dot follows a non-dot; ext starts with its only '.' |
| CustomUserModels.GetFilenameExt | backend/core/models/user_models/customuser_models.py:10-13 | name + ext is the base name of the path, neither contains '/', ext is empty or starts with '.' |
| CustomUserModels.DecimalString | backend/core/models/user_models/customuser_models.py:18 | the decimal form of an integer: non-empty digits without a leading zero |
| CustomUserModels.DecimalRoundTrip | backend/core/models/user_models/customuser_models.py:16-18 | parsing the decimal form of n gives n back |
| CustomUserModels.UploadImagePath | backend/core/models/user_models/customuser_models.py:15-19 | the path is exactly `profile_pics/`, then `str(n)` of the random number (canonical digits that parse back to it), then the upload's extension |
| CustomUserModels.UploadImagePathIgnoresName | backend/core/models/user_models/customuser_models.py:15-19 | only the extension of the uploaded name reaches the stored path |
| CustomUserModels.CustomUser.constructor | backend/core/models/user_models/customuser_models.py:28-38 | a new user has empty names and bio, `default.jpg`, an unverified email, average rating 0 and no profile |
| CommentModels.ActiveIds | backend/core/models/comment_models.py:13-18 | the manager shows exactly the approved, not-deleted comments |
| CommentModels.GetComments | backend/core/models/user_models/customuser_models.py:48-52 | the ids of the vendor's approved, not-deleted comments; `GetCommentsAgreesWithManager` proves it equal to the manager's selection |
| CommentModels.GetCommentsAgreesWithManager | backend/core/models/user_models/customuser_models.py:48-52 | `get_comments` selects exactly the vendor's comments the comment manager shows, a subset of all active comments |
| CommentModels.ActiveCountIsQueryCount | backend/core/models/comment_models.py:42 | the count the rating update uses is the number of the vendor's approved, undeleted comments |
| CommentModels.ActiveTotalsAppend | backend/core/models/comment_models.py:41-47 | a new row adds its own count and rating to its vendor's totals |
| CommentModels.ActiveTotalsUpdate | backend/core/models/comment_models.py:65-71 | rewriting one row changes the totals by that row's old and new contributions only |
| CommentModels.NewVendorAvgIsMean | backend/core/models/user_models/customuser_models.py:38 | a new vendor's default average 0 is the mean of their (no) ratings |
| CommentModels.SaveUserAvgRating | backend/core/models/comment_models.py:41-49 | fails with division by zero exactly when the vendor has no active comment; otherwise only that vendor's average changes |
| CommentModels.DelUserAvgRating | backend/core/models/comment_models.py:51-58 | fails with division by zero exactly when no active comment is left; otherwise only that vendor's average changes |
| CommentModels.SaveSpec | backend/core/models/comment_models.py:60-63 | stores the row at its key, then folds its rating into the vendor's average; a failing fold keeps the stored row. Its properties are the `Save*`, `Resave*` and `SaveThenDeleteRestores` lemmas |
| CommentModels.DeleteSpec | backend/core/models/comment_models.py:65-71 | flags the row deleted and stores it without a fold, then backs its rating out of the average. Its properties are `DeleteIsSoft`, `DeleteKeepsMeans` and `DeleteLastDividesByZero` |
| CommentModels.SaveKeepsMeans | backend/core/models/comment_models.py:60-63 | saving a new active comment succeeds, appends it, and keeps every average the mean of its vendor's active ratings |
| CommentModels.DeleteKeepsMeans | backend/core/models/comment_models.py:65-71 | soft-deleting one of at least two active comments keeps every average the mean |
| CommentModels.SaveThenDeleteRestores | backend/core/models/comment_models.py:41-58 | saving a new active comment and then deleting it gives back the vendors' averages exactly |
| CommentModels.DeleteLastDividesByZero | backend/core/models/comment_models.py:51-58 | deleting the last active comment leaves the row flagged deleted, the average unchanged, and fails with division by zero |
| CommentModels.DeleteIsSoft | backend/core/models/comment_models.py:65-71 | delete flags exactly that row as deleted, keeps every other row and the row count, and hides it from the active ids |
| CommentModels.ResaveRefolds | backend/core/models/comment_models.py:60-63 | re-saving an active comment keeps the rows and leaves the average unchanged exactly when the rating already equals it |
| CommentModels.SaveUnapprovedSkewsMean | backend/core/models/comment_models.py:41-47 | an unapproved comment is stored and folded in without being counted; the mean survives exactly when its rating equals the average |
| CommentModels.SaveUncountedDividesByZero | backend/core/models/comment_models.py:41-47 | saving an inactive comment for a vendor with no active comments stores it and fails with division by zero |
| CommentModels.CommentStore.constructor | backend/core/models/comment_models.py:21-38 | the store starts with the given vendor rows and no comments |
| CommentModels.CommentStore.Save | backend/core/models/comment_models.py:60-63 | persist then fold, as the save specification; a new active comment keeps every average the mean |
| CommentModels.CommentStore.Delete | backend/core/models/comment_models.py:65-71 | flag, persist through the parent save, then unfold; with two or more active comments every average stays the mean |
| CommentSerializers.ValidateRating | backend/core/serializers/comment_serializers.py:21-28 | a rating is accepted, unchanged, exactly when it is between 1 and 5 |
| CommentSerializers.RatingFieldErrors | backend/core/serializers/comment_serializers.py:21-28 | the rating field has no error exactly when `validate_rating` accepts it |
| CommentSerializers.IsValid | backend/core/serializers/comment_serializers.py:30-40 | valid input comes back unchanged; invalid input has at least one error |
| CommentSerializers.IsValidIff | backend/core/serializers/comment_serializers.py:14-40 | input is valid exactly when the vendor exists, any item exists, the rating is in [1, 5] and the commenter's email is not the vendor's |
| CommentSerializers.FieldErrorsComeFirst | backend/core/serializers/comment_serializers.py:30-40 | a field error hides the self-rating check: a self-rating with a bad rating reports the rating error only |
| CommentViews.CreateSpec | backend/core/views/comment_views.py:48-55 | validate, compare the email with the requester's, then save under the next key. Its properties are the `Create*` lemmas and `ViewsKeepRatingsInRange` |
| CommentViews.DestroySpec | backend/core/views/comment_views.py:57-62 | look the comment up through the filtering manager (404), check the commenter (403), then delete. Its properties are the `Destroy*` lemmas and `DeleteKeepsVendors` |
| CommentViews.CreateValidatesFirst | backend/core/views/comment_views.py:48-50 | invalid input is answered 400 with its errors and stores nothing |
| CommentViews.CreateRequiresOwnEmail | backend/core/views/comment_views.py:51-55 | valid input whose email is not the signed-in user's is refused and stores nothing |
| CommentViews.CreateStoresComment | backend/core/views/comment_views.py:51-53 | the commenter's valid input is stored as a new approved, undeleted comment, and every average stays the mean |
| CommentViews.DestroyInactiveNotFound | backend/core/views/comment_views.py:58 | a missing, deleted or unapproved comment is 404 and nothing changes |
| CommentViews.DestroyOthersForbidden | backend/core/views/comment_views.py:59-62 | someone other than the commenter gets 403 and nothing changes |
| CommentViews.CreateKeepsVendors | backend/core/views/comment_views.py:48-55 | a create keeps the vendor rows, and every stored comment names an existing vendor |
| CommentViews.DeleteKeepsVendors | backend/core/views/comment_views.py:60 | a delete keeps the vendor rows every comment refers to |
| CommentViews.DestroyAtMostOnce | backend/core/views/comment_views.py:57-61 | after a destroy that reached the delete, the same pk is 404 for everyone |
| CommentViews.DestroyByOwner | backend/core/views/comment_views.py:57-61 | the commenter's destroy of one of two or more active comments flags it deleted, answers success and keeps every average the mean |
| CommentViews.DestroyLastActive | backend/core/views/comment_views.py:57-61 | the commenter's destroy of the vendor's last active comment flags it, leaves the averages as they were and fails with 500; every average stays a mean |
| CommentViews.ViewsKeepRatingsInRange | backend/core/views/comment_views.py:48-62 | neither view ever stores a rating outside [1, 5] |
| CommentViews.Create | backend/core/views/comment_views.py:48-55 | the store after `create`, and the answer, are those of the create specification |
| CommentViews.Destroy | backend/core/views/comment_views.py:57-62 | the store after `destroy`, and the answer, are those of the destroy specification |
| EcommerceModels.ParseStatus | backend/ecommerce/models.py:148-156 | a parsed status has the stored value it was parsed from |
| EcommerceModels.StatusRoundTrip | backend/ecommerce/models.py:148-156 | every status parses back from its stored value |
| EcommerceModels.NewOrder | backend/ecommerce/models.py:124-128 | the inserted row: the item, the buyer and the quantity, with the default status pending; `PlaceOrderWithinStock` states it is what an order appends |
| EcommerceModels.MarkedDelivered | backend/ecommerce/models.py:170-176 | the row after `mark_as_delivered`; `MarkAsDeliveredIdempotent` states its properties |
| EcommerceModels.MarkAsDeliveredIdempotent | backend/ecommerce/models.py:170-176 | marking sets the status to delivered, changes nothing else, and marking twice is marking once |
| EcommerceModels.CheckStock | backend/ecommerce/models.py:116-120 | `check_stock`: the quantity is at most the stock; `CheckStockBoundaries` pins the boundary |
| EcommerceModels.CheckStockBoundaries | backend/ecommerce/models.py:116-120 | an order of exactly the stock passes, one unit more fails |
| EcommerceModels.OrderedUnitsUpdate | backend/ecommerce/models.py:170-176 | rewriting an order without changing its item or quantity keeps every item's ordered units |
| EcommerceModels.PlaceOrderSpec | backend/ecommerce/models.py:122-133 | `place_order` on the catalog's value: check the stock, then append the new order and reduce the stock, or return none. Its properties are the `PlaceOrder*` lemmas |
| EcommerceModels.PlaceOrderWithinStock | backend/ecommerce/models.py:122-131 | within stock: a pending order is appended and only that item's stock drops by the quantity |
| EcommerceModels.PlaceOrderOverStock | backend/ecommerce/models.py:132-133 | over stock: nothing is placed and nothing changes |
| EcommerceModels.PlaceOrderConservesUnits | backend/ecommerce/models.py:122-133 | for every item, stock plus ordered units is the same before and after |
| EcommerceModels.Shop.constructor | backend/ecommerce/models.py:86 | the shop starts with the given stock and no orders |
| EcommerceModels.Shop.ManageStock | backend/ecommerce/models.py:110-114 | only that item's stock drops by the quantity |
| EcommerceModels.Shop.PlaceOrder | backend/ecommerce/models.py:122-133 | an order is returned exactly when the quantity is within stock; then it is appended and the stock reduced, otherwise nothing changes |
| EcommerceModels.Shop.MarkAsDelivered | backend/ecommerce/models.py:170-176 | the order becomes delivered, a write happens only when it was not, stock and ordered units are kept |
| EcommerceSerializers.Validate | backend/ecommerce/serializers.py:55-63 | refused with the 400 "There is not enough stock" error exactly when the quantity exceeds stock; otherwise the data comes back unchanged |
| EcommerceSerializers.ValidateAgreesWithPlaceOrder | backend/ecommerce/serializers.py:55-63 | validation passes exactly when `place_order` would place the order |
| EcommerceViews.OrdersOf | backend/ecommerce/views.py:33-39 | every listed order is the requester's |
| EcommerceViews.OrdersOfExact | backend/ecommerce/views.py:33-39 | the listing holds each of the requester's orders as often as the table does, and no other order |
| EcommerceViews.OrdersOfAppend | backend/ecommerce/views.py:33-39 | a new order extends its owner's listing at the end and no one else's |
| EcommerceViews.CreateSpec | backend/ecommerce/views.py:41-56 | parse the body (400), look the item up (404), validate the stock (400), then place the order. Its properties are the `Create*` lemmas |
| EcommerceViews.CreateMalformedBody | backend/ecommerce/views.py:55-56 | a body that is not JSON is answered 400, with the parser's own detail, and nothing changes |
| EcommerceViews.CreateUnknownItem | backend/ecommerce/views.py:47 | an unknown item is answered with status 404 before validation, with the framework's own detail, and nothing changes |
| EcommerceViews.CreateOverStock | backend/ecommerce/views.py:48-49 | an over-stock quantity is 400 "There is not enough stock", nothing changes |
| EcommerceViews.CreateWithinStock | backend/ecommerce/views.py:50-52 | within stock the pending order is placed, returned and added to the requester's listing |
| EcommerceViews.CreateConservesUnits | backend/ecommerce/views.py:41-56 | whatever the request, the items are kept and stock plus ordered units is conserved |
| EcommerceViews.Create | backend/ecommerce/views.py:41-56 | the shop after `create`, and the answer, are those of the create specification |
| CustomerSerializers.ValidatePassword | backend/core/serializers/customer_serializers.py:72 | the password field passes, unchanged, exactly when it is present if required and at least 8 characters if present |
| CustomerSerializers.MergeAccount | backend/core/serializers/customer_serializers.py:85-92 | the user row after the assignments of `update`, with a given image renamed by `upload_image_path`. Its properties are the three `MergeAccount*` lemmas |
| CustomerSerializers.MergeAccountKeepsAbsent | backend/core/serializers/customer_serializers.py:85-90 | password, names, address and image are replaced exactly when given and kept otherwise; a given password is stored hashed, a given image under its `upload_to` path `profile_pics/<n><ext>` |
| CustomerSerializers.MergeAccountOverwritesBioAndPhone | backend/core/serializers/customer_serializers.py:91-92 | bio and phone become null when absent, whatever they were |
| CustomerSerializers.MergeAccountIdempotent | backend/core/serializers/customer_serializers.py:84-93 | applying the same update twice leaves every column but the password and the image as applying it once; a repeated image lands under the path the second upload number gives; an update with neither password nor image is idempotent |
| CustomerSerializers.AssignAccount | backend/core/serializers/customer_serializers.py:84-93 | the user row becomes the merge of the old row and the update, a given image renamed by `upload_image_path` with the drawn number; read-only columns and profiles are kept |
| CustomerSerializers.RegisterCustomer | backend/core/serializers/customer_serializers.py:39-48 | a new non-staff user with the hashed password, the given fields and the column defaults (empty names and bio, `default.jpg`, unverified email, average 0), and a customer profile of the given type |
| CustomerSerializers.MergeCustomerProfile | backend/core/serializers/customer_serializers.py:79-81 | the customer profile after `update`'s nested-field loop; `MergeCustomerProfileKeepsAbsent` states its properties |
| CustomerSerializers.MergeCustomerProfileKeepsAbsent | backend/core/serializers/customer_serializers.py:79-81 | store address and URL are replaced exactly when given; the user type is never changed |
| CustomerSerializers.UpdateCustomer | backend/core/serializers/customer_serializers.py:77-105 | fails without a customer profile and writes nothing; otherwise the user row and the profile are merged, and read-only columns are kept |
| EmployeeSerializers.RegisterEmployee | backend/core/serializers/employee_serializers.py:33-39 | a new staff user with the hashed password, the given fields and the column defaults (empty names and bio, `default.jpg`, unverified email, average 0), and an employee profile holding only the department |
| EmployeeSerializers.MergeEmployeeProfile | backend/core/serializers/employee_serializers.py:70-73 | the employee profile after `update`'s nested-field loop; `MergeEmployeeProfileKeepsAbsent` states its properties |
| EmployeeSerializers.MergeEmployeeProfileKeepsAbsent | backend/core/serializers/employee_serializers.py:70-73 | skills, department and position are replaced exactly when given |
| EmployeeSerializers.UpdateEmployee | backend/core/serializers/employee_serializers.py:67-93 | fails without an employee profile and writes nothing; otherwise the user row and the profile are merged, and read-only columns are kept |
| TokenMiddleware.IsInfix | backend/drf_course/middleware/tokens.py:14 | Python's substring test: true exactly when the text occurs at some position |
| TokenMiddleware.RewriteMeta | backend/drf_course/middleware/tokens.py:10-22 | `request.META` as the wrapped handler sees it. Its properties are the `TokenHeaderWins` to `RewriteIdempotent` lemmas below |
| TokenMiddleware.TokenHeaderWins | backend/drf_course/middleware/tokens.py:14-16 | a header containing `Token` is passed on untouched, whatever the cookies |
| TokenMiddleware.CookieBecomesHeader | backend/drf_course/middleware/tokens.py:18-19 | without one, a non-empty cookie becomes `Token <cookie>`; an absent or empty cookie changes nothing |
| TokenMiddleware.RewriteTouchesOnlyAuthorization | backend/drf_course/middleware/tokens.py:18-19 | no other request header is changed |
| TokenMiddleware.TokenHeaderHasKeyword | backend/drf_course/middleware/tokens.py:14-19 | a written header itself passes the `Token` test |
| TokenMiddleware.RewriteAuthenticates | backend/drf_course/middleware/tokens.py:10-21 | afterwards the request has a token header exactly when it had one or a non-empty cookie |
| TokenMiddleware.RewriteIdempotent | backend/drf_course/middleware/tokens.py:10-22 | running the middleware twice rewrites as once |
| TokenMiddleware.Handler.Handle | backend/drf_course/middleware/tokens.py:7-8 | the handler records the request it got and returns its fixed response |
| TokenMiddleware.Middleware.constructor | backend/drf_course/middleware/tokens.py:7-8 | the middleware keeps the handler it wraps |
| TokenMiddleware.Middleware.Call | backend/drf_course/middleware/tokens.py:10-22 | the request is rewritten in place, handed on exactly once, and the handler's response is returned as is |

## Left out

- Image processing and deleting the previous image are left out. `process_image` and `del_prev_image` are background tasks that work on files.
- E-mails, Celery tasks, logging and `print` are left out.
- The rating average is kept as an exact real. `round(…, 2)`, the float conversion and the `DecimalField` digit limits are not modelled, so every average lemma holds only up to that rounding.
- CommentModels.SaveUserAvgRating and CommentModels.DelUserAvgRating: the vendor row is re-read at each save. A stale `self.vendor` object cached across saves is not modelled.
- Concurrency is left out. That includes the read-then-write race between `check_stock` and `manage_stock`, and between the rating count and the average update.
- EcommerceModels.PlaceOrderWithinStock: as written, `place_order` passes `item=` to `Order.objects.create`. `item` is a many-to-many field through `OrderItem`, and the ORM refuses a many-to-many keyword with a `TypeError`. So the within-stock path of the code raises before `manage_stock`: no order is made, the stock is unchanged and the request fails with 500. The model, like `backend/ecommerce/tests.py`, follows the evident intent: one item, one quantity and one user per order, and the stock reduced. `OrderItem`, `total_price`, `total_weight` and `Transaction` are not modelled.
- `Item.amount`, `Category`, `Color`, `Currency` and the item serializers are not part of this model.
- EcommerceViews.Create: DRF's `JSONParser` turns malformed JSON into its own parse error, which the framework answers with 400 and its own detail text. The view's `except JSONDecodeError` branch never runs, so its "Json Decode Error" message is never sent. The model keeps only the 400 status, not the detail text. A body without `item` raises `KeyError` in the view. A body without `quantity` passes field validation, because `Order.quantity` has a default. `OrderSerializer.validate` then hands `None` to `check_stock`, where `int(None)` raises `TypeError`. Both answer 500, and neither is modelled: the body always has both entries.
- Serializer inputs (`CommentInput`, the `Field` entries of an update, the registration records) are the parsed field values. DRF's `CharField` and `EmailField` have already stripped surrounding whitespace from them, and that trimming is not modelled.
- Authentication, permissions, filter backends, pagination and URL routing are not modelled. The requester is a parameter.
- CommentSerializers.IsValid: only the vendor, item and rating checks and the self-rating check are modelled. Required `name`, the e-mail format and the decimal-place limits are not.
- CustomerSerializers.UpdateCustomer and EmployeeSerializers.UpdateEmployee: the password's `min_length` check is a precondition. That check itself is `CustomerSerializers.ValidatePassword`. Field validation of the other entries is not modelled.
- CustomerSerializers.AssignAccount: `bio` is a `TextField` without `null=True` (customuser_models.py:31), so its column is `NOT NULL`. The update assigns `validated_data.get("bio")`, which is null whenever bio is absent. The following `instance.save()` then raises an integrity error. The model shows the assignments as written and stores null.
- CustomerSerializers.UpdateCustomer: whenever bio is absent, the program's update fails with 500 at `instance.save()` (customer_serializers.py:93) and stores neither the user row nor the profile row. The model instead answers `Pass` with the merged row and profile.
- EmployeeSerializers.UpdateEmployee: whenever bio is absent, the program's update fails with 500 at `instance.save()` (employee_serializers.py:84) and stores neither the user row nor the profile row. The model instead answers `Pass` with the merged row and profile.
- Password hashing (`make_password`, `set_password`) is a function parameter. Its salt and algorithm are not modelled.
- CustomerSerializers.MergeAccountIdempotent: a repeated update that carries a password stores a new hash each time, because `make_password` salts each hash afresh. A repeated update that carries an image uploads it again under a newly drawn `randint` number. So the lemma promises full idempotence only for updates with neither, and for an image only that the second path is the one its own number gives.
- CustomUserModels.UploadImagePath: the random number from `randint(1, 3910209312)` is a parameter, limited to that range.
- CustomerSerializers.AssignAccount: the storage's `get_available_name` appends a random suffix when `profile_pics/<n><ext>` is already taken. The model stores the `upload_to` path itself.
- Quantities and stock are natural numbers, as the positive-integer fields and their field validation ensure.
- TokenMiddleware.Middleware.Call: the handler stands for the rest of the middleware stack and the view. It is modelled as a recorder with a fixed response.
