# Tailoring marketplace: ledger, order lifecycle and access rules in Dafny

A Dafny model of the domain logic of a Django tailoring marketplace, in which
clients order custom clothing from workshops and workshops keep a stock of
materials. The model covers:

- **Inventory ledger** (`inventory.dfy`, module `Inventory`). A `Material` class
  holds `currentStock` and the growing sequence of `StockMovement`s saved against
  it. `SaveMovement` is `StockMovement.save`. The `add_stock` and `remove_stock`
  endpoints are methods over a material. The stock-status label and the material
  list filter are pure functions. Decimals have two places and are integers
  counting hundredths (12.50 is 1250).
- **Order lifecycle** (`orders.dfy`, module `Orders`). An `Order` class holds its
  status, its cancellation reason and its trail of status updates.
  A ghost history of the operations applied ties the three fields to reference
  functions (`StatusAfter`, `LogOf`, `ReasonAfter`). Each replays the history
  one event at a time (`StatusStep`, `LogStep`, `ReasonStep`). `cancel`, `update_status`
  and the nested status-update endpoint's create, update and delete are methods
  over it.
- **Access filters** (`access.dfy`, module `Access`). Each `get_queryset` becomes
  a decision (all rows, own rows only, or none) and a pure filter over the table.
  This covers users, orders, measurements, stock movements and status updates.
  A table is given in its listing order (`Meta.ordering`, newest first for
  orders, measurements, stock movements and status updates), which the filter
  keeps, so a newly created row is at the head of the table.
- **Registration and display names** (`accounts.dfy`, module `Accounts`).
  Password-confirmation validation, user creation with its default workshop
  profile, and the `"first last"` formatters.
- **Material categories** (`categories.dfy`, module `Categories`). The recursive
  nested serialization of the category tree.
- **Specialties text** (`specialties.dfy`, module `Specialties`). Python's
  `split('\n')` and `'\n'.join`, and the admin form's parser.
- **Workshops** (`workshops.dfy`, module `Workshops`). `average_rating` over real
  numbers, the workshop admin form (initial text, cleaning, save) and
  `save_model`.
- `text.dfy` (module `Text`) holds Python's `str.isspace` and `str.strip`, which
  the serializers apply to submitted text and the admin form to each line.
- `common.dfy` (module `Common`) holds `Option`, `Result`, user identities, the
  response codes and a generic order-preserving `Filter`.

Inputs that a request reads from the framework become parameters: the requester
(`Account`, or `Option<Account>` where anonymity matters), URL keys and query
parameters (`Option` values; a parameter the view tests for truthiness counts as
absent when empty, while the material list's `is_active`, tested against `None`,
is `Some("")` when empty), and the
payload (a datatype per serializer).

## Model

| member | source | states |
|---|---|---|
| `Inventory.Material.constructor` | api/models.py:239-253 | A new material has `current_stock` 0 (the field default) and no movements, so the ledger invariant holds |
| `Inventory.Material.SaveMovement` | api/models.py:284-291 | `in`/`return` raise the stock by exactly the quantity and `out`/`adjustment` lower it by exactly the quantity. Any other code leaves it unchanged. There is no sufficiency check, so the stock may go negative. The movement is appended, only `current_stock` and the movements change, and stock = signed sum of movements is preserved |
| `Inventory.Material.ResaveMovement` | api/models.py:284-291 | As written, saving a stored movement again (an update through the movement endpoint) applies the new values' effect on top of the stock and never takes back the old effect |
| `Inventory.Material.DeleteMovement` | api/views.py:335-363 | As written, deleting a movement through the movement endpoint removes the row and leaves the stock as it was |
| `Inventory.ResaveDriftsLedger` | api/models.py:284-291 | After such an update the stock is off the ledger by exactly the stored movement's effect, so the invariant survives only if that effect was zero |
| `Inventory.DeleteDriftsLedger` | api/views.py:335-363 | After a delete the stock is off the ledger by exactly the deleted movement's effect |
| `Inventory.Material.ResaveMovementCorrected` | api/models.py:284-291 | Corrected update: take back the stored effect, apply the new one, and the ledger invariant is kept |
| `Inventory.Material.DeleteMovementCorrected` | api/views.py:335-363 | Corrected delete: take back the movement's effect, and the ledger invariant is kept |
| `Inventory.BalanceIsSignedSum` | api/models.py:284-291 | Signed sum of a history = Σin + Σreturn − Σout − Σadjustment |
| `Inventory.AddStockOutcome` | api/views.py:289-300 | `add_stock` answers 201 exactly when the payload validates, otherwise 400. The 100-character limit on `reference` applies after the serializer trims it, and neither `reference` nor `notes` may hold U+0000 |
| `Inventory.PaddedTextIsTrimmed` | api/views.py:289-300 | A 100-character reference with a trailing space is accepted and stored without the space, and `" x "` notes are stored as `"x"` |
| `Inventory.NullCharacterRefused` | api/views.py:289-319 | A reference holding U+0000 is refused by both stock endpoints |
| `Inventory.AddStock` | api/views.py:289-300 | On 201 it appends one `in` movement carrying the payload (reference and notes trimmed) and the requester, and the stock rises by the quantity. On 400 nothing changes. The ledger invariant is kept |
| `Inventory.RemoveStockOutcome` | api/views.py:302-319 | 201 exactly when the payload validates (trimmed reference at most 100 characters, no U+0000 in reference or notes) and quantity ≤ stock, equality allowed. "Stock insuffisant" exactly when it validates and stock < quantity. 400 for an invalid payload |
| `Inventory.RemoveStock` | api/views.py:302-319 | A rejected call creates no movement and leaves the stock unchanged. An accepted call appends one `out` movement with trimmed reference and notes and lowers the stock by the quantity. Removing exactly the stock leaves 0 |
| `Inventory.NegativeAddDrivesStockNegative` | api/views.py:289-300 | As written, `add_stock` of −5.00 on a new material leaves its stock at −5.00 (see Findings) |
| `Inventory.ReplayStockCalls` | api/views.py:289-319 | Running a sequence of calls through `AddStock`/`RemoveStock` on an empty material leaves exactly `StockAfter` of the calls in stock |
| `Inventory.CorrectedValidationKeepsStockNonNegative` | api/views.py:302-319 | If every quantity is positive, no sequence of `add_stock`/`remove_stock` calls on a new material makes its stock negative |
| `Inventory.CorrectedEndpointsKeepStockNonNegative` | api/views.py:289-319 | With the endpoints gated by the corrected validation, no sequence of calls, whatever its payloads, makes the stock negative |
| `Inventory.CorrectedEndpointsAgreeOnPositiveQuantities` | api/views.py:289-319 | On calls whose quantities are positive the corrected endpoints leave the same stock as the endpoints as written |
| `Inventory.StockStatusOf` | api/serializers.py:208-213 | `out_of_stock` iff stock ≤ 0. `low_stock` iff 0 < stock ≤ min level. `in_stock` iff stock > 0 and stock > min level. The labels are exclusive and cover every input |
| `Inventory.StockFilterDisagreesWithLabel` | api/views.py:279-283 | The list filter disagrees with the label. At −1.00 a material is labelled out of stock but not listed as such. At 0 with a 5.00 minimum it is listed as low stock but labelled out of stock |
| `Inventory.CorrectedStockFilterMatchesLabel` | api/views.py:279-283 | The corrected filter lists a row under `out_of_stock`/`low_stock` exactly when the serializer gives it that label |
| `Inventory.MaterialQueryset` | api/views.py:261-287 | A row is listed iff it is in the table and matches the category, supplier, `is_active` (`lower() == 'true'`) and (corrected) stock-status filters. Under a stock filter, every listed row carries that label |
| `Orders.ParseStatus` | api/models.py:146-153 | An accepted status code is exactly the code of the status returned |
| `Orders.ParseStatusCode` | api/models.py:189 | Every one of the six order status codes is accepted back as its status (status updates use the same choices) |
| `Orders.Order.constructor` | api/models.py:167-182 | A new order is `pending`, payment `pending`, has a blank cancellation reason and no status updates |
| `Orders.CancelOutcome` | api/views.py:183-193 | 404 iff the requester cannot see the order. 400 iff they can but the status is not pending/confirmed. Success otherwise |
| `Orders.Cancel` | api/views.py:183-193 | On success the status becomes `cancelled` and the reason becomes the given one, or `''` if none is given, and the history gains exactly that cancellation. A rejected call changes nothing |
| `Orders.CancelFollowsLifecycle` | api/views.py:185-190 | Every accepted cancellation is a step of the lifecycle that `LifecycleStep` states (forward through the status choices, cancellation only from pending or confirmed) |
| `Orders.UpdateStatusOutcome` | api/views.py:168-180 | 404 iff the order is not visible. 400 iff it is visible but the code is not one of the six or the notes hold U+0000. 201 otherwise. The previous status plays no part |
| `Orders.UpdateStatus` | api/views.py:168-180 | On 201 it appends one update with the new status, the trimmed notes and the author, and the order's status becomes that same status. The history gains exactly that `update_status` event. Otherwise nothing changes |
| `Orders.UpdateStatusIgnoresLifecycle` | api/views.py:168-180 | `update_status` accepts moves that are no step of `LifecycleStep`, e.g. delivered or cancelled back to pending |
| `Orders.StatusComesFromHistory` | api/views.py:168-193 | Among cancel, `update_status` and the nested status-update actions, only an `update_status` call that wrote it puts an order (created pending) in confirmed, in progress, ready or delivered. Editing or deleting trail records never changes the status |
| `Orders.LogOfIsAppendOnly` | api/models.py:187-195 | Over any extension that rewrites or deletes no record (the corrected endpoint), the earlier trail is a prefix of the later one |
| `Orders.TrailChangesBreakAppendOnly` | api/views.py:195-223 | As written, rewriting a record (to a different value) or deleting one leaves a trail of which the earlier one is no prefix |
| `Orders.EditTrailOutcome` | api/views.py:200-214 | Updating a trail record: 404 iff the requester is neither admin nor owner or the record is not in that order's trail. 400 iff it is found but the payload is invalid (bad code, `status` missing on a full update, U+0000 in the notes). 200 otherwise |
| `Orders.EditStatusUpdate` | api/views.py:195-214 | On 200 record `index` gets the sent status and trimmed notes and keeps its author. The order's own status is untouched. The history gains exactly that edit. Otherwise nothing changes |
| `Orders.DeleteTrailOutcome` | api/views.py:200-214 | Deleting a trail record: 404 iff it is not found through the queryset, 204 otherwise |
| `Orders.DeleteStatusUpdate` | api/views.py:195-214 | On 204 record `index` leaves the trail and the rest keep their order, and the history gains exactly that delete. Otherwise nothing changes |
| `Orders.CreateStatusUpdateOutcome` | api/views.py:216-223 | Corrected answer. 400 iff the payload is invalid (bad code, or U+0000 in the notes), checked before the lookup. 404 iff it is valid but the order does not exist. 201 iff the requester is admin or owner. 403 iff they are neither (see Findings) |
| `Orders.CreateStatusUpdateOutcomeAsWritten` | api/views.py:216-223 | As written, the refusal branch ends in a server error (500) instead of 403. Every other answer is the same as the corrected one |
| `Orders.OutsiderGetsServerError` | api/views.py:219-223 | A non-admin adding to another user's order gets 500 as written and 403 when corrected |
| `Orders.CreateStatusUpdate` | api/views.py:216-223 | On 201 one record with the trimmed notes is appended to the order's trail, and the history gains exactly that create. A refused call changes neither. The order's status, payment status and reason never change |
| `Access.OrderQueryset` | api/views.py:158-162 | An admin sees every order. Anyone else sees exactly the orders whose `user` is them |
| `Access.CreatedOrderIsListed` | api/views.py:158-165 | A created order belongs to its creator. Orders are listed newest first (api/models.py:184-185), so it heads the creator's listing, before the orders they already saw. The listing of any other non-admin is unchanged |
| `Access.VisibleAppend` | api/views.py:158-162 | Filtering keeps the table's listing order: the listing of two stretches of rows is the listing of the first followed by that of the second, so a row that sorts first appears, if at all, first |
| `Access.MeasurementsQueryset` | api/views.py:147-148 | Everyone, admins included, sees exactly their own measurements |
| `Access.CreatedMeasurementsAreListedOnlyForOwner` | api/views.py:147-151 | Measurements created by a user are listed for that user and for no other user |
| `Access.UserQueryset` | api/views.py:48-57 | Anonymous, admin and `me` requests get the whole table. An authenticated non-admin sees only their own record, and only on a `retrieve` whose pk text is `str(id)`. Otherwise they see nothing |
| `Access.DecimalText` | api/views.py:52 | `str(id)` is a digit string with no leading zero whose value is the id |
| `Access.DecimalTextInjective` | api/views.py:52 | Distinct ids have distinct texts, so the retrieve comparison matches at most one id |
| `Access.StockMovementQueryset` | api/views.py:340-359 | A non-admin always gets nothing. An admin gets exactly the rows that match the material and movement-type filters |
| `Access.StatusUpdateQueryset` | api/views.py:200-214 | A missing order gives 404. A named order's trail is shown in full to an admin or its owner, and as empty to anyone else. With no order named, only an admin sees anything |
| `Accounts.Validate` | api/serializers.py:25-28 | Fails, with the mismatch message, exactly when password ≠ confirmation. Otherwise returns the data unchanged |
| `Accounts.Directory.Create` | api/serializers.py:30-50 | Appends a user with a fresh id and no confirmation field. A workshop profile is added exactly when the type is workshop. Every profile belongs to a registered workshop user |
| `Accounts.DefaultProfile` | api/serializers.py:36-47 | The registration profile is named after the username, with no specialties, a price range of 0/0, active, no logo and a 7-day delivery time |
| `Accounts.FullName` | api/serializers.py:65-66 | The display name is the first name, one space, then the last name |
| `Accounts.CreatedByName` | api/serializers.py:140-143 | None exactly when there is no creator, otherwise `"first last"` (the same as api/serializers.py:228-231) |
| `Accounts.FullNameRoundTrip` | api/serializers.py:228-231 | When the first name has no space, splitting the display name at its first space recovers both names |
| `Categories.GetChildren` | api/serializers.py:181-184 | `[]` for a leaf. Otherwise one nested serialization per child, in order, each with the child's id and this category as its parent name |
| `Categories.Serialize` | api/serializers.py:171-184 | Copies id, name and parent, records the parent's name, and nests the children as `GetChildren` does |
| `Categories.RestoreSerialize` | api/serializers.py:181-184 | The nested serialization loses nothing: the whole subtree can be read back from it |
| `Categories.SerializeKeepsParents` | api/serializers.py:171-184 | In a well-formed tree, every nested entry names its parent correctly by both id and name |
| `Text.Strip` | api/admin.py:41 | `strip()` leaves no whitespace (Python's `isspace` set) at either end, never lengthens, leaves a stripped string as it is, and gives `""` exactly for whitespace-only text |
| `Text.StripInfix` | api/admin.py:41 | The result of `strip()` is the text between a leading and a trailing run of whitespace, both removed entirely |
| `Specialties.SplitLines` | api/admin.py:41 | `split('\n')` yields at least one piece and no piece contains a newline |
| `Specialties.JoinSplit` | api/admin.py:41 | Joining the pieces with `'\n'` gives back the text |
| `Specialties.SplitJoin` | api/admin.py:35 | Splitting a join of a non-empty list of newline-free strings gives back the list |
| `Specialties.ParseSpecialties` | api/admin.py:37-43 | Empty text yields `[]`. Every parsed specialty is non-empty, stripped and newline-free |
| `Specialties.ParseLinesIsStripThenFilter` | api/admin.py:41 | Parsing strips every line, then keeps the non-empty ones in input order, so blank lines contribute nothing |
| `Specialties.ParseLinesAppend` | api/admin.py:41 | Parsing works line by line: the parse of two blocks is the first block's parse followed by the second's |
| `Specialties.SpecialtiesRoundTrip` | api/admin.py:30-43 | Parsing the joined display of non-empty, stripped, newline-free specialties gives the same list |
| `Workshops.AverageRating` | api/models.py:57-61 | 0 with no reviews. Otherwise the mean (mean × count = sum), which lies in 0..5 when every rating does |
| `Workshops.SumRatingsBounds` | api/models.py:109 | With ratings in the review validators' 0..5 range, their sum lies between 0 and 5 × count |
| `Workshops.InitialSpecialtiesText` | api/admin.py:30-35 | Set only for a saved workshop (truthy pk) with truthy specialties. A list is shown joined by `'\n'` and any other value as `''`. A list holding a non-string is the `join` error |
| `Workshops.UneditedFormKeepsSpecialties` | api/admin.py:30-51 | Opening a saved workshop in the form and submitting the shown text unchanged keeps its specialties |
| `Workshops.WorkshopAdminForm.constructor` | api/admin.py:30-35 | The form's initial text is `InitialSpecialtiesText` of its instance |
| `Workshops.WorkshopAdminForm.CleanSpecialtiesInput` | api/admin.py:37-43 | On text the field's validators accepted (no U+0000), the cleaned value is the parse of the submitted text, and `[]` for empty text |
| `Workshops.WorkshopAdminForm.CleanSpecialtiesField` | api/admin.py:16-43 | The field is valid iff the text holds no U+0000. A valid field's cleaned value is the parse of the text. A refused field has no cleaned value, and `clean_specialties_input` does not run |
| `Workshops.WorkshopAdminForm.Save` | api/admin.py:45-51 | Only the instance's `specialties` changes. It becomes the cleaned list, or `[]` |
| `Workshops.SaveModel` | api/admin.py:98-101 | A workshop with no user id, or the falsy id 0, gets the requesting user. An existing owner is left untouched |

## Findings

| source | as written | input that shows it | evidently intended | confidence | as-written member | corrected member |
|---|---|---|---|---|---|---|
| api/views.py:279-283 | `stock_status=out_of_stock` keeps `current_stock == 0`, and `low_stock` keeps `current_stock <= min_stock_level`. Both disagree with `get_stock_status` | A material at −1.00 is labelled `out_of_stock` but is not listed under it. A material at 0.00 with minimum 5.00 is listed under `low_stock` but labelled `out_of_stock` | The filter lists exactly the materials the serializer gives that label | high that the two disagree; medium that the serializer's rule is the intended one; not executed | `Inventory.StockFilterDisagreesWithLabel` (on `Inventory.StockFilterAdmits`) | `Inventory.CorrectedStockFilterMatchesLabel` (on `Inventory.StockFilterAdmitsCorrected`, used by `Inventory.MaterialQueryset`) |
| api/models.py:284-291 | `StockMovement.save` applies the movement's effect every time it runs, and the full movement endpoint (api/views.py:335-363) also offers update and delete | An admin edits only the notes of a stored 5.00 `in` movement: the stock rises by another 5.00. Deleting a movement leaves the stock unchanged | The stock always equals the signed sum of the stored movements | high; not executed | `Inventory.ResaveDriftsLedger`, `Inventory.DeleteDriftsLedger` (on `Inventory.Material.ResaveMovement`, `Inventory.Material.DeleteMovement`) | `Inventory.Material.ResaveMovementCorrected`, `Inventory.Material.DeleteMovementCorrected` |
| api/views.py:223 | A refused create raises `permissions.PermissionDenied`, but the permissions module of the REST framework defines no such name (the exception lives in its `exceptions` module) | A client posts a valid status update on another client's order: the attribute lookup fails and the request ends in a server error | The refusal answers 403 | medium (depends on the framework version); not executed | `Orders.OutsiderGetsServerError` (on `Orders.CreateStatusUpdateOutcomeAsWritten`) | `Orders.CreateStatusUpdateOutcome`, used by `Orders.CreateStatusUpdate` |
| api/views.py:195-223 | The nested status-update endpoint is a full model viewset whose queryset admits the order's owner and admins, so either can update or delete a record of the trail | A client PATCHes the only record of their own order from `confirmed` to `delivered`, or deletes it: the trail before is no longer a prefix of the trail after | The trail of status updates is never rewritten or deleted: the endpoint offers list, retrieve and create only | medium (it may be meant for admins); not executed | `Orders.TrailChangesBreakAppendOnly` (on `Orders.EditStatusUpdate`, `Orders.DeleteStatusUpdate`) | `Orders.LogOfIsAppendOnly` (on `Orders.TrailUntouched`) |
| api/views.py:289-319 | The stock endpoints validate `quantity` only as a 10-digit, 2-place decimal, with no lower bound | `add_stock` with quantity −5.00 on a new material leaves `current_stock` at −5.00. `remove_stock` with −5.00 raises the stock while recording an `out` movement | A movement quantity is positive, so the endpoints never drive stock below zero | medium; not executed | `Inventory.NegativeAddDrivesStockNegative` (on `Inventory.StockAfter` with `Inventory.RequestValid`) | `Inventory.CorrectedEndpointsKeepStockNonNegative` (on `Inventory.StockAfterCorrected`, gated by `Inventory.RequestValidCorrected`) |

The material list (`MaterialQueryset`) uses the corrected stock filter and the
status-update create uses the corrected 403. The stock endpoints (`AddStock`,
`RemoveStock`) keep the validation as written, because their contracts describe
what the ledger records; `StockAfterCorrected` gives the corrected endpoints.
The trail edit and delete methods are kept as written, and the append-only
property is proved for the histories the corrected endpoint allows.
`SaveMovement` models the first save of a new movement, which the endpoints
perform; the re-save and delete paths are modelled both as written and corrected.

## Left out

- The AI text and image generation views, settings, URL routing, WSGI and
  process configuration, the database and environment scripts, and the live HTTP
  test script. None of them hold domain logic.
- ORM persistence: `save()`, the `material.save()` inside `StockMovement.save`,
  and transactions. Each model method changes objects in memory. The lost-update
  race between two concurrent `remove_stock` calls is not modelled: requests run
  one at a time.
- The database's own limit on `current_stock` (ten digits): a save that
  overflows the column is not modelled.
- Inventory.AddStock and Inventory.RemoveStock: the material is given, so the
  404 of `get_object()` and any list filters it applies are not modelled. The
  `material` id the payload must also carry is not checked.
- Inventory.AddStockOutcome and Inventory.RemoveStockOutcome: the payload's
  relation fields are not part of `StockRequest`. The serializer also accepts a
  `material` and a `created_by` id and refuses, with 400, one that names no row,
  before the view overrides both. The model answers as if every relation id
  named an existing row, so its "201 iff the payload validates" is weaker than
  the program's on such payloads.
- Inventory.Material.ResaveMovement: a movement stays on the material it was
  saved against. The movement endpoint's update can also change its `material`,
  after which `save` applies the whole effect to the new material and leaves the
  old one as it was. This cross-material drift is not modelled; the Findings row
  for the ledger covers the same-material case.
- Inventory.MaterialQueryset: the free-text `search` filter (`icontains`, which
  involves case folding) is not modelled.
- Authentication and permissions (`IsAuthenticated`, JWT, sessions, CSRF):
  views take the requester as a parameter. The refusal of the status-update
  create is modelled both as written (a server error) and corrected (403), as
  under Findings.
- Orders: the order endpoint's create and update can both write `status`,
  `payment_status` and `cancellation_reason`, since its serializer makes only
  `user`, the timestamps and `status_updates` read-only. A POST with
  `status: "delivered"` creates a delivered order with no trail. The admin site
  can edit orders too. None of this is modelled: `Order.constructor` and
  `StatusComesFromHistory` describe an order created with the field defaults
  and changed only by `cancel`, `update_status` and the nested status-update
  endpoint. A non-string `reason` in the cancel payload is not
  modelled. Payment, delivery dates and tracking fields are carried or omitted,
  never checked.
- Accounts.Directory.Create: password hashing by `create_user` and
  username/email uniqueness are not modelled. The user type is taken after its
  default (`client`) has been applied.
- Categories: a category tree is a finite datatype, so a cycle through the
  `parent` foreign key (which would recurse without end) cannot be expressed.
  Timestamps are omitted.
- Order.statusUpdates and Material.movements hold the trail and the ledger
  oldest first, the order in which the operations append to them. The program
  returns both newest first (`ordering = ['-created_at']`), the reverse; the
  model does not state that reversal.
- Categories.GetChildren: children are serialized in the order the tree holds
  them. The program lists them ordered by name in the database's collation,
  which is not modelled.
- Workshops.AverageRating: ratings are real numbers, not IEEE floats, so
  rounding is not modelled.
- Workshops.WorkshopAdminForm.constructor: it requires the instance's
  specialties to be displayable. A list holding a non-string makes
  `'\n'.join` raise, and that error is modelled only in
  `InitialSpecialtiesText`. The form field's own stripping of the whole text
  before `clean_specialties_input` is not modelled; it removes only outer
  whitespace, which the per-line strip removes anyway.
- Other views (workshop, clothing-model, image, review, supplier and category
  listings) are plain filters over framework querysets and are not modelled.
