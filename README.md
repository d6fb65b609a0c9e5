# Warehouse-transfer stock checks and product field tracking, in Dafny

This project models the business rules of an inventory customisation for an ERP
platform and proves properties of them:

- the **availability calculator** of `stock.move`: on-hand quantity of a product at a
  location, minus the quantity of the pending outgoing moves there, leaving out one
  excluded move;
- the **move quantity guard**, a constraint on each move's requested quantity;
- the **picking validation guard**, which runs before the platform's own validation of
  outgoing pickings, and the **permission constraint** on pickings reaching `done`;
- the **transfer preview dialog**, which snapshots requested against available
  quantities for each move, flags each line as valid or not, and re-checks the lines
  before validating the picking;
- the **field-tracking augmenter** of `product.template`, which turns change tracking on
  for every qualifying field.

The database is plain data: a sequence of quants `(product, location, quantity)` and a
sequence of moves `(id, product, source location, state, picking-type code, quantity)`.
A picking holds its moves in `move_ids` order. Quantities are exact `real`s. The hooks
only add, subtract and compare them.

Files:

- `stock_types.dfy`: the records, states, picking-type codes and the errors the hooks raise.
- `stock_move.dfy`: the calculator, its algebra, and the move constraint. The constraint
  comes both as written and as corrected (see Findings).
- `stock_picking.dfy`: pre-validation of pickings, the permission constraint, and the
  validate button. The button is a method of an `Environment` class. That class holds the
  database and a log of the recordsets on which the platform's native validation was invoked.
- `transfer_wizard.dfy`: line construction (`default_get`), the `is_valid` flag on line
  records, line re-validation, and the dialog's confirm button.
- `product_template.dfy`: the exclusion list and the tracking loop over the field registry.
  Fields are objects, and the loop assigns their `tracking` in place.

Errors are tagged values of `StockError`, carrying the move or line the message reports
on. A check that raises returns `Fail(error)`. A button that raises returns `Failure(error)`.

## Model

| member | source | states |
|---|---|---|
| `StockMove.QuantsAt` | models/stock_move.py:33-36 | a quant is among those returned iff it is stored and at the given product and location; no more are returned than are stored |
| `StockMove.QuantsAtMultiplicity` | models/stock_move.py:33-36 | the search returns each stored quant at the product and location as many times as it is stored, and no other quant |
| `StockMove.PendingOutgoingMoves` | models/stock_move.py:41-47 | a move is among those returned iff it is stored and matches: same product and source location; state waiting, confirmed or assigned; outgoing picking type; id other than the excluded one |
| `StockMove.PendingOutgoingMovesMultiplicity` | models/stock_move.py:41-47 | the search returns each stored matching move as many times as it is stored, and no other move |
| `StockMove.InsertQuant` | models/stock_move.py:33-38 | inserting a quant anywhere raises availability by its quantity if it is at the queried product and location, and leaves it unchanged otherwise |
| `StockMove.InsertMove` | models/stock_move.py:41-51 | inserting a move anywhere lowers availability by its quantity if it is a matching pending outgoing move, and leaves it unchanged otherwise |
| `StockMove.MovesThatNeverReserve` | models/stock_move.py:41-46 | these moves never change availability: draft, partially available, done or cancelled ones; those without an outgoing type; those at another product or location; the excluded move |
| `StockMove.ExcludedMoveIgnored` | models/stock_move.py:46 | replacing the excluded move's record by any record with the same id, or removing it, leaves availability unchanged |
| `StockMove.PendingMoveCountsAsReserved` | models/stock_move.py:41-51 | a stored matching pending outgoing move lowers availability by exactly its quantity, compared with the same database without it |
| `StockMove.AvailabilityIsNotClamped` | models/stock_move.py:51 | 10 on hand against a pending reservation of 15 gives -5: there is no floor at zero |
| `StockMove.CheckMove` | models/stock_move.py:10-28 | a move passes iff it is not outgoing, or its quantity plus the other pending outgoing reservations fits within the on-hand quantity; a failure reports the move and the availability computed with the move excluded |
| `StockMove.CheckMoveIgnoresOwnState` | models/stock_move.py:10-18 | rewriting the stored move's state does not change whether it passes; an outgoing move of quantity zero is not skipped and fails iff availability is negative |
| `StockMove.CheckMoveExample` | models/stock_move.py:11-18 | 100 on hand and another pending move of 30 give 70 available: the move passes with 70 and fails with 71 |
| `StockMove.CheckAvailableQuantityAsWritten` | models/stock_move.py:7-18 | the constraint as written: on one record it is the per-move check; non-outgoing records always pass; several records with an outgoing one among them raise the singleton error |
| `StockMove.CheckAvailableQuantity` | models/stock_move.py:7-28 | the corrected constraint passes iff every record passes its own per-move check; otherwise it raises the first failing record's error, in recordset order |
| `StockMove.SingletonChecksAgree` | models/stock_move.py:13 | on a single record, the constraint as written and as corrected give the same outcome |
| `StockMove.BatchOfOutgoingMovesRejected` | models/stock_move.py:13 | two outgoing moves of 5 each with 100 on hand: the constraint as written raises the singleton error; the corrected one passes |
| `StockPicking.ValidatePickingMoves` | models/stock_picking.py:16-36 | one picking's moves pass iff each move has quantity <= 0 or quantity <= its availability with itself excluded; otherwise the error names the first failing move and its availability |
| `StockPicking.ValidateTransferQuantities` | models/stock_picking.py:12-36 | pickings pass iff each is non-outgoing or all its moves pass; otherwise the first failing picking, which is outgoing, gives the error through its first failing move |
| `StockPicking.NonPositiveMovesSkipped` | models/stock_picking.py:17 | inserting a move of quantity <= 0 anywhere in a picking's moves never changes the outcome of pre-validation |
| `StockPicking.SiblingCountsAsReserved` | models/stock_picking.py:16-23 | wherever a pending outgoing sibling at the same product and location is stored among the moves, it lowers a move's availability by the sibling's quantity, compared with the same moves without it |
| `StockPicking.PickingGuardAndMoveGuard` | models/stock_picking.py:14-23 | on an outgoing picking with outgoing, positive moves, picking pre-validation passes iff the corrected move constraint (`CheckAvailableQuantity`) passes on its moves; a zero-quantity move facing negative availability passes the first and fails the second |
| `StockPicking.PickingGuardAndMoveGuardAsWritten` | models/stock_picking.py:14-23 | the move constraint as written agrees with picking pre-validation on a picking of one outgoing, positive move; on two outgoing moves of 5 with 100 on hand, pre-validation passes and the constraint as written raises the singleton error |
| `StockPicking.CheckTransferPermissions` | models/stock_picking.py:39-48 | the constraint fails iff the user lacks the group and some picking is done and outgoing; it then raises the permission error |
| `StockPicking.PermissionForOnePicking` | models/stock_picking.py:41-48 | for one picking, the constraint fails iff state is done, type is outgoing and the group is missing |
| `StockPicking.Environment.ButtonValidate` | models/stock_picking.py:7-10 | native validation is invoked, and its result returned unchanged, iff pre-validation passes; on failure the pre-validation error is returned and nothing is invoked; quants and moves are not modified |
| `TransferWizard.SnapshotLines` | wizard/inventory_transfer_wizard.py:19-29 | one line per move, in order; each line has the move's product, its quantity as requested quantity, the availability with the move excluded, and its source location |
| `TransferWizard.BuildLines` | wizard/inventory_transfer_wizard.py:18-30 | the appending loop yields exactly the snapshot lines, one per move of the picking, for every picking type and every quantity |
| `TransferWizard.SnapshotLinesUnique` | wizard/inventory_transfer_wizard.py:18-30 | a sequence with one snapshot line per move, position by position, is the snapshot line sequence |
| `TransferWizard.DefaultGet` | wizard/inventory_transfer_wizard.py:12-31 | without an active picking the platform's defaults are returned unchanged; with one, the defaults name that picking and hold one snapshot line per move |
| `TransferWizard.ComputeIsValid` | wizard/inventory_transfer_wizard.py:60-63 | every line record's flag becomes requested <= available; nothing else is assigned |
| `TransferWizard.ValidateAllQuantities` | wizard/inventory_transfer_wizard.py:39-46 | passes iff every line has requested <= available, so it passes on no lines; otherwise raises for the first line with requested > available |
| `TransferWizard.ValidateAllQuantitiesExample` | wizard/inventory_transfer_wizard.py:41-46 | lines (5 of 10) and (8 of 3) are valid and invalid, and re-validation fails on the second |
| `TransferWizard.SnapshotValidityMatchesTransferCheck` | wizard/inventory_transfer_wizard.py:19-29 | for a freshly built line, validity implies the picking's own check of that move, and matches it exactly when the move's quantity is positive |
| `TransferWizard.TransferDialog.LineValuesOf` | wizard/inventory_transfer_wizard.py:41 | the dialog's line values, one per line record, in order |
| `TransferWizard.TransferDialog.ActionConfirmTransfer` | wizard/inventory_transfer_wizard.py:33-37 | a failing line check returns its error and invokes nothing; then the picking's validate button runs; on its success the close action is returned, and the native result is discarded |
| `ProductTemplate.TrackingAfterSetup` | models/product_template.py:77-83 | a qualifying field ends up tracked; any other field, including every excluded name, keeps its previous tracking |
| `ProductTemplate.TrackingAfterSetupIdempotent` | models/product_template.py:77-83 | applying the tracking rule twice gives the same as once |
| `ProductTemplate.ProductTemplateModel.SetupFields` | models/product_template.py:77-83 | in any visiting order: each qualifying field is set to tracked, overwriting a sequence number; others keep their tracking; the registry and the other attributes do not change |
| `ProductTemplate.ProductTemplateModel.SetupFieldsTwice` | models/product_template.py:77-83 | running the loop twice leaves every field as one run does |

## Left out

- Error message texts and their formatting, unit-of-measure names and display names.
  Errors are tags carrying the offending move or line. The permission error carries nothing, as its message does.
- The platform's own `button_validate` (the state transition, backorders, and the
  permission constraint it triggers when it writes `done`). It is an opaque action. The
  model records only whether it was invoked and on which pickings, and passes its result
  through.
- Group membership: the result of the platform's security query is a boolean parameter.
- Browsing `active_id`: the caller passes the picking the context names. A missing
  `active_id` is `None`. Other falsy ids and ids of deleted records are not modelled.
- The platform's own `default_get` and the other defaults it returns. `Defaults` holds
  only the two keys this hook writes.
- The platform's `_setup_fields`: the registry is given as it stands after it. The
  ORM's record creation becomes a constructor.
- Consistency between a picking's moves and the stored moves is not imposed. The
  picking's checks read the stored moves for availability, as the searches do.
- Concurrency: the read-then-decide checks take no locks. One call of the model sees one
  fixed database, and nothing is claimed about concurrent transfers.
- Floating-point rounding and unit conversion: the code performs none, so quantities are exact reals.
- `TrackingAfterSetup`, `ProductTemplateModel.SetupFields`: `compute`, `related` and
  `store` are booleans. Python truthiness of other values of those attributes is not modelled.
- The destination-location domain on pickings is not in the modelled source files; its
  view-level filter is not part of this model.

## Notes on the model

- Move states include the platform's `partially_available`. It is not in the searched
  states, so such moves never count as reserved.
- A picking type code other than incoming, outgoing or internal behaves like internal
  here: only `Outgoing` is ever tested. `NoPickingType` stands for a move or picking
  without a type.
- Order independence of the tracking loop comes from the construction: the modelled loop
  visits the registry in an arbitrary order, chosen freely at each step. Its postcondition
  fixes one result for every order.

## Findings

| source | as written | input that shows it | evidently intended | confidence | as-written member | corrected member |
|---|---|---|---|---|---|---|
| models/stock_move.py:13 | the move constraint calls the calculator on the whole constrained recordset, so its excluded id is the recordset's `id`, which the platform defines only for one record | two outgoing moves whose quantity is written in one batch (for example, created together): the constraint raises "Expected singleton" before comparing any quantity, whatever the stock | call the calculator on `move`, excluding each move's own id, as the picking guard and the dialog do | medium, not executed | `StockMove.CheckAvailableQuantityAsWritten`, `StockMove.BatchOfOutgoingMovesRejected` | `StockMove.CheckAvailableQuantity` |
