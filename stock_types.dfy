/** Plain-data stand-ins for the inventory records that the customisation's hooks read,
    and the outcome types its checks produce. Records are identified by natural numbers
    (database ids); quantities are exact reals, since the hooks only add, subtract and
    compare them and perform no unit-of-measure rounding. */
module StockTypes {

  datatype Option<+T> = None | Some(value: T)

  /** The outcome of a check that either returns normally or raises. */
  datatype Outcome<+E> = Pass | Fail(error: E)

  /** The outcome of an action that returns a value or raises. */
  datatype Result<+T, +E> = Success(value: T) | Failure(error: E)

  /** Lifecycle state of a stock move or a picking. `PartiallyAvailable` exists only for
      moves; pickings take the other six values. */
  datatype State = Draft | Waiting | Confirmed | PartiallyAvailable | Assigned | Done | Cancel

  /** The `code` of a record's picking type. A move or picking that has no picking type has
      no code, which compares unequal to every code (`NoPickingType`). */
  datatype PickingTypeCode = Incoming | Outgoing | Internal | NoPickingType

  /** An on-hand quantity of `product` at `location` (one `stock.quant` record). */
  datatype Quant = Quant(product: nat, location: nat, quantity: real)

  /** One `stock.move`: `location` is its source location, `typeCode` the code of its
      picking type, `qty` its requested quantity (`product_uom_qty`). */
  datatype Move = Move(id: nat, product: nat, location: nat, state: State,
                       typeCode: PickingTypeCode, qty: real)

  /** One `stock.picking` with its moves in `move_ids` order. */
  datatype Picking = Picking(id: nat, typeCode: PickingTypeCode, state: State, moves: seq<Move>)

  /** The values of one line of the transfer preview dialog. */
  datatype LineValues = LineValues(product: nat, requestedQty: real, availableQty: real,
                                   location: nat)

  /** What the hooks raise. The user-facing message texts are not modelled; each tag
      carries the record the message reports on. */
  datatype StockError =
    | MoveQuantityExceeded(move: Move, available: real)       // move constraint
    | TransferQuantityExceeded(move: Move, available: real)   // picking pre-validation
    | PermissionDenied                                        // state constraint on pickings
    | InsufficientQuantity(line: LineValues)                  // preview dialog pre-check
    | ExpectedSingleton                                       // `id` read on a multi-record set

  /** What a button returns to the client: the dialog's close action, or whatever the
      platform's native validation returned (an opaque token). */
  datatype ClientAction = CloseWindow | NativeAction(token: nat)
}
