/** The picking validation guard and the permission constraint of `stock.picking`
    (models/stock_picking.py). */
module StockPicking {
  import opened StockTypes
  import opened StockMove

  // ---------------------------------------------------------------------------------
  // Pre-validation of the moves of outgoing pickings
  // ---------------------------------------------------------------------------------

  /** A move passes pre-validation when its quantity is not positive (it is then skipped)
      or does not exceed the availability computed with the move itself excluded. */
  predicate TransferCheckPasses(quants: seq<Quant>, moves: seq<Move>, move: Move) {
    move.qty <= 0.0 || move.qty <= AvailableFor(quants, moves, move)
  }

  /** `k` is the first move of `ms` that fails pre-validation. */
  predicate IsFirstFailingMove(quants: seq<Quant>, moves: seq<Move>, ms: seq<Move>, k: nat) {
    && k < |ms|
    && !TransferCheckPasses(quants, moves, ms[k])
    && forall j :: 0 <= j < k ==> TransferCheckPasses(quants, moves, ms[j])
  }

  /** The inner loop of `_validate_transfer_quantities` over one picking's moves: it passes
      exactly when every move passes, and otherwise raises for the first failing move,
      reporting the availability computed for it. */
  function ValidatePickingMoves(quants: seq<Quant>, moves: seq<Move>, ms: seq<Move>)
    : (r: Outcome<StockError>)
    ensures r.Pass? <==> forall k :: 0 <= k < |ms| ==> TransferCheckPasses(quants, moves, ms[k])
    ensures r.Fail? ==> exists k: nat :: && IsFirstFailingMove(quants, moves, ms, k)
                                    && r.error == TransferQuantityExceeded(ms[k], AvailableFor(quants, moves, ms[k]))
  {
    if ms == [] then Pass
    else if !TransferCheckPasses(quants, moves, ms[0]) then
      assert IsFirstFailingMove(quants, moves, ms, 0);
      Fail(TransferQuantityExceeded(ms[0], AvailableFor(quants, moves, ms[0])))
    else
      var r := ValidatePickingMoves(quants, moves, ms[1..]);
      assert r.Fail? ==> exists k: nat :: && IsFirstFailingMove(quants, moves, ms, k)
                                     && r.error == TransferQuantityExceeded(ms[k], AvailableFor(quants, moves, ms[k])) by {
        if r.Fail? {
          var k: nat :| && IsFirstFailingMove(quants, moves, ms[1..], k)
                   && r.error == TransferQuantityExceeded(ms[1..][k], AvailableFor(quants, moves, ms[1..][k]));
          assert forall j :: 0 < j < k + 1 ==> ms[j] == ms[1..][j - 1];
          assert IsFirstFailingMove(quants, moves, ms, k + 1);
        }
      }
      r
  }

  /** A picking passes pre-validation when it is not outgoing or all its moves pass. */
  predicate PickingPasses(quants: seq<Quant>, moves: seq<Move>, p: Picking) {
    p.typeCode != Outgoing || forall k :: 0 <= k < |p.moves| ==> TransferCheckPasses(quants, moves, p.moves[k])
  }

  /** `i` is the first picking of `pickings` that fails pre-validation. */
  predicate IsFirstFailingPicking(quants: seq<Quant>, moves: seq<Move>, pickings: seq<Picking>, i: nat) {
    && i < |pickings|
    && !PickingPasses(quants, moves, pickings[i])
    && forall j :: 0 <= j < i ==> PickingPasses(quants, moves, pickings[j])
  }

  /** `_validate_transfer_quantities` over a recordset of pickings, in order. It passes
      exactly when every picking passes; otherwise the first failing picking, which is
      outgoing, determines the error through its first failing move. */
  function ValidateTransferQuantities(quants: seq<Quant>, moves: seq<Move>, pickings: seq<Picking>)
    : (r: Outcome<StockError>)
    ensures r.Pass? <==> forall i :: 0 <= i < |pickings| ==> PickingPasses(quants, moves, pickings[i])
    ensures r.Fail? ==> exists i: nat :: && IsFirstFailingPicking(quants, moves, pickings, i)
                                         && pickings[i].typeCode == Outgoing
                                         && r == ValidatePickingMoves(quants, moves, pickings[i].moves)
  {
    if pickings == [] then Pass
    else if pickings[0].typeCode == Outgoing && ValidatePickingMoves(quants, moves, pickings[0].moves).Fail? then
      assert IsFirstFailingPicking(quants, moves, pickings, 0);
      ValidatePickingMoves(quants, moves, pickings[0].moves)
    else
      var r := ValidateTransferQuantities(quants, moves, pickings[1..]);
      FirstFailingPickingShift(quants, moves, pickings, r);
      r
  }

  /** The failure reported for the pickings after a passing first picking is the failure of
      the whole recordset. */
  lemma FirstFailingPickingShift(quants: seq<Quant>, moves: seq<Move>, pickings: seq<Picking>,
                                 r: Outcome<StockError>)
    requires |pickings| > 0 && PickingPasses(quants, moves, pickings[0])
    requires r.Pass? <==> forall i :: 0 <= i < |pickings[1..]| ==> PickingPasses(quants, moves, pickings[1..][i])
    requires r.Fail? ==> exists i: nat :: && IsFirstFailingPicking(quants, moves, pickings[1..], i)
                                          && pickings[1..][i].typeCode == Outgoing
                                          && r == ValidatePickingMoves(quants, moves, pickings[1..][i].moves)
    ensures r.Pass? <==> forall i :: 0 <= i < |pickings| ==> PickingPasses(quants, moves, pickings[i])
    ensures r.Fail? ==> exists i: nat :: && IsFirstFailingPicking(quants, moves, pickings, i)
                                         && pickings[i].typeCode == Outgoing
                                         && r == ValidatePickingMoves(quants, moves, pickings[i].moves)
  {
  }

  /** Moves with a quantity of zero or less are never checked: inserting one anywhere in a
      picking's moves leaves the outcome of pre-validation unchanged. */
  lemma {:induction false} NonPositiveMovesSkipped(quants: seq<Quant>, moves: seq<Move>, ms: seq<Move>,
                                                   i: nat, m: Move)
    requires i <= |ms|
    requires m.qty <= 0.0
    ensures ValidatePickingMoves(quants, moves, ms[..i] + [m] + ms[i..])
         == ValidatePickingMoves(quants, moves, ms)
  {
    var extended := ms[..i] + [m] + ms[i..];
    if i == 0 {
      assert extended[1..] == ms;
    } else {
      assert extended[0] == ms[0];
      assert extended[1..] == ms[1..][..i - 1] + [m] + ms[1..][i - 1..];
      NonPositiveMovesSkipped(quants, moves, ms[1..], i - 1, m);
    }
  }

  /** A sibling in the same outgoing picking that is pending, outgoing and at the same
      product and location counts as reserved against a move: wherever the sibling is
      stored among all moves, the move sees exactly the sibling's quantity less than it
      would with the sibling absent. */
  lemma SiblingCountsAsReserved(quants: seq<Quant>, moves: seq<Move>, p: Picking, j: nat, k: nat, i: nat)
    requires j < |p.moves| && k < |p.moves|
    requires i < |moves| && moves[i] == p.moves[k]
    requires IsPendingOutgoing(p.moves[k], p.moves[j].product, p.moves[j].location, p.moves[j].id)
    ensures AvailableFor(quants, moves, p.moves[j])
         == AvailableFor(quants, moves[..i] + moves[i + 1..], p.moves[j]) - p.moves[k].qty
  {
    PendingMoveCountsAsReserved(quants, moves, i, p.moves[j].product, p.moves[j].location, p.moves[j].id);
  }

  /** Picking pre-validation and the corrected move constraint (`CheckAvailableQuantity`)
      agree on an outgoing picking whose moves are outgoing and have positive quantities;
      they differ on a zero-quantity outgoing move facing negative availability, which the
      constraint rejects and pre-validation skips. */
  lemma PickingGuardAndMoveGuard(quants: seq<Quant>, moves: seq<Move>, p: Picking)
    requires p.typeCode == Outgoing
    requires forall k :: 0 <= k < |p.moves| ==> p.moves[k].typeCode == Outgoing && p.moves[k].qty > 0.0
    ensures ValidateTransferQuantities(quants, moves, [p]).Pass?
        <==> CheckAvailableQuantity(quants, moves, p.moves).Pass?
    ensures var zero := Move(1, 1, 7, Assigned, Outgoing, 0.0);
            var other := Move(2, 1, 7, Assigned, Outgoing, 5.0);
            && ValidatePickingMoves([], [zero, other], [zero]) == Pass
            && CheckMove([], [zero, other], zero) == Fail(MoveQuantityExceeded(zero, -5.0))
  {
  }

  /** The move constraint as written agrees with picking pre-validation only on a picking of
      one move: on two outgoing moves of 5 with 100 on hand, pre-validation passes while the
      constraint raises the singleton error. */
  lemma PickingGuardAndMoveGuardAsWritten(quants: seq<Quant>, moves: seq<Move>, p: Picking)
    requires p.typeCode == Outgoing
    requires forall k :: 0 <= k < |p.moves| ==> p.moves[k].typeCode == Outgoing && p.moves[k].qty > 0.0
    ensures |p.moves| == 1 ==> (ValidateTransferQuantities(quants, moves, [p]).Pass?
                                <==> CheckAvailableQuantityAsWritten(quants, moves, p.moves).Pass?)
    ensures var a := Move(1, 1, 7, Confirmed, Outgoing, 5.0);
            var b := Move(2, 1, 7, Confirmed, Outgoing, 5.0);
            var twoMoves := Picking(9, Outgoing, Assigned, [a, b]);
            && ValidateTransferQuantities([Quant(1, 7, 100.0)], [a, b], [twoMoves]) == Pass
            && CheckAvailableQuantityAsWritten([Quant(1, 7, 100.0)], [a, b], [a, b]) == Fail(ExpectedSingleton)
  {
    if |p.moves| == 1 {
      PickingGuardAndMoveGuard(quants, moves, p);
      assert p.moves == [p.moves[0]];
      SingletonChecksAgree(quants, moves, p.moves[0]);
    }
    var a := Move(1, 1, 7, Confirmed, Outgoing, 5.0);
    var b := Move(2, 1, 7, Confirmed, Outgoing, 5.0);
    var twoMoves := Picking(9, Outgoing, Assigned, [a, b]);
    PickingGuardAndMoveGuard([Quant(1, 7, 100.0)], [a, b], twoMoves);
    BatchOfOutgoingMovesRejected();
  }

  // ---------------------------------------------------------------------------------
  // The permission constraint on the state of pickings
  // ---------------------------------------------------------------------------------

  /** Reaching this picking's state needs the transfer-manager group. */
  predicate NeedsTransferPermission(p: Picking) {
    p.state == Done && p.typeCode == Outgoing
  }

  /** `_check_transfer_permissions` over a recordset of pickings; `hasGroup` is the answer
      of the platform's group-membership query for the acting user. */
  function CheckTransferPermissions(pickings: seq<Picking>, hasGroup: bool): (r: Outcome<StockError>)
    ensures r.Fail? <==> !hasGroup && exists i :: 0 <= i < |pickings| && NeedsTransferPermission(pickings[i])
    ensures r.Fail? ==> r.error == PermissionDenied
  {
    if pickings == [] then Pass
    else if NeedsTransferPermission(pickings[0]) && !hasGroup then Fail(PermissionDenied)
    else
      var r := CheckTransferPermissions(pickings[1..], hasGroup);
      assert (exists i :: 0 <= i < |pickings[1..]| && NeedsTransferPermission(pickings[1..][i]))
         <==> (exists i :: 1 <= i < |pickings| && NeedsTransferPermission(pickings[i])) by {
        forall i | 1 <= i < |pickings| ensures pickings[i] == pickings[1..][i - 1] { }
      }
      r
  }

  /** For one picking, every state and type passes except a done outgoing picking without
      the group; with the group, every picking passes. */
  lemma PermissionForOnePicking(p: Picking, hasGroup: bool)
    ensures CheckTransferPermissions([p], hasGroup).Fail?
        <==> p.state == Done && p.typeCode == Outgoing && !hasGroup
  {
  }

  // ---------------------------------------------------------------------------------
  // The validate button
  // ---------------------------------------------------------------------------------

  /** The data the hooks read, and the record of what the platform's native validation was
      asked to do. The native action itself is opaque: `nativeValidations` lists the
      recordsets it was invoked on, oldest first. */
  class Environment {
    var quants: seq<Quant>
    var moves: seq<Move>
    var nativeValidations: seq<seq<Picking>>

    constructor (quants: seq<Quant>, moves: seq<Move>)
      ensures this.quants == quants && this.moves == moves && nativeValidations == []
    {
      this.quants := quants;
      this.moves := moves;
      nativeValidations := [];
    }

    /** `button_validate`: pre-validation first, which only reads; the native action is
        invoked only when it passes, and its result `nativeResult` is returned unchanged. */
    method ButtonValidate(pickings: seq<Picking>, nativeResult: ClientAction)
      returns (r: Result<ClientAction, StockError>)
      modifies this`nativeValidations
      ensures var check := ValidateTransferQuantities(quants, moves, pickings);
              && (check.Pass? ==> r == Success(nativeResult)
                                  && nativeValidations == old(nativeValidations) + [pickings])
              && (check.Fail? ==> r == Failure(check.error)
                                  && nativeValidations == old(nativeValidations))
    {
      var check := ValidateTransferQuantities(quants, moves, pickings);
      if check.Fail? {
        return Failure(check.error);
      }
      nativeValidations := nativeValidations + [pickings];
      r := Success(nativeResult);
    }
  }
}
