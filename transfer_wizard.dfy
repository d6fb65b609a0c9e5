/** The transfer preview dialog (wizard/inventory_transfer_wizard.py): one snapshot line per
    move of the active picking, a derived validity flag on each line, and a confirmation
    that re-checks every line before handing over to the picking's validate button. */
module TransferWizard {
  import opened StockTypes
  import opened StockMove
  import opened StockPicking

  // ---------------------------------------------------------------------------------
  // Building the lines
  // ---------------------------------------------------------------------------------

  /** `line` is the snapshot of `move`: its product, its quantity as requested quantity, the
      availability computed with the move itself excluded, and its source location. */
  predicate IsSnapshotOf(quants: seq<Quant>, moves: seq<Move>, line: LineValues, move: Move) {
    && line.product == move.product
    && line.requestedQty == move.qty
    && line.availableQty == AvailableFor(quants, moves, move)
    && line.location == move.location
  }

  /** The line values for each move of `ms`, in order. */
  function SnapshotLines(quants: seq<Quant>, moves: seq<Move>, ms: seq<Move>): (lines: seq<LineValues>)
    ensures |lines| == |ms|
    ensures forall k :: 0 <= k < |ms| ==> IsSnapshotOf(quants, moves, lines[k], ms[k])
  {
    if ms == [] then []
    else
      [LineValues(ms[0].product, ms[0].qty, AvailableFor(quants, moves, ms[0]), ms[0].location)]
      + SnapshotLines(quants, moves, ms[1..])
  }

  /** The loop of `default_get` that appends one line per move of the picking. Every move
      gets a line, whatever the picking's type and whatever the move's quantity. */
  method BuildLines(quants: seq<Quant>, moves: seq<Move>, picking: Picking) returns (lines: seq<LineValues>)
    ensures |lines| == |picking.moves|
    ensures forall k :: 0 <= k < |lines| ==> IsSnapshotOf(quants, moves, lines[k], picking.moves[k])
    ensures lines == SnapshotLines(quants, moves, picking.moves)
  {
    lines := [];
    var i := 0;
    while i < |picking.moves|
      invariant 0 <= i <= |picking.moves|
      invariant |lines| == i
      invariant forall k :: 0 <= k < i ==> IsSnapshotOf(quants, moves, lines[k], picking.moves[k])
    {
      var move := picking.moves[i];
      var available := AvailableFor(quants, moves, move);
      lines := lines + [LineValues(move.product, move.qty, available, move.location)];
      i := i + 1;
    }
    SnapshotLinesUnique(quants, moves, picking.moves, lines);
  }

  /** The snapshot lines are the only sequence of that length whose lines are snapshots of
      the moves at the same positions. */
  lemma SnapshotLinesUnique(quants: seq<Quant>, moves: seq<Move>, ms: seq<Move>, lines: seq<LineValues>)
    requires |lines| == |ms|
    requires forall k :: 0 <= k < |ms| ==> IsSnapshotOf(quants, moves, lines[k], ms[k])
    ensures lines == SnapshotLines(quants, moves, ms)
  {
  }

  /** The defaults of the dialog that `default_get` fills in; every other default the
      platform supplies passes through untouched and is not modelled. */
  datatype Defaults = Defaults(pickingId: Option<nat>, lineIds: Option<seq<LineValues>>)

  /** `default_get`: `base` is what the platform's own `default_get` returned and `active`
      the picking named by `active_id` in the context, if any. Without one the defaults
      are returned as they are; with one, they name the picking and hold one snapshot line
      per move. */
  method DefaultGet(quants: seq<Quant>, moves: seq<Move>, base: Defaults, active: Option<Picking>)
    returns (res: Defaults)
    ensures active.None? ==> res == base
    ensures active.Some? ==> && res.pickingId == Some(active.value.id)
                             && res.lineIds.Some?
                             && |res.lineIds.value| == |active.value.moves|
                             && forall k :: 0 <= k < |active.value.moves| ==>
                                  IsSnapshotOf(quants, moves, res.lineIds.value[k], active.value.moves[k])
  {
    res := base;
    if active.Some? {
      var picking := active.value;
      res := res.(pickingId := Some(picking.id));
      var lines := BuildLines(quants, moves, picking);
      res := res.(lineIds := Some(lines));
    }
  }

  // ---------------------------------------------------------------------------------
  // Validity of the lines
  // ---------------------------------------------------------------------------------

  /** The rule of the derived `is_valid` flag. */
  predicate IsValidLine(line: LineValues) {
    line.requestedQty <= line.availableQty
  }

  /** One line record of the dialog. The snapshot values are read-only; `isValid` is the
      derived flag that `ComputeIsValid` assigns. */
  class WizardLine {
    const values: LineValues
    var isValid: bool

    /** The record the platform creates from one line of the defaults; its flag is not
        computed yet. */
    constructor (values: LineValues)
      ensures this.values == values && !isValid
    {
      this.values := values;
      isValid := false;
    }
  }

  /** `_compute_is_valid` over a recordset of lines: each line's flag is set from its own
      values, and nothing else changes. */
  method ComputeIsValid(lines: seq<WizardLine>)
    modifies set l | l in lines
    ensures forall l :: l in lines ==> l.isValid == IsValidLine(l.values)
  {
    var i := 0;
    while i < |lines|
      invariant 0 <= i <= |lines|
      invariant forall k :: 0 <= k < i ==> lines[k].isValid == IsValidLine(lines[k].values)
    {
      lines[i].isValid := lines[i].values.requestedQty <= lines[i].values.availableQty;
      i := i + 1;
    }
  }

  /** `k` is the first line of `lines` that is not valid. */
  predicate IsFirstInvalidLine(lines: seq<LineValues>, k: nat) {
    && k < |lines|
    && !IsValidLine(lines[k])
    && forall j :: 0 <= j < k ==> IsValidLine(lines[j])
  }

  /** `_validate_all_quantities`: it passes exactly when every line is valid (so vacuously
      on no lines), and otherwise raises for the first line whose requested quantity
      exceeds its available quantity. */
  function ValidateAllQuantities(lines: seq<LineValues>): (r: Outcome<StockError>)
    ensures r.Pass? <==> forall k :: 0 <= k < |lines| ==> IsValidLine(lines[k])
    ensures r.Fail? ==> exists k: nat :: IsFirstInvalidLine(lines, k) && r.error == InsufficientQuantity(lines[k])
  {
    if lines == [] then Pass
    else if lines[0].requestedQty > lines[0].availableQty then
      assert IsFirstInvalidLine(lines, 0);
      Fail(InsufficientQuantity(lines[0]))
    else
      var r := ValidateAllQuantities(lines[1..]);
      assert r.Fail? ==> exists k: nat :: IsFirstInvalidLine(lines, k) && r.error == InsufficientQuantity(lines[k]) by {
        if r.Fail? {
          var k: nat :| IsFirstInvalidLine(lines[1..], k) && r.error == InsufficientQuantity(lines[1..][k]);
          assert forall j :: 0 < j < k + 1 ==> lines[j] == lines[1..][j - 1];
          assert IsFirstInvalidLine(lines, k + 1);
        }
      }
      r
  }

  /** Lines (requested 5, available 10) and (requested 8, available 3): the first is valid,
      the second is not, and confirmation fails on the second. */
  lemma ValidateAllQuantitiesExample()
    ensures var first := LineValues(1, 5.0, 10.0, 7);
            var second := LineValues(2, 8.0, 3.0, 7);
            && IsValidLine(first) && !IsValidLine(second)
            && ValidateAllQuantities([first, second]) == Fail(InsufficientQuantity(second))
  {
  }

  /** On lines freshly built for a picking, the dialog's check and the picking's own
      pre-validation agree on every move with a positive quantity of an outgoing picking;
      the dialog additionally rejects a line of zero or less requested quantity whose
      availability is lower still, and it checks pickings of every type. */
  lemma SnapshotValidityMatchesTransferCheck(quants: seq<Quant>, moves: seq<Move>, ms: seq<Move>, k: nat)
    requires k < |ms|
    ensures var line := SnapshotLines(quants, moves, ms)[k];
            && (ms[k].qty > 0.0 ==> (IsValidLine(line) <==> TransferCheckPasses(quants, moves, ms[k])))
            && (IsValidLine(line) ==> TransferCheckPasses(quants, moves, ms[k]))
  {
  }

  // ---------------------------------------------------------------------------------
  // The dialog and its confirm button
  // ---------------------------------------------------------------------------------

  /** One open dialog: the picking it was opened on and its line records. */
  class TransferDialog {
    const picking: Picking
    const lines: seq<WizardLine>

    constructor (picking: Picking, lines: seq<WizardLine>)
      ensures this.picking == picking && this.lines == lines
    {
      this.picking := picking;
      this.lines := lines;
    }

    /** The snapshot values of the dialog's lines, in order. */
    function LineValuesOf(): (vs: seq<LineValues>)
      ensures |vs| == |lines|
      ensures forall k :: 0 <= k < |lines| ==> vs[k] == lines[k].values
    {
      seq(|lines|, k requires 0 <= k < |lines| => lines[k].values)
    }

    /** `action_confirm_transfer`: the lines are checked first; only when all are valid is
        the picking's validate button pressed, and only when that succeeds does the dialog
        return its close action. The native validation's own result is discarded. */
    method ActionConfirmTransfer(env: Environment, nativeResult: ClientAction)
      returns (r: Result<ClientAction, StockError>)
      modifies env`nativeValidations
      ensures var lineCheck := ValidateAllQuantities(LineValuesOf());
              var pickingCheck := ValidateTransferQuantities(env.quants, env.moves, [picking]);
              && (lineCheck.Fail? ==> r == Failure(lineCheck.error)
                                      && env.nativeValidations == old(env.nativeValidations))
              && (lineCheck.Pass? && pickingCheck.Fail? ==>
                    r == Failure(pickingCheck.error) && env.nativeValidations == old(env.nativeValidations))
              && (lineCheck.Pass? && pickingCheck.Pass? ==>
                    r == Success(CloseWindow) && env.nativeValidations == old(env.nativeValidations) + [[picking]])
    {
      var lineCheck := ValidateAllQuantities(LineValuesOf());
      if lineCheck.Fail? {
        return Failure(lineCheck.error);
      }
      var validated := env.ButtonValidate([picking], nativeResult);
      if validated.Failure? {
        return Failure(validated.error);
      }
      r := Success(CloseWindow);
    }
  }

  /** The dialog opened on a picking with moves of 5 (10 available) and 8 (3 available):
      its lines are valid and invalid in that order, and confirming fails on the second
      line without the native validation being invoked. */
  method PreviewExample(env: Environment, nativeResult: ClientAction)
    modifies env`nativeValidations
  {
    var first := new WizardLine(LineValues(1, 5.0, 10.0, 7));
    var second := new WizardLine(LineValues(2, 8.0, 3.0, 7));
    ComputeIsValid([first, second]);
    assert first.isValid && !second.isValid;
    var dialog := new TransferDialog(Picking(9, Outgoing, Assigned, []), [first, second]);
    assert dialog.LineValuesOf() == [first.values, second.values];
    ValidateAllQuantitiesExample();
    var before := env.nativeValidations;
    var r := dialog.ActionConfirmTransfer(env, nativeResult);
    assert r == Failure(InsufficientQuantity(LineValues(2, 8.0, 3.0, 7)));
    assert env.nativeValidations == before;
  }
}
