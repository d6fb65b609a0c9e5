/** The availability calculator and the move quantity guard of `stock.move`
    (models/stock_move.py). The two ORM searches become filters over the sequence of all
    quants and the sequence of all moves; `mapped` followed by `sum` becomes a total. */
module StockMove {
  import opened StockTypes

  // ---------------------------------------------------------------------------------
  // The calculator
  // ---------------------------------------------------------------------------------

  /** The search domain over quants: same product, same location. */
  predicate IsQuantAt(q: Quant, product: nat, location: nat) {
    q.product == product && q.location == location
  }

  /** The search domain over moves: same product and source location, a pending state,
      an outgoing picking type, and an id other than the excluded one. */
  predicate IsPendingOutgoing(m: Move, product: nat, location: nat, excluded: nat) {
    && m.product == product
    && m.location == location
    && m.state in {Waiting, Confirmed, Assigned}
    && m.typeCode == Outgoing
    && m.id != excluded
  }

  /** The quants the first search returns, in storage order. */
  function QuantsAt(quants: seq<Quant>, product: nat, location: nat): (r: seq<Quant>)
    ensures |r| <= |quants|
    ensures forall q :: q in r <==> q in quants && IsQuantAt(q, product, location)
  {
    if quants == [] then []
    else (if IsQuantAt(quants[0], product, location) then [quants[0]] else [])
         + QuantsAt(quants[1..], product, location)
  }

  /** The moves the second search returns, in storage order. */
  function PendingOutgoingMoves(moves: seq<Move>, product: nat, location: nat, excluded: nat)
    : (r: seq<Move>)
    ensures |r| <= |moves|
    ensures forall m :: m in r <==> m in moves && IsPendingOutgoing(m, product, location, excluded)
  {
    if moves == [] then []
    else (if IsPendingOutgoing(moves[0], product, location, excluded) then [moves[0]] else [])
         + PendingOutgoingMoves(moves[1..], product, location, excluded)
  }

  /** The first search keeps every matching quant as often as it is stored, and no other. */
  lemma {:induction false} QuantsAtMultiplicity(quants: seq<Quant>, product: nat, location: nat)
    ensures forall q :: multiset(QuantsAt(quants, product, location))[q]
                        == if IsQuantAt(q, product, location) then multiset(quants)[q] else 0
  {
    if quants != [] {
      assert quants == [quants[0]] + quants[1..];
      QuantsAtMultiplicity(quants[1..], product, location);
    }
  }

  /** The second search keeps every matching move as often as it is stored, and no other. */
  lemma {:induction false} PendingOutgoingMovesMultiplicity(moves: seq<Move>, product: nat, location: nat,
                                                            excluded: nat)
    ensures forall m :: multiset(PendingOutgoingMoves(moves, product, location, excluded))[m]
                        == if IsPendingOutgoing(m, product, location, excluded) then multiset(moves)[m] else 0
  {
    if moves != [] {
      assert moves == [moves[0]] + moves[1..];
      PendingOutgoingMovesMultiplicity(moves[1..], product, location, excluded);
    }
  }

  /** `sum(quants.mapped('quantity'))` */
  function TotalQuantity(qs: seq<Quant>): real {
    if qs == [] then 0.0 else qs[0].quantity + TotalQuantity(qs[1..])
  }

  /** `sum(moves.mapped('product_uom_qty'))` */
  function TotalDemand(ms: seq<Move>): real {
    if ms == [] then 0.0 else ms[0].qty + TotalDemand(ms[1..])
  }

  /** Quantity on hand of `product` at `location`. */
  function OnHand(quants: seq<Quant>, product: nat, location: nat): real {
    TotalQuantity(QuantsAt(quants, product, location))
  }

  /** Quantity committed to pending outgoing moves other than `excluded`. */
  function Reserved(moves: seq<Move>, product: nat, location: nat, excluded: nat): real {
    TotalDemand(PendingOutgoingMoves(moves, product, location, excluded))
  }

  /** `_get_available_quantity_at_location`, called on the record whose id is `excluded`.
      The difference is not clamped: a negative value means over-commitment. */
  function AvailableQuantity(quants: seq<Quant>, moves: seq<Move>, product: nat, location: nat,
                             excluded: nat): real {
    OnHand(quants, product, location) - Reserved(moves, product, location, excluded)
  }

  /** The calculator called on `move` itself for its own product and source location, as the
      picking guard and the preview dialog call it. */
  function AvailableFor(quants: seq<Quant>, moves: seq<Move>, move: Move): real {
    AvailableQuantity(quants, moves, move.product, move.location, move.id)
  }

  // ---------------------------------------------------------------------------------
  // Structure of the sums
  // ---------------------------------------------------------------------------------

  lemma {:induction false} QuantsAtConcat(a: seq<Quant>, b: seq<Quant>, product: nat, location: nat)
    ensures QuantsAt(a + b, product, location) == QuantsAt(a, product, location) + QuantsAt(b, product, location)
  {
    if a == [] {
      assert a + b == b;
    } else {
      assert (a + b)[1..] == a[1..] + b;
      QuantsAtConcat(a[1..], b, product, location);
    }
  }

  lemma {:induction false} PendingOutgoingMovesConcat(a: seq<Move>, b: seq<Move>, product: nat,
                                                      location: nat, excluded: nat)
    ensures PendingOutgoingMoves(a + b, product, location, excluded)
         == PendingOutgoingMoves(a, product, location, excluded)
            + PendingOutgoingMoves(b, product, location, excluded)
  {
    if a == [] {
      assert a + b == b;
    } else {
      assert (a + b)[1..] == a[1..] + b;
      PendingOutgoingMovesConcat(a[1..], b, product, location, excluded);
    }
  }

  lemma {:induction false} TotalQuantityConcat(a: seq<Quant>, b: seq<Quant>)
    ensures TotalQuantity(a + b) == TotalQuantity(a) + TotalQuantity(b)
  {
    if a == [] {
      assert a + b == b;
    } else {
      assert (a + b)[1..] == a[1..] + b;
      TotalQuantityConcat(a[1..], b);
    }
  }

  lemma {:induction false} TotalDemandConcat(a: seq<Move>, b: seq<Move>)
    ensures TotalDemand(a + b) == TotalDemand(a) + TotalDemand(b)
  {
    if a == [] {
      assert a + b == b;
    } else {
      assert (a + b)[1..] == a[1..] + b;
      TotalDemandConcat(a[1..], b);
    }
  }

  /** On-hand quantity is additive over a split of the quants. */
  lemma OnHandConcat(a: seq<Quant>, b: seq<Quant>, product: nat, location: nat)
    ensures OnHand(a + b, product, location) == OnHand(a, product, location) + OnHand(b, product, location)
  {
    QuantsAtConcat(a, b, product, location);
    TotalQuantityConcat(QuantsAt(a, product, location), QuantsAt(b, product, location));
  }

  /** Reserved quantity is additive over a split of the moves. */
  lemma ReservedConcat(a: seq<Move>, b: seq<Move>, product: nat, location: nat, excluded: nat)
    ensures Reserved(a + b, product, location, excluded)
         == Reserved(a, product, location, excluded) + Reserved(b, product, location, excluded)
  {
    PendingOutgoingMovesConcat(a, b, product, location, excluded);
    TotalDemandConcat(PendingOutgoingMoves(a, product, location, excluded),
                      PendingOutgoingMoves(b, product, location, excluded));
  }

  lemma OnHandSingleton(q: Quant, product: nat, location: nat)
    ensures OnHand([q], product, location) == if IsQuantAt(q, product, location) then q.quantity else 0.0
  {
    assert [q][1..] == [];
    var found := QuantsAt([q], product, location);
    assert found == if IsQuantAt(q, product, location) then [q] else [];
    if IsQuantAt(q, product, location) {
      assert found[1..] == [];
      assert TotalQuantity(found) == q.quantity + TotalQuantity(found[1..]);
    }
  }

  lemma ReservedSingleton(m: Move, product: nat, location: nat, excluded: nat)
    ensures Reserved([m], product, location, excluded)
         == if IsPendingOutgoing(m, product, location, excluded) then m.qty else 0.0
  {
    assert [m][1..] == [];
    var found := PendingOutgoingMoves([m], product, location, excluded);
    assert found == if IsPendingOutgoing(m, product, location, excluded) then [m] else [];
    if IsPendingOutgoing(m, product, location, excluded) {
      assert found[1..] == [];
      assert TotalDemand(found) == m.qty + TotalDemand(found[1..]);
    }
  }

  // ---------------------------------------------------------------------------------
  // Properties of the calculator
  // ---------------------------------------------------------------------------------

  /** Inserting one quant anywhere raises availability by its quantity when it is at the
      queried product and location, and leaves it unchanged otherwise. */
  lemma InsertQuant(quants: seq<Quant>, moves: seq<Move>, i: nat, q: Quant,
                    product: nat, location: nat, excluded: nat)
    requires i <= |quants|
    ensures AvailableQuantity(quants[..i] + [q] + quants[i..], moves, product, location, excluded)
         == AvailableQuantity(quants, moves, product, location, excluded)
            + (if IsQuantAt(q, product, location) then q.quantity else 0.0)
  {
    var before, after := quants[..i], quants[i..];
    assert before + after == quants;
    assert quants[..i] + [q] + quants[i..] == (before + [q]) + after;
    OnHandConcat(before + [q], after, product, location);
    OnHandConcat(before, [q], product, location);
    OnHandConcat(before, after, product, location);
    OnHandSingleton(q, product, location);
  }

  /** Inserting one move anywhere lowers availability by its quantity when it is a pending
      outgoing move at the queried product and location other than the excluded one, and
      leaves it unchanged otherwise. */
  lemma InsertMove(quants: seq<Quant>, moves: seq<Move>, i: nat, m: Move,
                   product: nat, location: nat, excluded: nat)
    requires i <= |moves|
    ensures AvailableQuantity(quants, moves[..i] + [m] + moves[i..], product, location, excluded)
         == AvailableQuantity(quants, moves, product, location, excluded)
            - (if IsPendingOutgoing(m, product, location, excluded) then m.qty else 0.0)
  {
    var before, after := moves[..i], moves[i..];
    assert before + after == moves;
    assert moves[..i] + [m] + moves[i..] == (before + [m]) + after;
    ReservedConcat(before + [m], after, product, location, excluded);
    ReservedConcat(before, [m], product, location, excluded);
    ReservedConcat(before, after, product, location, excluded);
    ReservedSingleton(m, product, location, excluded);
  }

  /** Moves in a draft, partially available, done or cancelled state, moves whose picking
      type is not outgoing, moves at another product or location, and the excluded move
      never change availability. */
  lemma MovesThatNeverReserve(quants: seq<Quant>, moves: seq<Move>, i: nat, m: Move,
                              product: nat, location: nat, excluded: nat)
    requires i <= |moves|
    requires || m.state in {Draft, PartiallyAvailable, Done, Cancel}
             || m.typeCode != Outgoing
             || m.product != product
             || m.location != location
             || m.id == excluded
    ensures AvailableQuantity(quants, moves[..i] + [m] + moves[i..], product, location, excluded)
         == AvailableQuantity(quants, moves, product, location, excluded)
  {
    InsertMove(quants, moves, i, m, product, location, excluded);
  }

  /** The excluded move's own record does not matter: replacing it by any record with the
      same id (another quantity, state, type ...) or removing it leaves availability as it
      was. */
  lemma ExcludedMoveIgnored(quants: seq<Quant>, moves: seq<Move>, i: nat, replacement: Move,
                            product: nat, location: nat)
    requires i < |moves|
    requires replacement.id == moves[i].id
    ensures AvailableQuantity(quants, moves[i := replacement], product, location, moves[i].id)
         == AvailableQuantity(quants, moves, product, location, moves[i].id)
    ensures AvailableQuantity(quants, moves[..i] + moves[i + 1..], product, location, moves[i].id)
         == AvailableQuantity(quants, moves, product, location, moves[i].id)
  {
    var rest := moves[..i] + moves[i + 1..];
    assert rest[..i] == moves[..i];
    assert rest[i..] == moves[i + 1..];
    assert moves == rest[..i] + [moves[i]] + rest[i..];
    assert moves[i := replacement] == rest[..i] + [replacement] + rest[i..];
    InsertMove(quants, rest, i, moves[i], product, location, moves[i].id);
    InsertMove(quants, rest, i, replacement, product, location, moves[i].id);
  }

  /** A pending outgoing move other than the excluded one counts in full against
      availability: with it removed, availability is higher by exactly its quantity. */
  lemma PendingMoveCountsAsReserved(quants: seq<Quant>, moves: seq<Move>, i: nat,
                                    product: nat, location: nat, excluded: nat)
    requires i < |moves|
    requires IsPendingOutgoing(moves[i], product, location, excluded)
    ensures AvailableQuantity(quants, moves, product, location, excluded)
         == AvailableQuantity(quants, moves[..i] + moves[i + 1..], product, location, excluded)
            - moves[i].qty
  {
    var rest := moves[..i] + moves[i + 1..];
    assert rest[..i] == moves[..i];
    assert rest[i..] == moves[i + 1..];
    assert moves == rest[..i] + [moves[i]] + rest[i..];
    InsertMove(quants, rest, i, moves[i], product, location, excluded);
  }

  /** No floor at zero: 10 on hand against a pending outgoing reservation of 15 gives -5. */
  lemma AvailabilityIsNotClamped()
    ensures AvailableQuantity([Quant(1, 7, 10.0)], [Move(2, 1, 7, Assigned, Outgoing, 15.0)], 1, 7, 3)
         == -5.0
  {
  }

  // ---------------------------------------------------------------------------------
  // The move quantity guard
  // ---------------------------------------------------------------------------------

  /** The constraint's check of one move, with the move itself excluded from the reserved
      sum, as it runs when the constrained recordset is that move alone. */
  function CheckMove(quants: seq<Quant>, moves: seq<Move>, move: Move): (r: Outcome<StockError>)
    ensures r.Pass? <==> || move.typeCode != Outgoing
                         || move.qty + Reserved(moves, move.product, move.location, move.id)
                            <= OnHand(quants, move.product, move.location)
    ensures r.Fail? ==> r.error == MoveQuantityExceeded(move, AvailableFor(quants, moves, move))
  {
    if move.typeCode == Outgoing && move.qty > AvailableFor(quants, moves, move) then
      Fail(MoveQuantityExceeded(move, AvailableFor(quants, moves, move)))
    else
      Pass
  }

  /** The guard neither reads the move's own state nor skips a zero quantity: with the move
      stored at index `i` of the moves, and with any state written into it, an outgoing
      move of quantity zero fails exactly when its availability, computed with itself
      excluded, is negative. */
  lemma CheckMoveIgnoresOwnState(quants: seq<Quant>, moves: seq<Move>, i: nat, s: State)
    requires i < |moves|
    ensures var changed := moves[i].(state := s);
            CheckMove(quants, moves[i := changed], changed).Pass? == CheckMove(quants, moves, moves[i]).Pass?
    ensures moves[i].typeCode == Outgoing && moves[i].qty == 0.0 ==>
              (CheckMove(quants, moves, moves[i]).Fail? <==> AvailableFor(quants, moves, moves[i]) < 0.0)
  {
    ExcludedMoveIgnored(quants, moves, i, moves[i].(state := s), moves[i].product, moves[i].location);
  }

  /** The scenario of 100 on hand and one other pending outgoing move of 30: 70 are
      available to the move being checked, so 70 passes and 71 fails. */
  lemma CheckMoveExample()
    ensures var quants := [Quant(1, 7, 100.0)];
            var other := Move(2, 1, 7, Confirmed, Outgoing, 30.0);
            var ok := Move(1, 1, 7, Draft, Outgoing, 70.0);
            var tooMany := Move(1, 1, 7, Draft, Outgoing, 71.0);
            && AvailableFor(quants, [other, ok], ok) == 70.0
            && CheckMove(quants, [other, ok], ok) == Pass
            && CheckMove(quants, [other, tooMany], tooMany) == Fail(MoveQuantityExceeded(tooMany, 70.0))
  {
  }

  // ---------------------------------------------------------------------------------
  // The constraint over a recordset
  // ---------------------------------------------------------------------------------

  /** The constraint as written: it loops over the constrained recordset but calls the
      calculator on the recordset itself, so the excluded id is the recordset's `id`. That
      read is defined only for a single record and raises for several; the loop reaches it
      at the first outgoing move. `i` is the loop position. */
  function CheckAvailableQuantityFrom(quants: seq<Quant>, moves: seq<Move>, records: seq<Move>, i: nat)
    : (r: Outcome<StockError>)
    decreases |records| - i
    ensures (forall k :: i <= k < |records| ==> records[k].typeCode != Outgoing) ==> r == Pass
    ensures |records| > 1 && (exists k :: i <= k < |records| && records[k].typeCode == Outgoing)
            ==> r == Fail(ExpectedSingleton)
  {
    if i >= |records| then Pass
    else if records[i].typeCode != Outgoing then CheckAvailableQuantityFrom(quants, moves, records, i + 1)
    else if |records| != 1 then Fail(ExpectedSingleton)
    else
      var available := AvailableQuantity(quants, moves, records[i].product, records[i].location, records[0].id);
      if records[i].qty > available then Fail(MoveQuantityExceeded(records[i], available))
      else CheckAvailableQuantityFrom(quants, moves, records, i + 1)
  }

  /** `_check_available_quantity` as written. On a single record it is the per-move check;
      on several records with an outgoing one among them it raises the singleton error
      instead of comparing any quantity. */
  function CheckAvailableQuantityAsWritten(quants: seq<Quant>, moves: seq<Move>, records: seq<Move>)
    : (r: Outcome<StockError>)
    ensures |records| == 1 ==> r == CheckMove(quants, moves, records[0])
    ensures (forall k :: 0 <= k < |records| ==> records[k].typeCode != Outgoing) ==> r == Pass
    ensures |records| > 1 && (exists k :: 0 <= k < |records| && records[k].typeCode == Outgoing)
            ==> r == Fail(ExpectedSingleton)
  {
    CheckAvailableQuantityFrom(quants, moves, records, 0)
  }

  /** The constraint as intended: every record is checked with itself excluded, in order,
      and the first failure is raised. */
  function CheckAvailableQuantity(quants: seq<Quant>, moves: seq<Move>, records: seq<Move>)
    : (r: Outcome<StockError>)
    ensures r.Pass? <==> forall k :: 0 <= k < |records| ==> CheckMove(quants, moves, records[k]).Pass?
    ensures r.Fail? ==> exists k :: && 0 <= k < |records|
                                    && r == CheckMove(quants, moves, records[k])
                                    && forall j :: 0 <= j < k ==> CheckMove(quants, moves, records[j]).Pass?
  {
    if records == [] then Pass
    else if CheckMove(quants, moves, records[0]).Fail? then CheckMove(quants, moves, records[0])
    else
      var r := CheckAvailableQuantity(quants, moves, records[1..]);
      assert r.Fail? ==> exists k :: && 0 < k < |records|
                                     && r == CheckMove(quants, moves, records[k])
                                     && forall j :: 0 <= j < k ==> CheckMove(quants, moves, records[j]).Pass? by {
        if r.Fail? {
          var k :| && 0 <= k < |records[1..]|
                   && r == CheckMove(quants, moves, records[1..][k])
                   && forall j :: 0 <= j < k ==> CheckMove(quants, moves, records[1..][j]).Pass?;
          assert forall j :: 0 < j < k + 1 ==> records[j] == records[1..][j - 1];
        }
      }
      r
  }

  /** On one record, the constraint as written and as intended agree. */
  lemma SingletonChecksAgree(quants: seq<Quant>, moves: seq<Move>, move: Move)
    ensures CheckAvailableQuantityAsWritten(quants, moves, [move]) == CheckAvailableQuantity(quants, moves, [move])
  {
  }

  /** Two outgoing moves written in one batch, with ample stock: the constraint as written
      raises the singleton error, the intended check passes both. */
  lemma BatchOfOutgoingMovesRejected()
    ensures var quants := [Quant(1, 7, 100.0)];
            var a := Move(1, 1, 7, Confirmed, Outgoing, 5.0);
            var b := Move(2, 1, 7, Confirmed, Outgoing, 5.0);
            && CheckAvailableQuantityAsWritten(quants, [a, b], [a, b]) == Fail(ExpectedSingleton)
            && CheckAvailableQuantity(quants, [a, b], [a, b]) == Pass
  {
  }
}
