/** Weighted-average stock. Quantities and unit costs are whole ten-thousandths,
    as their columns store them, so a value is a whole number of 10^-8 units. */
module Stock {
  import opened Base
  import opened Sums

  datatype Slot = Slot(warehouse: Id, product: Id)

  datatype MoveKind = In | Out | Adjustment

  /** One row of stock_moves; the quantity is signed. */
  datatype Move = Move(slot: Slot, kind: MoveKind, quantity: int, unitCost: int)

  /** One row of stock_balances. */
  datatype Holding = Holding(onHand: int, average: int)

  datatype Store = Store(moves: seq<Move>, balances: map<Slot, Holding>)

  const NO_HOLDING := Holding(0, 0)

  function HoldingOf(balances: map<Slot, Holding>, slot: Slot): Holding
  {
    if slot in balances then balances[slot] else NO_HOLDING
  }

  /** n / d rounded to the nearest integer, halves away from zero. */
  function RoundRatio(n: int, d: int): int
    requires d > 0
  {
    if n >= 0 then (2 * n + d) / (2 * d) else -((d - 2 * n) / (2 * d))
  }

  lemma DivBounds(x: int, m: int)
    requires m > 0
    ensures 0 <= x - m * (x / m) < m
  {
    assert x == m * (x / m) + x % m;
  }

  lemma RatioNearest(n: int, d: int)
    requires d > 0
    ensures 2 * Abs(d * RoundRatio(n, d) - n) <= d
    ensures n >= 0 ==> 2 * n < 2 * (d * RoundRatio(n, d)) + d
    ensures RoundRatio(-n, d) == -RoundRatio(n, d)
  {
    var x := if n >= 0 then 2 * n + d else d - 2 * n;
    var q := x / (2 * d);
    DivBounds(x, 2 * d);
    assert 2 * d * q == 2 * (d * q);
    assert d * (-q) == -(d * q);
  }

  /** The holding after receiving a quantity at a unit cost. */
  function Blend(h: Holding, quantity: int, unitCost: int): Holding
  {
    var onHand := h.onHand + quantity;
    Holding(onHand, if onHand > 0 then RoundRatio(h.onHand * h.average + quantity * unitCost, onHand) else 0)
  }

  // ------------------------------------------------------------- operations

  function StockIn(st: Store, slot: Slot, quantity: int, unitCost: int): Result<Store>
  {
    if quantity <= 0 then Err(NotPositive)
    else Ok(Store(st.moves + [Move(slot, In, quantity, unitCost)],
                  st.balances[slot := Blend(HoldingOf(st.balances, slot), quantity, unitCost)]))
  }

  /** Draws stock at the current average; the second component is its cost. */
  function StockOut(st: Store, slot: Slot, quantity: int): Result<(Store, int)>
  {
    var h := HoldingOf(st.balances, slot);
    if quantity <= 0 then Err(NotPositive)
    else if h.onHand < quantity then Err(InsufficientStock)
    else Ok((Store(st.moves + [Move(slot, Out, -quantity, h.average)],
                   st.balances[slot := h.(onHand := h.onHand - quantity)]),
             h.average * quantity))
  }

  /** Applies counted - system; the second component is the signed value. A missing
      row is created with the counted quantity. */
  function Adjust(st: Store, slot: Slot, system: int, counted: int): (Store, int)
  {
    var delta := counted - system;
    var h := HoldingOf(st.balances, slot);
    if delta == 0 then (st, 0)
    else (Store(st.moves + [Move(slot, Adjustment, delta, h.average)],
                st.balances[slot := if slot in st.balances then h.(onHand := h.onHand + delta)
                                    else Holding(counted, h.average)]),
          delta * h.average)
  }

  // --------------------------------------------------- the log and the summary

  /** The holding recomputed from the whole log of moves. */
  function Replay(moves: seq<Move>, slot: Slot): Holding
  {
    if moves == [] then NO_HOLDING
    else
      var h := Replay(moves[..|moves| - 1], slot);
      var m := moves[|moves| - 1];
      if m.slot != slot then h
      else if m.kind == In then Blend(h, m.quantity, m.unitCost)
      else h.(onHand := h.onHand + m.quantity)
  }

  /** Receipts are positive; everything else is valued at the average just before it. */
  ghost predicate WellCosted(moves: seq<Move>)
  {
    forall i :: 0 <= i < |moves| ==>
      if moves[i].kind == In then moves[i].quantity > 0
      else moves[i].unitCost == Replay(moves[..i], moves[i].slot).average
  }

  /** stock_balances is exactly what stock_moves says it should be. */
  ghost predicate Tracks(st: Store)
  {
    WellCosted(st.moves) && forall slot :: HoldingOf(st.balances, slot) == Replay(st.moves, slot)
  }

  lemma ReplayAppend(moves: seq<Move>, m: Move, slot: Slot)
    ensures Replay(moves + [m], slot) ==
      var h := Replay(moves, slot);
      if m.slot != slot then h
      else if m.kind == In then Blend(h, m.quantity, m.unitCost)
      else h.(onHand := h.onHand + m.quantity)
  {
    assert (moves + [m])[..|moves|] == moves;
  }

  lemma WellCostedAppend(moves: seq<Move>, m: Move)
    requires WellCosted(moves)
    requires if m.kind == In then m.quantity > 0 else m.unitCost == Replay(moves, m.slot).average
    ensures WellCosted(moves + [m])
  {
    var ms := moves + [m];
    forall i | 0 <= i < |ms|
      ensures if ms[i].kind == In then ms[i].quantity > 0 else ms[i].unitCost == Replay(ms[..i], ms[i].slot).average
    {
      if i < |moves| {
        assert ms[..i] == moves[..i];
      } else {
        assert ms[..i] == moves;
      }
    }
  }

  lemma RecordTracks(st: Store, m: Move, h: Holding)
    requires Tracks(st) && h == Replay(st.moves + [m], m.slot)
    requires if m.kind == In then m.quantity > 0 else m.unitCost == HoldingOf(st.balances, m.slot).average
    ensures Tracks(Store(st.moves + [m], st.balances[m.slot := h]))
  {
    WellCostedAppend(st.moves, m);
    forall slot
      ensures HoldingOf(st.balances[m.slot := h], slot) == Replay(st.moves + [m], slot)
    {
      ReplayAppend(st.moves, m, slot);
    }
  }

  lemma StockInTracks(st: Store, slot: Slot, quantity: int, unitCost: int)
    requires Tracks(st) && StockIn(st, slot, quantity, unitCost).Ok?
    ensures Tracks(StockIn(st, slot, quantity, unitCost).value)
  {
    var m := Move(slot, In, quantity, unitCost);
    ReplayAppend(st.moves, m, slot);
    RecordTracks(st, m, Blend(HoldingOf(st.balances, slot), quantity, unitCost));
  }

  lemma StockOutTracks(st: Store, slot: Slot, quantity: int)
    requires Tracks(st) && StockOut(st, slot, quantity).Ok?
    ensures Tracks(StockOut(st, slot, quantity).value.0)
  {
    var h := HoldingOf(st.balances, slot);
    var m := Move(slot, Out, -quantity, h.average);
    ReplayAppend(st.moves, m, slot);
    RecordTracks(st, m, h.(onHand := h.onHand - quantity));
  }

  /** An adjustment keeps the summary in step with the log exactly when the row it
      needs exists, or the system quantity it was given is zero, or nothing moves. */
  lemma AdjustTracksIff(st: Store, slot: Slot, system: int, counted: int)
    requires Tracks(st)
    ensures Tracks(Adjust(st, slot, system, counted).0) <==> slot in st.balances || system == 0 || counted == system
  {
    if counted != system {
      var h := HoldingOf(st.balances, slot);
      var m := Move(slot, Adjustment, counted - system, h.average);
      var after := Adjust(st, slot, system, counted).0;
      ReplayAppend(st.moves, m, slot);
      if slot in st.balances || system == 0 {
        RecordTracks(st, m, after.balances[slot]);
      } else {
        assert HoldingOf(after.balances, slot) != Replay(after.moves, slot);
      }
    }
  }

  // ------------------------------------------------------------ what it holds

  function MovedQuantity(slot: Slot): Move -> int
  {
    (m: Move) => if m.slot == slot then m.quantity else 0
  }

  function MovedValue(slot: Slot): Move -> int
  {
    (m: Move) => if m.slot == slot then m.quantity * m.unitCost else 0
  }

  function MoveValue(): Move -> int
  {
    (m: Move) => m.quantity * m.unitCost
  }

  /** The value of the moves other than receipts: issues are negative. */
  function IssuedValue(): Move -> int
  {
    (m: Move) => if m.kind == In then 0 else m.quantity * m.unitCost
  }

  /** The cost of goods received. */
  function ReceivedValue(): Move -> int
  {
    (m: Move) => if m.kind == In then m.quantity * m.unitCost else 0
  }

  /** On-hand quantity is exactly the sum of the signed moves. */
  lemma {:induction false} OnHandIsSum(moves: seq<Move>, slot: Slot)
    ensures Replay(moves, slot).onHand == Sum(moves, MovedQuantity(slot))
  {
    if moves != [] {
      OnHandIsSum(moves[..|moves| - 1], slot);
    }
  }

  /** Over all receipts of a slot, the sum of the positive on-hand just after each. */
  function ReceivedLevels(moves: seq<Move>, slot: Slot): nat
  {
    if moves == [] then 0
    else
      var n := |moves| - 1;
      var onHand := Replay(moves, slot).onHand;
      ReceivedLevels(moves[..n], slot)
        + if moves[n].slot == slot && moves[n].kind == In && onHand > 0 then onHand else 0
  }

  /** The value dropped by receipts that leave nothing on hand: their average is reset to zero. */
  function Forgotten(moves: seq<Move>, slot: Slot): int
  {
    if moves == [] then 0
    else
      var n := |moves| - 1;
      var h := Replay(moves[..n], slot);
      Forgotten(moves[..n], slot)
        + if moves[n].slot == slot && moves[n].kind == In && h.onHand + moves[n].quantity <= 0
          then h.onHand * h.average + moves[n].quantity * moves[n].unitCost else 0
  }

  function Valuation(h: Holding): int
  {
    h.onHand * h.average
  }

  /** Twice how far a valuation is from the value of the moves that made it. */
  function Drift(moves: seq<Move>, slot: Slot): nat
  {
    2 * Abs(Valuation(Replay(moves, slot)) - (Sum(moves, MovedValue(slot)) - Forgotten(moves, slot)))
  }

  lemma BlendDrift(h: Holding, quantity: int, unitCost: int)
    ensures var after := Blend(h, quantity, unitCost);
      if after.onHand > 0
      then 2 * Abs(Valuation(after) - (Valuation(h) + quantity * unitCost)) <= after.onHand
      else Valuation(after) == 0
  {
    if h.onHand + quantity > 0 {
      RatioNearest(h.onHand * h.average + quantity * unitCost, h.onHand + quantity);
    }
  }

  /** Exactly when a receipt keeps the value within the averaging bound: it leaves some
      stock on hand, or what was there and what came in are worth nothing together. */
  lemma ReceiptKeepsValueIff(h: Holding, quantity: int, unitCost: int)
    ensures var (after, value) := (Blend(h, quantity, unitCost), Valuation(h) + quantity * unitCost);
      2 * Abs(Valuation(after) - value) <= (if after.onHand > 0 then after.onHand else 0) <==>
        after.onHand > 0 || value == 0
  {
    BlendDrift(h, quantity, unitCost);
  }

  lemma OutValue(onHand: int, quantity: int, average: int)
    ensures (onHand + quantity) * average == onHand * average + quantity * average
  {
  }

  /** The averaging bound, over every log: quantity times average cost differs from
      the summed value of the moves, less what was forgotten, by at most half a
      ten-thousandth of cost for each unit on hand after each receipt. */
  lemma {:induction false} ValuationDrift(moves: seq<Move>, slot: Slot)
    requires WellCosted(moves)
    ensures Drift(moves, slot) <= ReceivedLevels(moves, slot)
  {
    if moves != [] {
      var n := |moves| - 1;
      var before := moves[..n];
      assert forall i :: 0 <= i < n ==> before[..i] == moves[..i];
      ValuationDrift(before, slot);
      var h := Replay(before, slot);
      var m := moves[n];
      if m.slot == slot {
        if m.kind == In {
          BlendDrift(h, m.quantity, m.unitCost);
        } else {
          assert m.unitCost == h.average;
          OutValue(h.onHand, m.quantity, h.average);
        }
      }
    }
  }

  /** On-hand never goes below zero in this slot. */
  ghost predicate NeverNegative(moves: seq<Move>, slot: Slot)
  {
    forall n :: 0 <= n <= |moves| ==> Replay(moves[..n], slot).onHand >= 0
  }

  lemma {:induction false} NothingForgotten(moves: seq<Move>, slot: Slot)
    requires WellCosted(moves) && NeverNegative(moves, slot)
    ensures Forgotten(moves, slot) == 0
  {
    if moves != [] {
      var n := |moves| - 1;
      var before := moves[..n];
      assert forall i :: 0 <= i <= n ==> before[..i] == moves[..i];
      NothingForgotten(before, slot);
      assert Replay(moves[..n], slot).onHand >= 0;
    }
  }

  /** While on-hand stays non-negative, the stored valuation is within the averaging
      bound of the value of all moves. */
  lemma NonNegativeDrift(st: Store, slot: Slot)
    requires Tracks(st) && NeverNegative(st.moves, slot)
    ensures HoldingOf(st.balances, slot).onHand == Sum(st.moves, MovedQuantity(slot))
    ensures 2 * Abs(Valuation(HoldingOf(st.balances, slot)) - Sum(st.moves, MovedValue(slot)))
         <= ReceivedLevels(st.moves, slot)
  {
    OnHandIsSum(st.moves, slot);
    ValuationDrift(st.moves, slot);
    NothingForgotten(st.moves, slot);
  }

  /** Below zero the bound fails: a receipt that leaves the stock negative forgets value. */
  lemma NegativeStockForgets(slot: Slot)
    ensures var ms := [Move(slot, In, 10, 5), Move(slot, Adjustment, -20, 5), Move(slot, In, 5, 7)];
      && WellCosted(ms) && ReceivedLevels(ms, slot) == 10 && Valuation(Replay(ms, slot)) == 0
      && Sum(ms, MovedValue(slot)) == -15 && Forgotten(ms, slot) == -15
  {
    var a, b, c := Move(slot, In, 10, 5), Move(slot, Adjustment, -20, 5), Move(slot, In, 5, 7);
    var m1, m2, m3 := [a], [a, b], [a, b, c];
    assert m3[..2] == m2 && m3[..1] == m1 && m3[..0] == [] && m2[..1] == m1 && m1[..0] == [];
    assert Replay(m1, slot) == Holding(10, 5);
    assert Replay(m2, slot) == Holding(-10, 5);
    assert Replay(m3, slot) == Holding(-5, 0);
    SumOfThree(a, b, c, MovedValue(slot));
    assert ReceivedLevels(m1, slot) == ReceivedLevels([], slot) + 10;
    assert ReceivedLevels(m2, slot) == ReceivedLevels(m1, slot);
    assert ReceivedLevels(m3, slot) == ReceivedLevels(m2, slot);
    assert Forgotten(m1, slot) == Forgotten([], slot);
    assert Forgotten(m2, slot) == Forgotten(m1, slot);
    assert Forgotten(m3, slot) == Forgotten(m2, slot) - 10 * 5 + 5 * 7;
  }
}
