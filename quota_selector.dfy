/** The quantity counter of automatic mode: the increment buttons, the typed
    quantity and the mode gate. */
module QuotaSelector {
  import opened Wrappers
  import opened Text
  import QuotaGrid

  /** The values of the eight increment buttons, "+1" to "+20000". */
  const IncrementButtons: seq<int> := [1, 5, 15, 150, 1000, 5000, 10000, 20000]

  /** `Math.max(1, quantity + value)`: the quantity after a button press. */
  function Incremented(quantity: int, step: int): (q: int)
    ensures q >= 1
    ensures quantity + step >= 1 ==> q == quantity + step
    ensures quantity + step < 1 ==> q == 1
  {
    if quantity + step > 1 then quantity + step else 1
  }

  /** The "-" button at quantity 1 leaves the quantity at 1. */
  lemma DecrementAtOne()
    ensures Incremented(1, -1) == 1
  {
  }

  /** A "+" button never lowers a valid quantity. */
  lemma IncrementButtonsRaise(quantity: int, i: nat)
    requires quantity >= 1 && i < |IncrementButtons|
    ensures Incremented(quantity, IncrementButtons[i]) == quantity + IncrementButtons[i] > quantity
  {
  }

  /** `Math.max(1, parseInt(text) || 1)`: the quantity after typing. */
  function TypedQuantity(typed: string): (q: int)
    ensures q >= 1
    ensures ParseInt(typed).None? ==> q == 1
    ensures ParseInt(typed).Some? && ParseInt(typed).value >= 1 ==> q == ParseInt(typed).value
    ensures ParseInt(typed).Some? && ParseInt(typed).value <= 0 ==> q == 1
  {
    match ParseInt(typed)
    case None => 1
    case Some(v) => if v == 0 then 1 else if v > 1 then v else 1
  }

  /** Typing back the number the field shows keeps it. */
  lemma TypedQuantityOfDecimal(n: nat)
    requires n >= 1
    ensures TypedQuantity(Decimal(n)) == n
  {
    ParseIntDecimal(n);
  }

  /** The selector renders only in automatic mode; manual mode uses the grid. */
  function Renders(mode: QuotaGrid.Mode): (shown: bool)
    ensures shown <==> mode != QuotaGrid.Manual
  {
    mode == QuotaGrid.Automatic
  }

  /** The counter's state. */
  class Selector {
    var quantity: int

    /** `initialQuantity` defaults to 1; a given one is taken as it is. */
    constructor(initialQuantity: Option<int>)
      ensures quantity == initialQuantity.GetOr(1)
    {
      quantity := initialQuantity.GetOr(1);
    }

    /** `handleIncrement`: store the new quantity and hand exactly it to
        `onQuantityChange`. */
    method HandleIncrement(step: int) returns (notified: int)
      modifies this
      ensures quantity == Incremented(old(quantity), step)
      ensures notified == quantity && quantity >= 1
    {
      quantity := Incremented(quantity, step);
      notified := quantity;
    }

    /** `handleQuantityChange`. */
    method HandleQuantityChange(typed: string) returns (notified: int)
      modifies this
      ensures quantity == TypedQuantity(typed)
      ensures notified == quantity && quantity >= 1
    {
      quantity := TypedQuantity(typed);
      notified := quantity;
    }
  }
}
