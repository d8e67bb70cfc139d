/** The ticket ("quota") grid: the status of each numbered cell, which clicks are
    forwarded, which cells are disabled, the cell numbering, the column count and
    the "available" counter. */
module QuotaGrid {
  import opened Wrappers
  import opened Lists

  datatype Mode = Manual | Automatic

  datatype QuotaStatus = Purchased | Reserved | Selected | Available

  /** `getQuotaStatus`: purchased before reserved before selected. */
  function StatusOf(n: int, purchased: seq<int>, reserved: seq<int>, selected: seq<int>): (st: QuotaStatus)
    ensures st == Purchased <==> n in purchased
    ensures st == Reserved <==> n !in purchased && n in reserved
    ensures st == Selected <==> n !in purchased && n !in reserved && n in selected
    ensures st == Available <==> n !in purchased && n !in reserved && n !in selected
  {
    if n in purchased then Purchased
    else if n in reserved then Reserved
    else if n in selected then Selected
    else Available
  }

  /** `handleQuotaClick`: the number handed to `onQuotaSelect`, if any. */
  function Click(n: int, mode: Mode, hasHandler: bool, purchased: seq<int>, reserved: seq<int>, selected: seq<int>)
    : (forwarded: Option<int>)
    ensures forwarded.Some? ==> forwarded.value == n
    ensures forwarded.Some? <==> mode == Manual && hasHandler && n !in purchased && n !in reserved
  {
    var st := StatusOf(n, purchased, reserved, selected);
    if mode == Manual && st != Purchased && st != Reserved && hasHandler then Some(n) else None
  }

  /** The `disabled` attribute of a cell. */
  function Disabled(n: int, mode: Mode, purchased: seq<int>, reserved: seq<int>, selected: seq<int>): (d: bool)
    ensures d <==> mode == Automatic || n in purchased || n in reserved
  {
    var st := StatusOf(n, purchased, reserved, selected);
    mode == Automatic || st == Purchased || st == Reserved
  }

  /** With a handler attached, a click goes through exactly on an enabled cell. */
  lemma ClickIffEnabled(n: int, mode: Mode, purchased: seq<int>, reserved: seq<int>, selected: seq<int>)
    ensures Click(n, mode, true, purchased, reserved, selected).Some?
        <==> !Disabled(n, mode, purchased, reserved, selected)
  {
  }

  /** `getGridCols`. */
  function GridCols(totalQuotas: int): (cols: int)
    ensures totalQuotas <= 100 ==> cols == 10
    ensures 100 < totalQuotas <= 1000 ==> cols == 20
    ensures totalQuotas > 1000 ==> cols == 25
  {
    if totalQuotas <= 100 then 10
    else if totalQuotas <= 1000 then 20
    else 25
  }

  /** More cells never means fewer columns. */
  lemma GridColsMonotone(t1: int, t2: int)
    requires t1 <= t2
    ensures GridCols(t1) <= GridCols(t2)
  {
  }

  /** `Array.from({ length: totalQuotas }, (_, index) => index + 1)`. */
  function Cells(totalQuotas: nat): (cells: seq<int>)
    ensures |cells| == totalQuotas
    ensures forall i :: 0 <= i < totalQuotas ==> cells[i] == i + 1
  {
    if totalQuotas == 0 then [] else Cells(totalQuotas - 1) + [totalQuotas]
  }

  /** The "Disponíveis" counter. */
  function AvailableCount(totalQuotas: int, purchased: seq<int>, reserved: seq<int>): int {
    totalQuotas - |purchased| - |reserved|
  }

  /** The cells whose status is selected or available. */
  function OpenCells(totalQuotas: nat, purchased: seq<int>, reserved: seq<int>): set<int> {
    set n | 1 <= n <= totalQuotas && n !in purchased && n !in reserved
  }

  /** The cell numbers 1..totalQuotas. */
  function Range(totalQuotas: nat): (r: set<int>)
    ensures forall n :: n in r <==> 1 <= n <= totalQuotas
  {
    if totalQuotas == 0 then {} else Range(totalQuotas - 1) + {totalQuotas}
  }

  lemma {:induction false} RangeSize(totalQuotas: nat)
    ensures |Range(totalQuotas)| == totalQuotas
  {
    if totalQuotas > 0 {
      RangeSize(totalQuotas - 1);
    }
  }

  function Elements(s: seq<int>): set<int> {
    set x | x in s
  }

  lemma {:induction false} DistinctSize(s: seq<int>)
    requires Distinct(s)
    ensures |Elements(s)| == |s|
  {
    if s != [] {
      var init := s[..|s| - 1];
      assert Distinct(init);
      DistinctSize(init);
      assert Elements(s) == Elements(init) + {s[|s| - 1]};
      assert s[|s| - 1] !in Elements(init);
    }
  }

  /** When purchased and reserved are disjoint, duplicate-free lists of cell
      numbers, the counter equals the number of cells shown as selected or
      available. */
  lemma AvailableCountMatchesCells(totalQuotas: nat, purchased: seq<int>, reserved: seq<int>, selected: seq<int>)
    requires Distinct(purchased) && Distinct(reserved)
    requires forall n :: n in purchased ==> 1 <= n <= totalQuotas
    requires forall n :: n in reserved ==> 1 <= n <= totalQuotas && n !in purchased
    ensures AvailableCount(totalQuotas, purchased, reserved) == |OpenCells(totalQuotas, purchased, reserved)|
    ensures forall n :: n in OpenCells(totalQuotas, purchased, reserved) <==>
      1 <= n <= totalQuotas && StatusOf(n, purchased, reserved, selected) in {Selected, Available}
  {
    var p, r := Elements(purchased), Elements(reserved);
    DistinctSize(purchased);
    DistinctSize(reserved);
    RangeSize(totalQuotas);
    assert p * r == {};
    assert |p + r| == |p| + |r|;
    assert p + r <= Range(totalQuotas);
    assert OpenCells(totalQuotas, purchased, reserved) == Range(totalQuotas) - (p + r);
    assert |Range(totalQuotas) - (p + r)| == |Range(totalQuotas)| - |p + r| by {
      var whole, taken := Range(totalQuotas), p + r;
      assert whole == (whole - taken) + taken;
      assert (whole - taken) * taken == {};
    }
  }
}
