/** The campaign page's ticket selection: the toggle behind each grid click and the
    summary, whose sort reorders the selection state itself. */
module QuotaSelection {
  import opened Lists

  predicate Ascending(s: seq<int>) {
    forall i, j :: 0 <= i < j < |s| ==> s[i] <= s[j]
  }

  /** `prev.filter(q => q !== n)`. */
  function Without(s: seq<int>, n: int): (r: seq<int>)
    ensures forall m :: m in r <==> m in s && m != n
    ensures |r| <= |s|
    ensures n !in s ==> r == s
    ensures Distinct(s) ==> Distinct(r)
  {
    if s == [] then []
    else if s[0] == n then Without(s[1..], n)
    else
      var rest := Without(s[1..], n);
      assert s[0] !in s[1..] ==> s[0] !in rest;
      [s[0]] + rest
  }

  /** `handleQuotaSelect`: a selected number is removed, any other one appended. */
  function Toggle(s: seq<int>, n: int): (r: seq<int>)
    ensures n in r <==> n !in s
    ensures forall m :: m != n ==> (m in r <==> m in s)
    ensures n !in s ==> r == s + [n]
    ensures Distinct(s) ==> Distinct(r)
  {
    if n in s then Without(s, n) else s + [n]
  }

  /** Toggling twice gives back the same set of numbers, and the same list when the
      number was not selected. */
  lemma ToggleTwice(s: seq<int>, n: int)
    ensures forall m :: m in Toggle(Toggle(s, n), n) <==> m in s
    ensures n !in s ==> Toggle(Toggle(s, n), n) == s
  {
    if n !in s {
      WithoutAppended(s, n);
    }
  }

  lemma {:induction false} WithoutAppended(s: seq<int>, n: int)
    requires n !in s
    ensures Without(s + [n], n) == s
  {
    if s == [] {
      assert [] + [n] == [n];
    } else {
      assert (s + [n])[1..] == s[1..] + [n];
      WithoutAppended(s[1..], n);
    }
  }

  /** Inserts `x` into an ascending list. */
  function Insert(sorted: seq<int>, x: int): (r: seq<int>)
    requires Ascending(sorted)
    ensures Ascending(r) && multiset(r) == multiset(sorted) + multiset{x}
    ensures forall y :: y in r <==> y in sorted || y == x
  {
    if sorted == [] then [x]
    else if x <= sorted[0] then [x] + sorted
    else
      var rest := Insert(sorted[1..], x);
      assert sorted == [sorted[0]] + sorted[1..];
      HeadBelowRest(sorted, x, rest);
      [sorted[0]] + rest
  }

  /** The head of an ascending list lies below every element of a list made of
      its tail's elements and a larger `x`. */
  lemma HeadBelowRest(sorted: seq<int>, x: int, rest: seq<int>)
    requires Ascending(sorted) && sorted != [] && sorted[0] < x
    requires forall y :: y in rest <==> y in sorted[1..] || y == x
    ensures forall j :: 0 <= j < |rest| ==> sorted[0] <= rest[j]
  {
    forall j | 0 <= j < |rest| ensures sorted[0] <= rest[j] {
      assert rest[j] in rest;
      if rest[j] != x {
        var k :| 0 <= k < |sorted[1..]| && sorted[1..][k] == rest[j];
        assert sorted[k + 1] == rest[j];
      }
    }
  }

  /** The selection state. */
  class Selection {
    var selected: seq<int>

    constructor()
      ensures selected == []
    {
      selected := [];
    }

    method HandleQuotaSelect(n: int)
      modifies this
      ensures selected == Toggle(old(selected), n)
    {
      selected := Toggle(selected, n);
    }

    /** `selectedQuotas.sort((a, b) => a - b)`: the state list itself ends up in
        ascending order, holding the same numbers as often as before. */
    method SortInPlace()
      modifies this
      ensures Ascending(selected) && multiset(selected) == multiset(old(selected))
    {
      var sorted: seq<int> := [];
      var i := 0;
      while i < |selected|
        invariant 0 <= i <= |selected|
        invariant Ascending(sorted) && multiset(sorted) == multiset(selected[..i])
      {
        assert selected[..i + 1] == selected[..i] + [selected[i]];
        sorted := Insert(sorted, selected[i]);
        i := i + 1;
      }
      assert selected[..|selected|] == selected;
      selected := sorted;
    }
  }

  /** The summary box: "<count> cota(s)" and the total, count times price. */
  datatype Summary = Summary(count: nat, plural: bool, total: real)

  function SelectionSummary(selected: seq<int>, ticketPrice: real): (sm: Summary)
    ensures sm.count == |selected| && (sm.plural <==> |selected| != 1)
    ensures sm.total == |selected| as real * ticketPrice
  {
    Summary(|selected|, |selected| != 1, |selected| as real * ticketPrice)
  }

  /** Each toggle changes the total by one ticket price. */
  lemma ToggleTotal(s: seq<int>, n: int, ticketPrice: real)
    requires Distinct(s)
    ensures n !in s ==> SelectionSummary(Toggle(s, n), ticketPrice).total == SelectionSummary(s, ticketPrice).total + ticketPrice
    ensures n in s ==> SelectionSummary(Toggle(s, n), ticketPrice).total == SelectionSummary(s, ticketPrice).total - ticketPrice
  {
    var t := Toggle(s, n);
    ToggleSize(s, n);
    if n in s {
      OneMoreTicket(|t|, |s|, ticketPrice);
    } else {
      OneMoreTicket(|s|, |t|, ticketPrice);
    }
  }

  /** On a list without repeats a toggle removes or adds exactly one number. */
  lemma ToggleSize(s: seq<int>, n: int)
    requires Distinct(s)
    ensures |Toggle(s, n)| == if n in s then |s| - 1 else |s| + 1
  {
    if n in s {
      WithoutDistinctSize(s, n);
    }
  }

  lemma OneMoreTicket(k: nat, k': nat, ticketPrice: real)
    requires k' == k + 1
    ensures k' as real * ticketPrice == k as real * ticketPrice + ticketPrice
  {
  }

  lemma {:induction false} WithoutDistinctSize(s: seq<int>, n: int)
    requires Distinct(s) && n in s
    ensures |Without(s, n)| == |s| - 1
  {
    assert Distinct(s[1..]);
    if s[0] != n {
      WithoutDistinctSize(s[1..], n);
    } else {
      assert n !in s[1..];
    }
  }
}
