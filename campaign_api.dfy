/** The local rules of the campaign data layer: the publication-fee schedule and the
    record that campaign creation inserts. The remote table calls themselves are
    not part of this model. */
module CampaignApi {
  import opened CampaignValidation

  /** The sixteen fees of the schedule, in reais, lowest first. */
  const FeeValues: seq<real> :=
    [7.0, 17.0, 27.0, 37.0, 47.0, 67.0, 77.0, 127.0, 197.0, 247.0, 497.0, 997.0,
     1497.0, 1997.0, 2997.0, 3997.0]

  /** The schedule as a table: each band's inclusive upper revenue bound and fee;
      revenue above the last bound pays `TopFee`. */
  const Bands: seq<(real, real)> :=
    [(100.0, 7.0), (200.0, 17.0), (400.0, 27.0), (701.0, 37.0), (1000.0, 47.0),
     (2000.0, 67.0), (4000.0, 77.0), (7100.0, 127.0), (10000.0, 197.0),
     (20000.0, 247.0), (30000.0, 497.0), (50000.0, 997.0), (70000.0, 1497.0),
     (100000.0, 1997.0), (150000.0, 2997.0)]
  const TopFee: real := 3997.0

  /** The fee for an estimated revenue: the if-chain of `calculatePublicationTax`. */
  function PublicationFee(revenue: real): (fee: real)
    ensures 7.0 <= fee <= TopFee
    ensures revenue > 150000.0 <==> fee == TopFee
  {
    if revenue <= 100.0 then 7.0
    else if revenue <= 200.0 then 17.0
    else if revenue <= 400.0 then 27.0
    else if revenue <= 701.0 then 37.0
    else if revenue <= 1000.0 then 47.0
    else if revenue <= 2000.0 then 67.0
    else if revenue <= 4000.0 then 77.0
    else if revenue <= 7100.0 then 127.0
    else if revenue <= 10000.0 then 197.0
    else if revenue <= 20000.0 then 247.0
    else if revenue <= 30000.0 then 497.0
    else if revenue <= 50000.0 then 997.0
    else if revenue <= 70000.0 then 1497.0
    else if revenue <= 100000.0 then 1997.0
    else if revenue <= 150000.0 then 2997.0
    else 3997.0
  }

  /** `CampaignAPI.calculatePublicationTax(totalTickets, ticketPrice)`. */
  function PublicationTax(totalTickets: real, ticketPrice: real): (fee: real)
    ensures fee in FeeValues
    ensures 7.0 <= fee <= 3997.0
    ensures totalTickets * ticketPrice <= 100.0 ==> fee == 7.0
    ensures totalTickets * ticketPrice > 150000.0 ==> fee == 3997.0
  {
    PublicationFee(totalTickets * ticketPrice)
  }

  /** Table lookup from band `i` on: the fee of the first band whose bound is at
      least `revenue`, or `TopFee` past the last band. */
  function FeeFrom(i: nat, revenue: real): real
    requires i <= |Bands|
    decreases |Bands| - i
  {
    if i == |Bands| then TopFee
    else if revenue <= Bands[i].0 then Bands[i].1
    else FeeFrom(i + 1, revenue)
  }

  /** Consecutive bands ascend in bound and in fee, and the last fee is below `TopFee`. */
  lemma BandsAscend()
    ensures forall i :: 0 <= i < |Bands| - 1 ==> Bands[i].0 < Bands[i + 1].0 && Bands[i].1 < Bands[i + 1].1
    ensures Bands[|Bands| - 1].1 < TopFee
  {
  }

  /** The if-chain agrees with the table for every revenue. */
  lemma FeeMatchesTable(revenue: real)
    ensures PublicationFee(revenue) == FeeFrom(0, revenue)
  {
    var i := 0;
    while i < |Bands| && revenue > Bands[i].0
      invariant 0 <= i <= |Bands|
      invariant FeeFrom(0, revenue) == FeeFrom(i, revenue)
      invariant forall k :: 0 <= k < i ==> revenue > Bands[k].0
    {
      i := i + 1;
    }
    if i == |Bands| {
      assert revenue > Bands[14].0;
    } else if i == 0 {
    } else {
      assert Bands[i - 1].0 < revenue <= Bands[i].0;
      assert 1 <= i <= 14;
      if i <= 7 {
        assert i == 1 || i == 2 || i == 3 || i == 4 || i == 5 || i == 6 || i == 7;
      } else {
        assert i == 8 || i == 9 || i == 10 || i == 11 || i == 12 || i == 13 || i == 14;
      }
    }
  }

  /** Past band `i`'s bound, the lookup pays more than band `i`. */
  lemma {:induction false} FeeFromAbove(i: nat, revenue: real)
    requires i < |Bands| && revenue > Bands[i].0
    ensures FeeFrom(i + 1, revenue) > Bands[i].1
    decreases |Bands| - i
  {
    BandsAscend();
    if i + 1 < |Bands| && revenue > Bands[i + 1].0 {
      FeeFromAbove(i + 1, revenue);
    }
  }

  /** The table lookup is monotone in the revenue. */
  lemma {:induction false} FeeFromMonotone(i: nat, r1: real, r2: real)
    requires i <= |Bands| && r1 <= r2
    ensures FeeFrom(i, r1) <= FeeFrom(i, r2)
    decreases |Bands| - i
  {
    if i < |Bands| && r1 > Bands[i].0 {
      FeeFromMonotone(i + 1, r1, r2);
    } else if i < |Bands| && r2 > Bands[i].0 {
      FeeFromAbove(i, r2);
    }
  }

  /** The fee never decreases when the revenue grows. */
  lemma FeeMonotone(r1: real, r2: real)
    requires r1 <= r2
    ensures PublicationFee(r1) <= PublicationFee(r2)
  {
    FeeMatchesTable(r1);
    FeeMatchesTable(r2);
    FeeFromMonotone(0, r1, r2);
  }

  /** The fee depends on the two arguments only through their product. */
  lemma TaxDependsOnRevenue(t1: real, p1: real, t2: real, p2: real)
    requires t1 * p1 == t2 * p2
    ensures PublicationTax(t1, p1) == PublicationTax(t2, p2)
  {
  }

  /** Band bounds are inclusive: 100 pays 7, 701 pays 37, 150000 pays 2997, and a
      cent above a bound moves to the next band. */
  lemma FeeBoundaries()
    ensures PublicationFee(100.0) == 7.0 && PublicationFee(100.01) == 17.0
    ensures PublicationFee(701.0) == 37.0 && PublicationFee(701.01) == 47.0
    ensures PublicationFee(150000.0) == 2997.0 && PublicationFee(150000.01) == 3997.0
  {
  }

  // ---------------------------------------------------------------------------
  // The record `createCampaign` inserts.

  const DayMs := 24 * 60 * 60 * 1000

  datatype Status = Draft | Active | Completed | Cancelled

  /** The insert payload: the parsed input, the owner, the counters and the dates
      as epoch milliseconds. */
  datatype CampaignInsert = CampaignInsert(
    data: CreateCampaignInput,
    userId: string,
    soldTickets: int,
    status: Status,
    startDate: int,
    endDate: int,
    expiresAt: int)

  /** The record built by `createCampaign`. `now` is the first clock reading (start
      and expiry); `endClock` is the second one, taken for the end date. */
  function NewCampaignRecord(data: CreateCampaignInput, userId: string, now: int, endClock: int)
    : (c: CampaignInsert)
    ensures c.data == data && c.userId == userId
    ensures c.soldTickets == 0 && c.status == Draft
    ensures c.startDate == now && c.expiresAt - c.startDate == 172800000
    ensures c.endDate == endClock + 30 * DayMs
  {
    CampaignInsert(data, userId, 0, Draft, now, endClock + 30 * DayMs, now + 2 * DayMs)
  }
}
