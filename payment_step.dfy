/** The third creation step: the summary values with their fallbacks, the image
    carousel, the payment-method choice and the fee arithmetic. */
module PaymentStep {
  import opened Wrappers
  import CampaignApi

  /** `campaign?.total_tickets || 100`: a missing or zero count shows 100. */
  function TicketsShown(totalTickets: Option<int>): (n: int)
    ensures totalTickets.None? || totalTickets.value == 0 ==> n == 100
    ensures totalTickets.Some? && totalTickets.value != 0 ==> n == totalTickets.value
  {
    match totalTickets
    case Some(t) => if t != 0 then t else 100
    case None => 100
  }

  /** `campaign?.ticket_price || 1.00`. */
  function PriceShown(ticketPrice: Option<real>): (p: real)
    ensures ticketPrice.None? || ticketPrice.value == 0.0 ==> p == 1.0
    ensures ticketPrice.Some? && ticketPrice.value != 0.0 ==> p == ticketPrice.value
  {
    match ticketPrice
    case Some(v) => if v != 0.0 then v else 1.0
    case None => 1.0
  }

  /** The stock picture shown when the campaign has no image list. */
  const DefaultImage: string := "https://images.pexels.com/photos/442576/pexels-photo-442576.jpeg?auto=compress&cs=tinysrgb&w=1260&h=750&dpr=1"

  /** `campaign?.prize_image_urls || [default]`: an empty list is kept as it is. */
  function ImagesShown(urls: Option<seq<string>>): (images: seq<string>)
    ensures urls.None? ==> images == [DefaultImage]
    ensures urls.Some? ==> images == urls.value
  {
    urls.GetOr([DefaultImage])
  }

  // ---------------------------------------------------------------------------
  // The carousel.

  /** `handleNextImage` on `count` images. */
  function NextIndex(index: int, count: int): (next: int)
    ensures 0 <= index < count ==> 0 <= next < count
    ensures index == count - 1 ==> next == 0
  {
    if index == count - 1 then 0 else index + 1
  }

  /** `handlePreviousImage` on `count` images. */
  function PreviousIndex(index: int, count: int): (previous: int)
    ensures 0 <= index < count ==> 0 <= previous < count
    ensures index == 0 ==> previous == count - 1
  {
    if index == 0 then count - 1 else index - 1
  }

  /** On an index in range, the two buttons step around the circle of images. */
  lemma StepsAreModular(index: int, count: int)
    requires 0 <= index < count
    ensures NextIndex(index, count) == (index + 1) % count
    ensures PreviousIndex(index, count) == (index - 1) % count
  {
    if index == count - 1 {
      ModSelf(count);
    } else {
      ModSmall(index + 1, count);
    }
    if index == 0 {
      ModMinusOne(count);
    } else {
      ModSmall(index - 1, count);
    }
  }

  lemma ModSmall(a: int, count: int)
    requires 0 <= a < count
    ensures a % count == a
  {
  }

  lemma ModSelf(count: int)
    requires count > 0
    ensures count % count == 0
  {
  }

  lemma ModMinusOne(count: int)
    requires count > 0
    ensures (-1) % count == count - 1
  {
  }

  /** Next then previous, or previous then next, returns to the start. */
  lemma NextPreviousInverse(index: int, count: int)
    requires 0 <= index < count
    ensures PreviousIndex(NextIndex(index, count), count) == index
    ensures NextIndex(PreviousIndex(index, count), count) == index
  {
  }

  datatype PaymentMethod = Pix | Card

  /** The page's state. The image list is the one the page shows for the fetched
      campaign. */
  class Step3Page {
    var selectedPaymentMethod: PaymentMethod
    var currentImageIndex: int
    const imageCount: nat

    /** The shown image is one of the list whenever the list has one. */
    predicate Valid()
      reads this
    {
      imageCount >= 1 ==> 0 <= currentImageIndex < imageCount
    }

    constructor(images: seq<string>)
      ensures imageCount == |images|
      ensures selectedPaymentMethod == Pix && currentImageIndex == 0 && Valid()
    {
      imageCount := |images|;
      selectedPaymentMethod := Pix;
      currentImageIndex := 0;
    }

    /** The arrows exist only with more than one image. */
    method HandlePreviousImage()
      requires Valid() && imageCount > 1
      modifies this
      ensures currentImageIndex == PreviousIndex(old(currentImageIndex), imageCount)
      ensures selectedPaymentMethod == old(selectedPaymentMethod) && Valid()
    {
      currentImageIndex := PreviousIndex(currentImageIndex, imageCount);
    }

    method HandleNextImage()
      requires Valid() && imageCount > 1
      modifies this
      ensures currentImageIndex == NextIndex(old(currentImageIndex), imageCount)
      ensures selectedPaymentMethod == old(selectedPaymentMethod) && Valid()
    {
      currentImageIndex := NextIndex(currentImageIndex, imageCount);
    }

    /** A thumbnail click; thumbnails are drawn one per image. */
    method SelectThumbnail(index: nat)
      requires Valid() && index < imageCount
      modifies this
      ensures currentImageIndex == index
      ensures selectedPaymentMethod == old(selectedPaymentMethod) && Valid()
    {
      currentImageIndex := index;
    }

    method SelectPaymentMethod(m: PaymentMethod)
      modifies this
      ensures selectedPaymentMethod == m && currentImageIndex == old(currentImageIndex)
    {
      selectedPaymentMethod := m;
    }
  }

  // ---------------------------------------------------------------------------
  // The fees.

  datatype Fees = Fees(revenue: real, publication: real, card: real, total: real)

  /** The card surcharge: 3.99% of the revenue plus 0.39, nothing for Pix. */
  function CardFee(revenue: real, m: PaymentMethod): real {
    if m == Card then revenue * 0.0399 + 0.39 else 0.0
  }

  /** The fees as the page computes them: the publication fee is the constant
      7.00 whatever the revenue. */
  function ShownFees(totalTickets: real, ticketPrice: real, m: PaymentMethod): (f: Fees)
    ensures f.revenue == totalTickets * ticketPrice && f.publication == 7.0
    ensures f.total == f.publication + f.card
    ensures m == Pix ==> f.card == 0.0 && f.total == 7.0
    ensures m == Card && f.revenue >= 0.0 ==> f.card >= 0.39
  {
    var revenue := totalTickets * ticketPrice;
    Fees(revenue, 7.0, CardFee(revenue, m), 7.0 + CardFee(revenue, m))
  }

  /** The fees with the publication fee taken from the schedule the campaign
      layer charges. */
  function ScheduledFees(totalTickets: real, ticketPrice: real, m: PaymentMethod): (f: Fees)
    ensures f.revenue == totalTickets * ticketPrice
    ensures f.publication == CampaignApi.PublicationTax(totalTickets, ticketPrice)
    ensures f.total == f.publication + f.card
    ensures f.card == ShownFees(totalTickets, ticketPrice, m).card
  {
    var revenue := totalTickets * ticketPrice;
    var publication := CampaignApi.PublicationTax(totalTickets, ticketPrice);
    Fees(revenue, publication, CardFee(revenue, m), publication + CardFee(revenue, m))
  }

  /** Above 100 of revenue the schedule charges more than 7. */
  lemma ScheduleAboveBase(revenue: real)
    requires revenue > 100.0
    ensures CampaignApi.PublicationFee(revenue) >= 17.0
  {
  }

  /** The constant fee is the schedule's fee exactly up to 100 of revenue. */
  lemma ShownFeesMatchScheduleIff(totalTickets: real, ticketPrice: real, m: PaymentMethod)
    ensures ShownFees(totalTickets, ticketPrice, m) == ScheduledFees(totalTickets, ticketPrice, m)
        <==> totalTickets * ticketPrice <= 100.0
  {
    if totalTickets * ticketPrice > 100.0 {
      ScheduleAboveBase(totalTickets * ticketPrice);
    }
  }

  /** 1000 tickets at 1.00: the page shows 7.00, the schedule charges 47.00. */
  lemma ShownFeeUndercharges()
    ensures ShownFees(1000.0, 1.0, Pix).publication == 7.0
    ensures ScheduledFees(1000.0, 1.0, Pix).publication == 47.0
  {
  }

  /** Paying by card costs exactly the surcharge more than paying by Pix. */
  lemma CardCostsSurcharge(totalTickets: real, ticketPrice: real)
    ensures ScheduledFees(totalTickets, ticketPrice, Card).total
        == ScheduledFees(totalTickets, ticketPrice, Pix).total + totalTickets * ticketPrice * 0.0399 + 0.39
  {
  }
}
