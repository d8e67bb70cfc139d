/** The two campaign schemas: `createCampaignSchema`, which the data layer's input
    must satisfy (field ranges, fixed enumerations, defaults and the cross-field
    chain min <= max <= total), and `campaignFormSchema`, the creation form's rules. */
module CampaignValidation {
  import opened Wrappers
  import opened Text

  const DrawMethods: seq<string> :=
    ["Loteria Federal", "Sorteador.com.br", "Live no Instagram", "Live no Youtube", "Live no TikTok", "Outros"]
  const InitialFilters: seq<string> := ["all", "available"]
  const CampaignModels: seq<string> := ["manual", "automatic"]

  const MaxTotalTickets := 10000000

  /** The fields of `createCampaignSchema`, in declaration order. */
  datatype CreateField =
    | Title | Description | TicketPrice | TotalTickets | DrawMethod | PhoneNumber
    | PaymentDeadlineHours | MinTicketsPerPurchase | MaxTicketsPerPurchase
    | InitialFilter | CampaignModel

  datatype Rule =
    | TooShort | TooLong | TooSmall | TooBig | NotInteger | NotInEnum | BadFormat
    | MinAboveMax | MaxAboveTotal

  datatype Issue = Issue(field: CreateField, rule: Rule)

  /** The object handed to the schema. Numbers are JavaScript numbers (`real`);
      `None` is a missing key, which a `.default(...)` fills in. */
  datatype RawCampaignInput = RawCampaignInput(
    title: string,
    description: Option<string>,
    ticketPrice: real,
    totalTickets: real,
    drawMethod: string,
    phoneNumber: string,
    drawDate: Option<string>,
    paymentDeadlineHours: Option<real>,
    requireEmail: Option<bool>,
    showRanking: Option<bool>,
    minTicketsPerPurchase: Option<real>,
    maxTicketsPerPurchase: Option<real>,
    initialFilter: Option<string>,
    campaignModel: Option<string>)

  /** `CreateCampaignInput`: what a successful parse returns. */
  datatype CreateCampaignInput = CreateCampaignInput(
    title: string,
    description: Option<string>,
    ticketPrice: real,
    totalTickets: int,
    drawMethod: string,
    phoneNumber: string,
    drawDate: Option<string>,
    paymentDeadlineHours: int,
    requireEmail: bool,
    showRanking: bool,
    minTicketsPerPurchase: int,
    maxTicketsPerPurchase: int,
    initialFilter: string,
    campaignModel: string)

  /** `.int()`: the number has no fractional part. */
  predicate IsInteger(x: real) {
    x == x.Floor as real
  }

  /** The character class of `/^[\d\s\-\(\)\+]+$/`. */
  predicate IsPhoneChar(c: char) {
    IsDigit(c) || IsWhitespace(c) || c == '-' || c == '(' || c == ')' || c == '+'
  }

  /** The failing checks of one `z.number().int().min(lo).max(hi)` field, in order. */
  function IntRangeIssues(f: CreateField, x: real, lo: int, hi: int): seq<Issue> {
    (if IsInteger(x) then [] else [Issue(f, NotInteger)])
    + (if x >= lo as real then [] else [Issue(f, TooSmall)])
    + (if x <= hi as real then [] else [Issue(f, TooBig)])
  }

  function FieldIssues(raw: RawCampaignInput): seq<Issue> {
    var hours := raw.paymentDeadlineHours.GetOr(24.0);
    var minT := raw.minTicketsPerPurchase.GetOr(1.0);
    var maxT := raw.maxTicketsPerPurchase.GetOr(1000.0);
    (if |raw.title| >= 3 then [] else [Issue(Title, TooShort)])
    + (if |raw.title| <= 100 then [] else [Issue(Title, TooLong)])
    + (if raw.description.None? || |raw.description.value| <= 2000 then [] else [Issue(Description, TooLong)])
    + (if raw.ticketPrice >= 0.01 then [] else [Issue(TicketPrice, TooSmall)])
    + (if raw.ticketPrice <= 10000.0 then [] else [Issue(TicketPrice, TooBig)])
    + IntRangeIssues(TotalTickets, raw.totalTickets, 1, MaxTotalTickets)
    + (if raw.drawMethod in DrawMethods then [] else [Issue(DrawMethod, NotInEnum)])
    + (if |raw.phoneNumber| >= 10 then [] else [Issue(PhoneNumber, TooShort)])
    + (if |raw.phoneNumber| <= 20 then [] else [Issue(PhoneNumber, TooLong)])
    + (if |raw.phoneNumber| > 0 && forall i :: 0 <= i < |raw.phoneNumber| ==> IsPhoneChar(raw.phoneNumber[i])
       then [] else [Issue(PhoneNumber, BadFormat)])
    + IntRangeIssues(PaymentDeadlineHours, hours, 1, 168)
    + (if IsInteger(minT) then [] else [Issue(MinTicketsPerPurchase, NotInteger)])
    + (if minT >= 1.0 then [] else [Issue(MinTicketsPerPurchase, TooSmall)])
    + (if IsInteger(maxT) then [] else [Issue(MaxTicketsPerPurchase, NotInteger)])
    + (if maxT >= 1.0 then [] else [Issue(MaxTicketsPerPurchase, TooSmall)])
    + (if raw.initialFilter.GetOr("all") in InitialFilters then [] else [Issue(InitialFilter, NotInEnum)])
    + (if raw.campaignModel.GetOr("manual") in CampaignModels then [] else [Issue(CampaignModel, NotInEnum)])
  }

  /** The two `.refine` steps, in order: min <= max, then max <= total. */
  function RefinementIssues(raw: RawCampaignInput): seq<Issue> {
    var minT := raw.minTicketsPerPurchase.GetOr(1.0);
    var maxT := raw.maxTicketsPerPurchase.GetOr(1000.0);
    (if minT <= maxT then [] else [Issue(MinTicketsPerPurchase, MinAboveMax)])
    + (if maxT <= raw.totalTickets then [] else [Issue(MaxTicketsPerPurchase, MaxAboveTotal)])
  }

  /** `createCampaignSchema.parse(raw)`: the parsed input with defaults applied and
      the title trimmed, or the issues found. */
  function ParseCreateCampaign(raw: RawCampaignInput): (r: Result<CreateCampaignInput, seq<Issue>>)
    ensures r.Success? <==> FieldIssues(raw) == [] && RefinementIssues(raw) == []
    ensures r.Failure? ==> r.error != []
    ensures r.Failure? && FieldIssues(raw) == [] ==> r.error == RefinementIssues(raw)
  {
    var fieldIssues := FieldIssues(raw);
    if fieldIssues != [] then Failure(fieldIssues)
    else if RefinementIssues(raw) != [] then Failure(RefinementIssues(raw))
    else Success(CreateCampaignInput(
      Trim(raw.title), raw.description, raw.ticketPrice, raw.totalTickets.Floor,
      raw.drawMethod, raw.phoneNumber, raw.drawDate,
      raw.paymentDeadlineHours.GetOr(24.0).Floor, raw.requireEmail.GetOr(true),
      raw.showRanking.GetOr(false), raw.minTicketsPerPurchase.GetOr(1.0).Floor,
      raw.maxTicketsPerPurchase.GetOr(1000.0).Floor, raw.initialFilter.GetOr("all"),
      raw.campaignModel.GetOr("manual")))
  }

  /** The invariant every accepted campaign satisfies. */
  predicate ValidCampaign(c: CreateCampaignInput) {
    && 0.01 <= c.ticketPrice <= 10000.0
    && 1 <= c.minTicketsPerPurchase <= c.maxTicketsPerPurchase <= c.totalTickets <= MaxTotalTickets
    && 1 <= c.paymentDeadlineHours <= 168
    && 10 <= |c.phoneNumber| <= 20
    && (forall i :: 0 <= i < |c.phoneNumber| ==> IsPhoneChar(c.phoneNumber[i]))
    && c.drawMethod in DrawMethods
    && c.initialFilter in InitialFilters
    && c.campaignModel in CampaignModels
    && (c.description.Some? ==> |c.description.value| <= 2000)
  }

  lemma IntRangeIssuesEmpty(f: CreateField, x: real, lo: int, hi: int)
    ensures IntRangeIssues(f, x, lo, hi) == [] <==> IsInteger(x) && lo as real <= x <= hi as real
  {
  }

  /** Soundness: whatever the schema accepts meets every field rule and both
      refinements, with the raw title's length in 3..100 and the defaults applied. */
  lemma ParseSound(raw: RawCampaignInput)
    requires ParseCreateCampaign(raw).Success?
    ensures ValidCampaign(ParseCreateCampaign(raw).value)
    ensures 3 <= |raw.title| <= 100
    ensures ParseCreateCampaign(raw).value.title == Trim(raw.title)
    ensures raw.paymentDeadlineHours.None? ==> ParseCreateCampaign(raw).value.paymentDeadlineHours == 24
    ensures raw.minTicketsPerPurchase.None? ==> ParseCreateCampaign(raw).value.minTicketsPerPurchase == 1
    ensures raw.maxTicketsPerPurchase.None? ==> ParseCreateCampaign(raw).value.maxTicketsPerPurchase == 1000
  {
    var c := ParseCreateCampaign(raw).value;
    var hours := raw.paymentDeadlineHours.GetOr(24.0);
    var minT := raw.minTicketsPerPurchase.GetOr(1.0);
    var maxT := raw.maxTicketsPerPurchase.GetOr(1000.0);
    IntRangeIssuesEmpty(TotalTickets, raw.totalTickets, 1, MaxTotalTickets);
    IntRangeIssuesEmpty(PaymentDeadlineHours, hours, 1, 168);
    assert IsInteger(minT) && IsInteger(maxT);
    assert c.minTicketsPerPurchase as real == minT;
    assert c.maxTicketsPerPurchase as real == maxT;
    assert c.totalTickets as real == raw.totalTickets;
  }

  /** Completeness: an input meeting every rule is accepted. */
  lemma ParseComplete(raw: RawCampaignInput)
    requires 3 <= |raw.title| <= 100
    requires raw.description.Some? ==> |raw.description.value| <= 2000
    requires 0.01 <= raw.ticketPrice <= 10000.0
    requires IsInteger(raw.totalTickets) && 1.0 <= raw.totalTickets <= MaxTotalTickets as real
    requires raw.drawMethod in DrawMethods
    requires 10 <= |raw.phoneNumber| <= 20
    requires forall i :: 0 <= i < |raw.phoneNumber| ==> IsPhoneChar(raw.phoneNumber[i])
    requires IsInteger(raw.paymentDeadlineHours.GetOr(24.0))
    requires 1.0 <= raw.paymentDeadlineHours.GetOr(24.0) <= 168.0
    requires IsInteger(raw.minTicketsPerPurchase.GetOr(1.0))
    requires IsInteger(raw.maxTicketsPerPurchase.GetOr(1000.0))
    requires 1.0 <= raw.minTicketsPerPurchase.GetOr(1.0) <= raw.maxTicketsPerPurchase.GetOr(1000.0) <= raw.totalTickets
    requires raw.initialFilter.GetOr("all") in InitialFilters
    requires raw.campaignModel.GetOr("manual") in CampaignModels
    ensures ParseCreateCampaign(raw).Success?
  {
    IntRangeIssuesEmpty(TotalTickets, raw.totalTickets, 1, MaxTotalTickets);
    IntRangeIssuesEmpty(PaymentDeadlineHours, raw.paymentDeadlineHours.GetOr(24.0), 1, 168);
  }

  /** A title outside 3..100 characters, a price outside [0.01, 10000] or a ticket
      count that is not an integer in 1..10,000,000 is always refused. */
  lemma ParseRejects(raw: RawCampaignInput)
    requires || |raw.title| < 3 || |raw.title| > 100
             || raw.ticketPrice < 0.01 || raw.ticketPrice > 10000.0
             || !IsInteger(raw.totalTickets) || raw.totalTickets < 1.0 || raw.totalTickets > MaxTotalTickets as real
    ensures ParseCreateCampaign(raw).Failure?
  {
    IntRangeIssuesEmpty(TotalTickets, raw.totalTickets, 1, MaxTotalTickets);
  }

  // ---------------------------------------------------------------------------
  // campaignFormSchema: the creation form's own rules.

  datatype FilterChoice = All | Available
  datatype ModelChoice = Manual | Automatic

  /** `CampaignFormInput`. `ticketQuantity` is `None` for `NaN` (the select's
      empty option parsed with `parseInt`). */
  datatype CampaignForm = CampaignForm(
    title: string,
    ticketQuantity: Option<int>,
    ticketPrice: string,
    drawMethod: string,
    phoneNumber: string,
    drawDate: Option<string>,
    paymentDeadlineHours: int,
    requireEmail: bool,
    showRanking: bool,
    minTicketsPerPurchase: int,
    maxTicketsPerPurchase: int,
    initialFilter: FilterChoice,
    campaignModel: ModelChoice)

  datatype FormField =
    | FTitle | FTicketQuantity | FTicketPrice | FDrawMethod | FPhoneNumber
    | FPaymentDeadlineHours | FMinTickets | FMaxTickets

  datatype FormRule =
    | FTooShort | FTooLong | FNotNumber | FTooSmall | FTooBig | FBadPriceFormat | FPriceTooLow | FPriceTooHigh

  datatype FormIssue = FormIssue(field: FormField, rule: FormRule)

  /** The numeric value the price refinements see: `parseFloat(value.replace(',', '.'))`. */
  function FormPriceNumber(price: string): Option<real> {
    ParseFloat(ReplaceFirst(price, ',', '.'))
  }

  /** The price checks in order: the regex `^\d+,\d{2}$`, then `>= 0.01`, then
      `<= 10000` (a `NaN` fails both comparisons). */
  function PriceIssues(price: string): seq<FormIssue> {
    var v := FormPriceNumber(price);
    (if PriceShape(price) then [] else [FormIssue(FTicketPrice, FBadPriceFormat)])
    + (if v.Some? && v.value >= 0.01 then [] else [FormIssue(FTicketPrice, FPriceTooLow)])
    + (if v.Some? && v.value <= 10000.0 then [] else [FormIssue(FTicketPrice, FPriceTooHigh)])
  }

  /** Every failing check of `campaignFormSchema`, in field order. */
  function FormIssues(form: CampaignForm): seq<FormIssue> {
    (if |form.title| >= 3 then [] else [FormIssue(FTitle, FTooShort)])
    + (if |form.title| <= 100 then [] else [FormIssue(FTitle, FTooLong)])
    + (match form.ticketQuantity
       case None => [FormIssue(FTicketQuantity, FNotNumber)]
       case Some(q) =>
         (if q >= 1 then [] else [FormIssue(FTicketQuantity, FTooSmall)])
         + (if q <= MaxTotalTickets then [] else [FormIssue(FTicketQuantity, FTooBig)]))
    + PriceIssues(form.ticketPrice)
    + (if |form.drawMethod| >= 1 then [] else [FormIssue(FDrawMethod, FTooShort)])
    + (if |form.phoneNumber| >= 10 then [] else [FormIssue(FPhoneNumber, FTooShort)])
    + (if form.paymentDeadlineHours >= 1 then [] else [FormIssue(FPaymentDeadlineHours, FTooSmall)])
    + (if form.paymentDeadlineHours <= 168 then [] else [FormIssue(FPaymentDeadlineHours, FTooBig)])
    + (if form.minTicketsPerPurchase >= 1 then [] else [FormIssue(FMinTickets, FTooSmall)])
    + (if form.maxTicketsPerPurchase >= 1 then [] else [FormIssue(FMaxTickets, FTooSmall)])
  }

  /** The value in cents of a price-shaped string. */
  function PriceCents(price: string): (c: nat)
    requires PriceShape(price)
  {
    PriceShapeDigits(price);
    Value(Digits(price))
  }

  /** An amount of cents in reais. */
  function Reais(cents: nat): (r: real)
    ensures r * 100.0 == cents as real
  {
    cents as real / 100.0
  }

  /** `parseFloat` of a price-shaped string with its comma turned into a dot is the
      cents value divided by 100. */
  lemma PriceNumberOfShape(price: string)
    requires PriceShape(price)
    ensures FormPriceNumber(price) == Some(Reais(PriceCents(price)))
  {
    var n := |price|;
    var whole, frac := price[..n - 3], price[n - 2..];
    assert price == whole + [','] + frac;
    ReplaceFirstShape(whole, frac);
    ParseFloatPointForm(whole, frac);
    PointValueCents(whole, frac);
    PriceShapeDigits(price);
  }

  /** `whole.ff` read as a number is the cents `whole ff` in reais. */
  lemma PointValueCents(whole: string, frac: string)
    requires AllDigits(whole) && AllDigits(frac) && |frac| == 2
    ensures AllDigits(whole + frac)
    ensures PointValue(whole, frac) == Reais(Value(whole + frac))
  {
    ValueAppend(whole, frac);
    assert Pow10(|frac|) == 100;
    CentsArithmetic(Value(whole), Value(frac));
  }

  lemma CentsArithmetic(w: nat, f: nat)
    ensures w as real + f as real / 100.0 == Reais(w * 100 + f)
  {
  }

  /** `parseFloat` of `digits.digits` is the whole part plus the scaled fraction. */
  lemma ParseFloatPointForm(whole: string, frac: string)
    requires AllDigits(whole) && AllDigits(frac) && whole != []
    ensures ParseFloat(whole + ['.'] + frac) == Some(PointValue(whole, frac))
  {
    var rest := ['.'] + frac;
    var t := whole + rest;
    assert whole + ['.'] + frac == t;
    LeadingDigitsStop(whole, rest);
    assert t[|whole|..] == rest;
    assert rest[1..] == frac;
    LeadingDigitsOfDigits(frac);
  }

  lemma {:induction false} ReplaceFirstShape(whole: string, frac: string)
    requires AllDigits(whole)
    ensures ReplaceFirst(whole + [','] + frac, ',', '.') == whole + ['.'] + frac
  {
    if whole == [] {
      assert [','] + frac == [','] + frac;
      assert ([','] + frac)[1..] == frac;
    } else {
      assert (whole + [','] + frac)[1..] == whole[1..] + [','] + frac;
      ReplaceFirstShape(whole[1..], frac);
      assert whole + ['.'] + frac == [whole[0]] + (whole[1..] + ['.'] + frac);
    }
  }

  /** The form's price rule: accepted exactly when the string has the shape
      digits-comma-two-digits and its value lies between 0,01 and 10.000,00. */
  lemma PriceRule(price: string)
    ensures PriceIssues(price) == [] <==> PriceShape(price) && 1 <= PriceCents(price) <= 1000000
  {
    if PriceShape(price) {
      PriceNumberOfShape(price);
    }
  }
}
