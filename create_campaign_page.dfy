/** The first step of campaign creation: the price mask, the per-field edit handler,
    the form validation that fills the error map, the conversion to the data-layer
    shape, the publish gate and the draft-save guard. */
module CreateCampaign {
  import opened Wrappers
  import opened Text
  import opened CampaignValidation

  // ---------------------------------------------------------------------------
  // The price mask.

  /** `formatCurrency`: keep only the digits, read them as a number of cents and
      write that amount in reais with two decimals and a decimal comma. */
  function FormatCurrency(value: string): (r: string)
    ensures Digits(value) == [] ==> r == "0,00"
    ensures PriceShape(r)
    ensures Value(Digits(r)) == Value(Digits(value))
  {
    var numeric := Digits(value);
    if numeric == [] then
      ZeroCentsText();
      "0,00"
    else
      CentsTextFacts(Value(numeric));
      CentsText(Value(numeric))
  }

  /** Zero cents is written "0,00". */
  lemma ZeroCentsText()
    ensures CentsText(0) == "0,00"
    ensures PriceShape("0,00") && Value(Digits("0,00")) == 0
  {
    assert Decimal(0) == "0";
    CentsTextFacts(0);
  }

  /** Masking the mask's own output changes nothing. */
  lemma FormatCurrencyIdempotent(value: string)
    ensures FormatCurrency(FormatCurrency(value)) == FormatCurrency(value)
  {
    var r := FormatCurrency(value);
    PriceShapeDigits(r);
    assert Digits(r) != [];
    if Digits(value) == [] {
      ZeroCentsText();
    }
  }

  /** A masked price passes the form's price rule exactly when the typed digits
      are between 1 cent and 10000,00. */
  lemma FormatCurrencyPriceRule(value: string)
    ensures PriceIssues(FormatCurrency(value)) == [] <==> 1 <= Value(Digits(value)) <= 1000000
  {
    PriceRule(FormatCurrency(value));
  }

  // ---------------------------------------------------------------------------
  // Edits and the error map.

  /** The edits the page sends through `handleInputChange`. The quantity comes from
      `parseInt` on the selected option (`None` for `NaN`). */
  datatype Edit =
    | EditTitle(title: string)
    | EditTicketQuantity(quantity: Option<int>)
    | EditDrawMethod(drawMethod: string)
    | EditPhoneNumber(phone: string)

  function EditedField(e: Edit): FormField {
    match e
    case EditTitle(_) => FTitle
    case EditTicketQuantity(_) => FTicketQuantity
    case EditDrawMethod(_) => FDrawMethod
    case EditPhoneNumber(_) => FPhoneNumber
  }

  /** `f` and `g` agree on every form field except possibly `k`. */
  predicate SameExcept(f: CampaignForm, g: CampaignForm, k: FormField) {
    && (k != FTitle ==> g.title == f.title)
    && (k != FTicketQuantity ==> g.ticketQuantity == f.ticketQuantity)
    && (k != FTicketPrice ==> g.ticketPrice == f.ticketPrice)
    && (k != FDrawMethod ==> g.drawMethod == f.drawMethod)
    && (k != FPhoneNumber ==> g.phoneNumber == f.phoneNumber)
    && (k != FPaymentDeadlineHours ==> g.paymentDeadlineHours == f.paymentDeadlineHours)
    && (k != FMinTickets ==> g.minTicketsPerPurchase == f.minTicketsPerPurchase)
    && (k != FMaxTickets ==> g.maxTicketsPerPurchase == f.maxTicketsPerPurchase)
    && g.drawDate == f.drawDate && g.requireEmail == f.requireEmail && g.showRanking == f.showRanking
    && g.initialFilter == f.initialFilter && g.campaignModel == f.campaignModel
  }

  /** The form holds the value the edit carries. */
  predicate Carries(f: CampaignForm, e: Edit) {
    match e
    case EditTitle(t) => f.title == t
    case EditTicketQuantity(q) => f.ticketQuantity == q
    case EditDrawMethod(m) => f.drawMethod == m
    case EditPhoneNumber(p) => f.phoneNumber == p
  }

  /** `{ ...prev, [field]: value }`. */
  function ApplyEdit(f: CampaignForm, e: Edit): (g: CampaignForm)
    ensures SameExcept(f, g, EditedField(e)) && Carries(g, e)
  {
    match e
    case EditTitle(t) => f.(title := t)
    case EditTicketQuantity(q) => f.(ticketQuantity := q)
    case EditDrawMethod(m) => f.(drawMethod := m)
    case EditPhoneNumber(p) => f.(phoneNumber := p)
  }

  /** What the error map holds for a field: a failed form rule, or the draft
      guard's "title required" message. Every message is a non-empty text. */
  datatype FieldError = Broken(rule: FormRule) | TitleRequiredForDraft

  /** The error map `validateForm` builds: each issue overwrites its field's entry,
      so the last issue per field wins. */
  function IssueMap(issues: seq<FormIssue>): map<FormField, FieldError> {
    if issues == [] then map[]
    else
      var last := issues[|issues| - 1];
      IssueMap(issues[..|issues| - 1])[last.field := Broken(last.rule)]
  }

  /** The loop of `validateForm` that records each issue under its field, a later
      issue overwriting an earlier one. */
  method CollectIssues(issues: seq<FormIssue>) returns (collected: map<FormField, FieldError>)
    ensures collected == IssueMap(issues)
  {
    collected := map[];
    var i := 0;
    while i < |issues|
      invariant 0 <= i <= |issues|
      invariant collected == IssueMap(issues[..i])
    {
      assert issues[..i + 1][..i] == issues[..i];
      collected := collected[issues[i].field := Broken(issues[i].rule)];
      i := i + 1;
    }
    assert issues[..|issues|] == issues;
  }

  /** A field has an entry exactly when some issue is about it, and the entry is
      the rule of the last such issue. */
  lemma {:induction false} IssueMapLast(issues: seq<FormIssue>, k: FormField)
    ensures k in IssueMap(issues) <==> exists i :: 0 <= i < |issues| && issues[i].field == k
    ensures k in IssueMap(issues) ==>
      exists i :: 0 <= i < |issues| && issues[i].field == k && IssueMap(issues)[k] == Broken(issues[i].rule)
              && forall j :: i < j < |issues| ==> issues[j].field != k
  {
    if issues != [] {
      var n := |issues| - 1;
      var init := issues[..n];
      IssueMapLast(init, k);
      if issues[n].field == k {
        assert IssueMap(issues)[k] == Broken(issues[n].rule);
      } else {
        assert k in IssueMap(issues) <==> k in IssueMap(init);
        if k in IssueMap(init) {
          var i :| 0 <= i < |init| && init[i].field == k && IssueMap(init)[k] == Broken(init[i].rule)
                   && forall j :: i < j < |init| ==> init[j].field != k;
          assert issues[i] == init[i];
          assert forall j :: i < j < |issues| ==> issues[j].field != k by {
            forall j | i < j < |issues| ensures issues[j].field != k {
              if j < n { assert issues[j] == init[j]; }
            }
          }
        } else {
          forall i | 0 <= i < |issues| ensures issues[i].field != k {
            if i < n { assert issues[i] == init[i]; }
          }
        }
      }
    }
  }

  // ---------------------------------------------------------------------------
  // Conversion for the data layer.

  /** The object `convertFormDataToAPI` returns. `ticketPrice` is `None` when
      `parseFloat` yields `NaN`; `description` is always null at this step. */
  datatype ApiCampaignData = ApiCampaignData(
    title: string,
    description: Option<string>,
    ticketPrice: Option<real>,
    totalTickets: Option<int>,
    drawMethod: string,
    phoneNumber: string,
    drawDate: Option<string>,
    paymentDeadlineHours: int,
    requireEmail: bool,
    showRanking: bool,
    minTicketsPerPurchase: int,
    maxTicketsPerPurchase: int,
    initialFilter: FilterChoice,
    campaignModel: ModelChoice)

  /** `convertFormDataToAPI`: fields renamed and copied, the price string read as
      a number after its first comma becomes a point. */
  function ConvertFormDataToApi(f: CampaignForm): (d: ApiCampaignData)
    ensures d.description == None
    ensures d.ticketPrice == FormPriceNumber(f.ticketPrice)
    ensures d.title == f.title && d.totalTickets == f.ticketQuantity && d.drawMethod == f.drawMethod
    ensures d.phoneNumber == f.phoneNumber && d.drawDate == f.drawDate
    ensures d.paymentDeadlineHours == f.paymentDeadlineHours
    ensures d.requireEmail == f.requireEmail && d.showRanking == f.showRanking
    ensures d.minTicketsPerPurchase == f.minTicketsPerPurchase
    ensures d.maxTicketsPerPurchase == f.maxTicketsPerPurchase
    ensures d.initialFilter == f.initialFilter && d.campaignModel == f.campaignModel
  {
    ApiCampaignData(
      f.title, None, FormPriceNumber(f.ticketPrice), f.ticketQuantity, f.drawMethod, f.phoneNumber,
      f.drawDate, f.paymentDeadlineHours, f.requireEmail, f.showRanking,
      f.minTicketsPerPurchase, f.maxTicketsPerPurchase, f.initialFilter, f.campaignModel)
  }

  /** A price in the form's format reaches the data layer as its cents over 100. */
  lemma ConvertedPriceOfShape(f: CampaignForm, cents: nat)
    requires PriceShape(f.ticketPrice) && PriceCents(f.ticketPrice) == cents
    ensures ConvertFormDataToApi(f).ticketPrice == Some(Reais(cents))
  {
    PriceNumberOfShape(f.ticketPrice);
  }

  /** A price typed through the mask reaches the data layer as its digits read in
      cents. */
  lemma MaskedPriceConverts(f: CampaignForm, typed: string)
    requires f.ticketPrice == FormatCurrency(typed)
    ensures ConvertFormDataToApi(f).ticketPrice == Some(Reais(Value(Digits(typed))))
  {
    MaskedPriceCents(typed);
    ConvertedPriceOfShape(f, Value(Digits(typed)));
  }

  /** The mask's output, read back in cents, is the typed digits' value. */
  lemma MaskedPriceCents(typed: string)
    ensures PriceShape(FormatCurrency(typed))
    ensures PriceCents(FormatCurrency(typed)) == Value(Digits(typed))
  {
  }

  // ---------------------------------------------------------------------------
  // The publish gate.

  /** The required fields, in the order the alert lists them. */
  datatype Required = RequiredTitle | RequiredQuantity | RequiredPrice | RequiredDrawMethod | RequiredPhone

  function Rank(r: Required): nat {
    match r
    case RequiredTitle => 0
    case RequiredQuantity => 1
    case RequiredPrice => 2
    case RequiredDrawMethod => 3
    case RequiredPhone => 4
  }

  /** The five checks of `handlePublish`: a blank title or phone, a quantity that
      is `NaN` or not positive, an empty or "0,00" price, an empty draw method. */
  predicate IsMissing(f: CampaignForm, r: Required) {
    match r
    case RequiredTitle => IsBlank(f.title)
    case RequiredQuantity => f.ticketQuantity.None? || f.ticketQuantity.value <= 0
    case RequiredPrice => f.ticketPrice == [] || f.ticketPrice == "0,00"
    case RequiredDrawMethod => f.drawMethod == []
    case RequiredPhone => IsBlank(f.phoneNumber)
  }

  /** Ranks strictly ascend along a list. */
  predicate InOrder(m: seq<Required>) {
    forall i, j :: 0 <= i < j < |m| ==> Rank(m[i]) < Rank(m[j])
  }

  /** A field ranked below every field of an ordered list can go in front. */
  lemma InOrderCons(x: Required, rest: seq<Required>)
    requires InOrder(rest) && forall y :: y in rest ==> Rank(x) < Rank(y)
    ensures InOrder([x] + rest)
  {
    var m := [x] + rest;
    forall i, j | 0 <= i < j < |m| ensures Rank(m[i]) < Rank(m[j]) {
      assert m[j] == rest[j - 1] && m[j] in rest;
      if i > 0 {
        assert m[i] == rest[i - 1];
      }
    }
  }

  /** The tail of an ordered list is ordered and ranks above its head. */
  lemma InOrderTail(checks: seq<Required>)
    requires InOrder(checks) && checks != []
    ensures InOrder(checks[1..])
    ensures forall x :: x in checks[1..] ==> Rank(checks[0]) < Rank(x)
  {
    forall x | x in checks[1..] ensures Rank(checks[0]) < Rank(x) {
      var k :| 0 <= k < |checks[1..]| && checks[1..][k] == x;
      assert checks[k + 1] == x;
    }
  }

  /** Each check in turn pushes its field when it is missing. */
  function PushMissing(f: CampaignForm, checks: seq<Required>): (m: seq<Required>)
    requires InOrder(checks)
    ensures forall x :: x in m <==> x in checks && IsMissing(f, x)
    ensures InOrder(m)
    ensures forall x :: x in m ==> Rank(checks[0]) <= Rank(x)
  {
    if checks == [] then []
    else
      var rest := PushMissing(f, checks[1..]);
      InOrderTail(checks);
      if IsMissing(f, checks[0]) then
        InOrderCons(checks[0], rest);
        [checks[0]] + rest
      else rest
  }

  const RequiredOrder: seq<Required> :=
    [RequiredTitle, RequiredQuantity, RequiredPrice, RequiredDrawMethod, RequiredPhone]

  /** Every required field has its check. */
  lemma EveryFieldChecked()
    ensures InOrder(RequiredOrder)
    ensures forall r: Required :: r in RequiredOrder
  {
    forall r: Required ensures r in RequiredOrder {
      match r
      case RequiredTitle => assert RequiredOrder[0] == r;
      case RequiredQuantity => assert RequiredOrder[1] == r;
      case RequiredPrice => assert RequiredOrder[2] == r;
      case RequiredDrawMethod => assert RequiredOrder[3] == r;
      case RequiredPhone => assert RequiredOrder[4] == r;
    }
  }

  /** The `missingFields` list of `handlePublish`: exactly the missing fields, in
      the fixed order title, quantity, price, draw method, phone. */
  function MissingFields(f: CampaignForm): (m: seq<Required>)
    ensures forall r :: r in m <==> IsMissing(f, r)
    ensures InOrder(m)
  {
    EveryFieldChecked();
    PushMissing(f, RequiredOrder)
  }

  /** Where `handlePublish` stops before calling the data layer. */
  datatype Gate = Blocked(missing: seq<Required>, termsAlert: bool) | Unauthenticated | Proceed

  function PublishGate(f: CampaignForm, acceptTerms: bool, hasUser: bool): (g: Gate)
    ensures g == Proceed <==> MissingFields(f) == [] && acceptTerms && hasUser
    ensures g.Blocked? <==> MissingFields(f) != [] || !acceptTerms
    ensures g.Blocked? ==> g.missing == MissingFields(f) && g.termsAlert == !acceptTerms
  {
    var missing := MissingFields(f);
    if missing != [] || !acceptTerms then Blocked(missing, !acceptTerms)
    else if !hasUser then Unauthenticated
    else Proceed
  }

  /** A form whose masked price is "0,00" can never be published. */
  lemma ZeroPriceBlocksPublish(f: CampaignForm, acceptTerms: bool, hasUser: bool)
    requires f.ticketPrice == FormatCurrency([])
    ensures PublishGate(f, acceptTerms, hasUser).Blocked?
    ensures RequiredPrice in PublishGate(f, acceptTerms, hasUser).missing
  {
    assert Digits([]) == [];
    assert IsMissing(f, RequiredPrice);
  }

  /** The alert chosen from a thrown error's message. */
  datatype FailureAlert = InvalidDataAlert | DuplicateTitleAlert | GenericAlert

  /** The draft save's catch: "validation", then "duplicate", else generic. */
  function DraftFailureAlert(message: Option<string>): (a: FailureAlert)
    ensures a == InvalidDataAlert <==> message.Some? && Contains(message.value, "validation")
    ensures a == DuplicateTitleAlert <==>
      message.Some? && !Contains(message.value, "validation") && Contains(message.value, "duplicate")
  {
    if message.Some? && Contains(message.value, "validation") then InvalidDataAlert
    else if message.Some? && Contains(message.value, "duplicate") then DuplicateTitleAlert
    else GenericAlert
  }

  /** The publish catch knows only the "validation" case. */
  function PublishFailureAlert(message: Option<string>): (a: FailureAlert)
    ensures a != DuplicateTitleAlert
    ensures a == InvalidDataAlert <==> message.Some? && Contains(message.value, "validation")
  {
    if message.Some? && Contains(message.value, "validation") then InvalidDataAlert else GenericAlert
  }

  datatype DraftOutcome = DraftTitleRefused | DraftNotAuthenticated | DraftSaved | DraftFailed(alert: FailureAlert)

  datatype PublishOutcome =
    | PublishBlocked(missing: seq<Required>, termsAlert: bool)
    | PublishNotAuthenticated
    | PublishNavigated(campaignId: string)
    | PublishStayed
    | PublishFailed(alert: FailureAlert)

  const InitialForm := CampaignForm(
    "", Some(25), "0,00", "", "", None, 24, true, false, 1, 200000, All, Manual)

  /** The page's state. */
  class CreateCampaignForm {
    var formData: CampaignForm
    var errors: map<FormField, FieldError>
    var loading: bool
    var acceptTerms: bool

    constructor()
      ensures formData == InitialForm && errors == map[] && !loading && !acceptTerms
    {
      formData := InitialForm;
      errors := map[];
      loading := false;
      acceptTerms := false;
    }

    /** `handleInputChange`: store the value; drop the field's error if it has one. */
    method HandleInputChange(e: Edit)
      modifies this
      ensures formData == ApplyEdit(old(formData), e)
      ensures errors == old(errors) - {EditedField(e)}
      ensures loading == old(loading) && acceptTerms == old(acceptTerms)
    {
      formData := ApplyEdit(formData, e);
      var k := EditedField(e);
      if k in errors {
        errors := errors - {k};
      }
    }

    /** `handlePriceChange`: store the masked price; the error map is left alone. */
    method HandlePriceChange(typed: string)
      modifies this
      ensures formData == old(formData).(ticketPrice := FormatCurrency(typed))
      ensures PriceShape(formData.ticketPrice)
      ensures errors == old(errors) && loading == old(loading) && acceptTerms == old(acceptTerms)
    {
      formData := formData.(ticketPrice := FormatCurrency(typed));
    }

    method SetAcceptTerms(checked: bool)
      modifies this
      ensures acceptTerms == checked
      ensures formData == old(formData) && errors == old(errors) && loading == old(loading)
    {
      acceptTerms := checked;
    }

    /** `validateForm`: parse the form; on failure record each issue under its
        field, the later one overwriting the earlier. */
    method ValidateForm() returns (ok: bool)
      modifies this
      ensures ok <==> FormIssues(formData) == []
      ensures errors == IssueMap(FormIssues(formData))
      ensures formData == old(formData) && loading == old(loading) && acceptTerms == old(acceptTerms)
    {
      var issues := FormIssues(formData);
      var collected := CollectIssues(issues);
      ok := issues == [];
      errors := collected;
    }

    /** `handleSaveDraft`. `saved` is what the data layer's create did: nothing
        thrown, or the thrown error's message. */
    method HandleSaveDraft(hasUser: bool, saved: Result<(), Option<string>>) returns (o: DraftOutcome)
      modifies this
      ensures formData == old(formData) && acceptTerms == old(acceptTerms)
      ensures IsBlank(formData.title) ==>
        o == DraftTitleRefused && errors == map[FTitle := TitleRequiredForDraft] && loading == old(loading)
      ensures !IsBlank(formData.title) && !hasUser ==>
        o == DraftNotAuthenticated && errors == old(errors) && loading == old(loading)
      ensures !IsBlank(formData.title) && hasUser ==> errors == old(errors) && !loading
      ensures !IsBlank(formData.title) && hasUser && saved.Success? ==> o == DraftSaved
      ensures !IsBlank(formData.title) && hasUser && saved.Failure? ==> o == DraftFailed(DraftFailureAlert(saved.error))
    {
      if IsBlank(formData.title) {
        errors := map[FTitle := TitleRequiredForDraft];
        return DraftTitleRefused;
      }
      if !hasUser {
        return DraftNotAuthenticated;
      }
      loading := true;
      match saved {
        case Success(_) => o := DraftSaved;
        case Failure(message) => o := DraftFailed(DraftFailureAlert(message));
      }
      loading := false;
    }

    /** `handlePublish`. `created` is the data layer's answer: the new campaign's id
        (or null), or the thrown error's message. */
    method HandlePublish(hasUser: bool, created: Result<Option<string>, Option<string>>) returns (o: PublishOutcome)
      modifies this
      ensures formData == old(formData) && errors == old(errors) && acceptTerms == old(acceptTerms)
      ensures var g := PublishGate(formData, acceptTerms, hasUser);
        && (g.Blocked? ==> o == PublishBlocked(g.missing, g.termsAlert) && loading == old(loading))
        && (g.Unauthenticated? ==> o == PublishNotAuthenticated && loading == old(loading))
        && (g.Proceed? ==> !loading && o == AfterCreate(created))
    {
      var g := PublishGate(formData, acceptTerms, hasUser);
      match g {
        case Blocked(missing, termsAlert) => o := PublishBlocked(missing, termsAlert);
        case Unauthenticated => o := PublishNotAuthenticated;
        case Proceed =>
          loading := true;
          o := AfterCreate(created);
          loading := false;
      }
    }
  }

  /** What `handlePublish` does with the create result: navigate to step 2 with the
      new id, stay when the data layer returned no campaign, or alert. */
  function AfterCreate(created: Result<Option<string>, Option<string>>): (o: PublishOutcome)
    ensures o.PublishNavigated? <==> created.Success? && created.value.Some?
    ensures o.PublishNavigated? ==> o.campaignId == created.value.value
    ensures o.PublishFailed? <==> created.Failure?
  {
    match created
    case Success(Some(id)) => PublishNavigated(id)
    case Success(None) => PublishStayed
    case Failure(message) => PublishFailed(PublishFailureAlert(message))
  }
}
