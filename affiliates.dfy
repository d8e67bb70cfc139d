/** The affiliate-management page: the "R$ " currency mask for a fixed commission
    and the add-affiliate draft with its reset, commission-type choice and send
    gate. */
module Affiliates {
  import opened Text
  import CreateCampaign

  /** The prefix the mask writes before the amount. */
  const Prefix: string := "R$ "

  /** `formatCurrency` of this page: keep only the digits, read them as cents and
      write "R$ " followed by the amount with two decimals and a decimal comma. */
  function FormatCurrency(value: string): (r: string)
    ensures Digits(value) == [] ==> r == "R$ 0,00"
    ensures |r| >= |Prefix| && r[..|Prefix|] == Prefix
    ensures PriceShape(r[|Prefix|..])
    ensures Value(Digits(r[|Prefix|..])) == Value(Digits(value))
  {
    var numeric := Digits(value);
    if numeric == [] then
      CreateCampaign.ZeroCentsText();
      assert ("R$ 0,00")[|Prefix|..] == "0,00";
      "R$ 0,00"
    else
      CentsTextFacts(Value(numeric));
      var r := Prefix + CentsText(Value(numeric));
      assert r[|Prefix|..] == CentsText(Value(numeric));
      r
  }

  /** The prefix holds no digit, so the digits of a masked value are those of its
      amount. */
  lemma PrefixDigits(amount: string)
    ensures Digits(Prefix + amount) == Digits(amount)
  {
    DigitsAppend(Prefix, amount);
    assert Prefix[1..][1..][1..] == [];
  }

  /** The amount part is the creation page's mask of the same input. */
  lemma SameAmountAsPriceMask(value: string)
    ensures FormatCurrency(value) == Prefix + CreateCampaign.FormatCurrency(value)
  {
  }

  /** Masking the mask's own output changes nothing. */
  lemma FormatCurrencyIdempotent(value: string)
    ensures FormatCurrency(FormatCurrency(value)) == FormatCurrency(value)
  {
    var r := FormatCurrency(value);
    var amount := CreateCampaign.FormatCurrency(value);
    SameAmountAsPriceMask(value);
    SameAmountAsPriceMask(r);
    PrefixDigits(amount);
    assert Digits(r) == Digits(amount);
    CreateCampaign.FormatCurrencyIdempotent(value);
  }

  // ---------------------------------------------------------------------------
  // The add-affiliate draft.

  datatype CommissionType = Percentage | Fixed

  datatype AffiliateDraft = AffiliateDraft(
    email: string,
    commissionType: CommissionType,
    commissionValue: int,
    fixedCommissionValue: string)

  /** The draft the page starts with and returns to after save or close. */
  const EmptyDraft := AffiliateDraft("", Percentage, 10, "R$ 0,00")

  /** The page's state. */
  class AffiliatesPage {
    var showAddModal: bool
    var searchTerm: string
    var draft: AffiliateDraft

    constructor()
      ensures !showAddModal && searchTerm == [] && draft == EmptyDraft
    {
      showAddModal := false;
      searchTerm := [];
      draft := EmptyDraft;
    }

    /** The send button is disabled exactly when the trimmed email is empty. */
    function SendDisabled(): (disabled: bool)
      reads this
      ensures disabled <==> forall i :: 0 <= i < |draft.email| ==> IsWhitespace(draft.email[i])
    {
      BlankIffAllWhitespace(draft.email);
      IsBlank(draft.email)
    }

    method HandleAddAffiliate()
      modifies this
      ensures showAddModal && draft == old(draft) && searchTerm == old(searchTerm)
    {
      showAddModal := true;
    }

    /** `handleSaveAffiliate`: close the modal and reset the draft. */
    method HandleSaveAffiliate()
      modifies this
      ensures !showAddModal && draft == EmptyDraft && searchTerm == old(searchTerm)
    {
      showAddModal := false;
      draft := EmptyDraft;
    }

    /** `handleCloseModal`: the same reset as a save. */
    method HandleCloseModal()
      modifies this
      ensures !showAddModal && draft == EmptyDraft && searchTerm == old(searchTerm)
    {
      showAddModal := false;
      draft := EmptyDraft;
    }

    method SetEmail(email: string)
      modifies this
      ensures draft == old(draft).(email := email)
      ensures showAddModal == old(showAddModal) && searchTerm == old(searchTerm)
    {
      draft := draft.(email := email);
    }

    /** Clicking one of the two commission options. */
    method SelectCommissionType(t: CommissionType)
      modifies this
      ensures draft == old(draft).(commissionType := t)
      ensures showAddModal == old(showAddModal) && searchTerm == old(searchTerm)
    {
      draft := draft.(commissionType := t);
    }

    /** `handleCommissionChange`. */
    method HandleCommissionChange(value: int)
      modifies this
      ensures draft == old(draft).(commissionValue := value)
      ensures showAddModal == old(showAddModal) && searchTerm == old(searchTerm)
    {
      draft := draft.(commissionValue := value);
    }

    /** `handleFixedAmountChange`: store the masked amount. */
    method HandleFixedAmountChange(typed: string)
      modifies this
      ensures draft == old(draft).(fixedCommissionValue := FormatCurrency(typed))
      ensures showAddModal == old(showAddModal) && searchTerm == old(searchTerm)
    {
      draft := draft.(fixedCommissionValue := FormatCurrency(typed));
    }
  }
}
