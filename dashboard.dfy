/** The organiser's dashboard: the draft-expiry countdown, the urgency rule, the
    status labels, and the two display flags. */
module Dashboard {
  import opened Wrappers
  import opened Text

  const MinuteMs: nat := 60000
  const HourMs: nat := 3600000
  const DayMs: nat := 86400000

  datatype Parts = Parts(days: nat, hours: nat, minutes: nat)

  /** The milliseconds the parts stand for. */
  function Millis(p: Parts): nat {
    p.days * DayMs + p.hours * HourMs + p.minutes * MinuteMs
  }

  lemma MulAtLeast(k: int, d: int)
    requires k >= 1 && d > 0
    ensures k * d >= d
  {
  }

  /** Division with remainder has one answer. */
  lemma ModUnique(x: int, q: int, m: int, d: int)
    requires d > 0 && x == q * d + m && 0 <= m < d
    ensures x % d == m
  {
    var q0, m0 := x / d, x % d;
    assert x == q0 * d + m0;
    assert (q - q0) * d == m0 - m;
    if q > q0 {
      MulAtLeast(q - q0, d);
    } else if q < q0 {
      MulAtLeast(q0 - q, d);
    }
  }

  /** The remainder by a day, taken by the hour, is the remainder by the hour. */
  lemma HourOfDayRemainder(x: nat)
    ensures (x % DayMs) % HourMs == x % HourMs
  {
    var a, r := x / DayMs, x % DayMs;
    var b, m := r / HourMs, r % HourMs;
    assert x == (24 * a + b) * HourMs + m;
    ModUnique(x, 24 * a + b, m, HourMs);
  }

  /** The `Math.floor` divisions of `getTimeRemaining` on a positive difference. */
  function PartsOf(diff: nat): (p: Parts)
    ensures p.hours < 24 && p.minutes < 60
    ensures Millis(p) <= diff < Millis(p) + MinuteMs
    ensures p.days == 0 <==> diff < DayMs
  {
    var days := diff / DayMs;
    var hours := (diff % DayMs) / HourMs;
    var minutes := (diff % HourMs) / MinuteMs;
    HourOfDayRemainder(diff);
    assert diff % DayMs == hours * HourMs + diff % HourMs;
    assert diff % HourMs == minutes * MinuteMs + diff % MinuteMs;
    Parts(days, hours, minutes)
  }

  datatype TimeRemaining = TimeRemaining(expired: bool, text: string)

  /** The text for a positive remainder: "Dd Hh Mm", "Hh Mm" or "Mm". */
  function TimeText(p: Parts): string {
    if p.days > 0 then Decimal(p.days) + "d " + Decimal(p.hours) + "h " + Decimal(p.minutes) + "m"
    else if p.hours > 0 then Decimal(p.hours) + "h " + Decimal(p.minutes) + "m"
    else Decimal(p.minutes) + "m"
  }

  /** `getTimeRemaining(expiresAt)` read at the instant `now`. */
  function GetTimeRemaining(expiresAt: int, now: int): (t: TimeRemaining)
    ensures t.expired <==> expiresAt - now <= 0
    ensures t.expired ==> t.text == "Expirado"
    ensures !t.expired ==> t.text == TimeText(PartsOf(expiresAt - now))
  {
    var difference := expiresAt - now;
    if difference <= 0 then TimeRemaining(true, "Expirado")
    else TimeRemaining(false, TimeText(PartsOf(difference)))
  }

  /** The orange highlight: not expired and less than a day left. */
  function Urgent(expiresAt: int, now: int): (urgent: bool)
    ensures urgent <==> 0 < expiresAt - now < 86400000
  {
    !GetTimeRemaining(expiresAt, now).expired && expiresAt - now < DayMs
  }

  /** A draft is urgent exactly when its countdown text has no day part. */
  lemma UrgentIffNoDays(expiresAt: int, now: int)
    requires expiresAt > now
    ensures Urgent(expiresAt, now) <==> PartsOf(expiresAt - now).days == 0
    ensures Urgent(expiresAt, now) <==> !StartsWithDays(GetTimeRemaining(expiresAt, now).text)
  {
    var p := PartsOf(expiresAt - now);
    var t := TimeText(p);
    if p.days > 0 {
      assert t == Decimal(p.days) + ("d " + Decimal(p.hours) + "h " + Decimal(p.minutes) + "m");
      DaysPrefix(p.days, "d " + Decimal(p.hours) + "h " + Decimal(p.minutes) + "m");
    } else if p.hours > 0 {
      assert t == Decimal(p.hours) + ("h " + Decimal(p.minutes) + "m");
      NoDaysPrefix(p.hours, "h " + Decimal(p.minutes) + "m");
    } else {
      assert t == Decimal(p.minutes) + "m";
      NoDaysPrefix(p.minutes, "m");
    }
  }

  /** The text opens with a number followed by "d". */
  predicate StartsWithDays(text: string) {
    var n := LeadingDigits(text);
    n != [] && |n| < |text| && text[|n|] == 'd'
  }

  lemma DaysPrefix(n: nat, rest: string)
    requires |rest| > 0 && rest[0] == 'd'
    ensures StartsWithDays(Decimal(n) + rest)
  {
    LeadingDigitsStop(Decimal(n), rest);
  }

  lemma NoDaysPrefix(n: nat, rest: string)
    requires |rest| > 0 && rest[0] != 'd' && !IsDigit(rest[0])
    ensures !StartsWithDays(Decimal(n) + rest)
  {
    LeadingDigitsStop(Decimal(n), rest);
  }

  /** `getStatusText`: the four known statuses get their Portuguese label, any
      other status string is shown as it is. */
  function StatusText(status: string): (text: string)
    ensures status == "active" ==> text == "Ativa"
    ensures status == "draft" ==> text == "Rascunho"
    ensures status == "completed" ==> text == "Finalizada"
    ensures status == "cancelled" ==> text == "Cancelada"
    ensures status !in {"active", "draft", "completed", "cancelled"} ==> text == status
  {
    if status == "active" then "Ativa"
    else if status == "draft" then "Rascunho"
    else if status == "completed" then "Finalizada"
    else if status == "cancelled" then "Cancelada"
    else status
  }

  /** The mount effect's reading of the `isPaymentConfigured` entry: absent keeps
      the card, `"true"` hides it, `"false"` and text that is not JSON show it. */
  function PaymentCardAfterMount(stored: Option<string>, shown: bool): (show: bool)
    ensures stored.None? ==> show == shown
    ensures stored == Some("true") ==> !show
    ensures stored.Some? && stored.value != "true" ==> show
  {
    match stored
    case None => shown
    case Some(text) => text != "true"
  }

  /** The dashboard's display flags. */
  class DashboardView {
    var showRevenue: bool
    var displayPaymentSetupCard: bool

    constructor()
      ensures !showRevenue && displayPaymentSetupCard
    {
      showRevenue := false;
      displayPaymentSetupCard := true;
    }

    /** The mount effect. */
    method CheckPaymentConfigured(stored: Option<string>)
      modifies this
      ensures displayPaymentSetupCard == PaymentCardAfterMount(stored, old(displayPaymentSetupCard))
      ensures showRevenue == old(showRevenue)
    {
      displayPaymentSetupCard := PaymentCardAfterMount(stored, displayPaymentSetupCard);
    }

    /** The eye button. */
    method ToggleRevenue()
      modifies this
      ensures showRevenue == !old(showRevenue) && displayPaymentSetupCard == old(displayPaymentSetupCard)
    {
      showRevenue := !showRevenue;
    }
  }
}
