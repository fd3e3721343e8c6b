/**
 * The `Subscription` record: a status among three, an optional end date and
 * the renewal and cancellation stamps. Times are whole seconds and the current
 * time is a parameter.
 */
module SubscriptionModel {
  import opened Optional

  /** Seconds in a day. */
  const Day := 86400
  /** The grace period `is_active` allows when the caller names none. */
  const DefaultGraceDays := 3
  /** The renewal length `renew` applies when the caller names none. */
  const DefaultDurationDays := 30

  datatype Status = Active | Canceled | Expired

  /** The stored text of a status. */
  function StatusName(s: Status): (t: string)
    ensures t == "active" || t == "canceled" || t == "expired"
  {
    match s
    case Active => "active"
    case Canceled => "canceled"
    case Expired => "expired"
  }

  /**
   * The end date after a renewal by `days` at `now`: counted from now when
   * there is no end date or it has passed, otherwise from the end date.
   */
  function RenewedEnd(end: Option<int>, days: int, now: int): (e: int)
    ensures days >= 0 ==> e >= now + days * Day
    ensures end.Some? && end.value >= now ==> e - end.value == days * Day
    ensures end.None? || end.value < now ==> e - now == days * Day
  {
    if end.None? || end.value < now then now + days * Day else end.value + days * Day
  }

  class Subscription {
    var id: int
    var userId: int
    var planName: string
    var planTier: string
    var priceCents: int
    var status: Status
    var startDate: int
    var endDate: Option<int>
    var renewedAt: Option<int>
    var canceledAt: Option<int>
    var paymentProvider: Option<string>
    var externalReference: Option<string>
    var createdAt: int

    /** A new row with the column defaults. */
    constructor (id: int, userId: int, planName: string, priceCents: int, now: int)
      ensures this.id == id && this.userId == userId && this.planName == planName
      ensures this.priceCents == priceCents && planTier == "basic"
      ensures status == Active && StatusName(status) == "active"
      ensures startDate == now && createdAt == now
      ensures endDate == None && renewedAt == None && canceledAt == None
      ensures paymentProvider == None && externalReference == None
    {
      this.id := id;
      this.userId := userId;
      this.planName := planName;
      this.planTier := "basic";
      this.priceCents := priceCents;
      this.status := Active;
      this.startDate := now;
      this.endDate := None;
      this.renewedAt := None;
      this.canceledAt := None;
      this.paymentProvider := None;
      this.externalReference := None;
      this.createdAt := now;
    }

    /**
     * `is_active(grace_days=3)` at time `now`: an active status, and either no
     * end date or one that, extended by the grace period, has not passed.
     */
    function IsActive(now: int, graceDays: int := DefaultGraceDays): (active: bool)
      reads this
      ensures active ==> status == Active
      ensures status == Active && endDate.None? ==> active
      ensures status == Active && endDate.Some? ==> (active <==> now - endDate.value <= graceDays * Day)
    {
      if status != Active then false
      else if endDate.None? then true
      else endDate.value + graceDays * Day >= now
    }

    method Cancel(now: int)
      modifies this`status, this`canceledAt
      ensures status == Canceled && canceledAt == Some(now)
      ensures forall t, g :: !IsActive(t, g)
    {
      status := Canceled;
      canceledAt := Some(now);
    }

    /** `renew(duration_days=30)` at time `now`. */
    method Renew(now: int, durationDays: int := DefaultDurationDays)
      modifies this`renewedAt, this`status, this`endDate
      ensures renewedAt == Some(now) && status == Active
      ensures endDate == Some(RenewedEnd(old(endDate), durationDays, now))
      ensures durationDays >= 0 ==> forall g :: g >= 0 ==> IsActive(now, g)
    {
      renewedAt := Some(now);
      status := Active;
      if endDate.None? || endDate.value < now {
        endDate := Some(now + durationDays * Day);
      } else {
        endDate := Some(endDate.value + durationDays * Day);
      }
    }

    /** `days_remaining()` at time `now`: whole days left, never negative. */
    function DaysRemaining(now: int): (r: nat)
      reads this
      ensures endDate.None? ==> r == 0
      ensures endDate.Some? && endDate.value < now ==> r == 0
      ensures endDate.Some? && endDate.value >= now ==>
                r * Day <= endDate.value - now < (r + 1) * Day
    {
      if endDate.None? then 0
      else var days := (endDate.value - now) / Day;
           if days > 0 then days else 0
    }
  }

  // ---------------------------------------------------------------------------
  // Properties

  /** Only an active status can be active, whatever the dates. */
  lemma OnlyActiveStatusIsActive(s: Subscription, g: int, now: int)
    requires s.status != Active
    ensures !s.IsActive(now, g)
  {
  }

  /** A longer grace period, or an earlier moment, keeps an active subscription active. */
  lemma ActiveMonotone(s: Subscription, g: int, g2: int, now: int, earlier: int)
    requires s.IsActive(now, g) && g <= g2 && earlier <= now
    ensures s.IsActive(now, g2) && s.IsActive(earlier, g)
  {
  }

  /**
   * A subscription with whole days still left is active under any grace
   * period that is not negative, the default one included.
   */
  lemma DaysLeftMeansActive(s: Subscription, g: int, now: int)
    requires s.status == Active && s.DaysRemaining(now) > 0 && g >= 0
    ensures s.IsActive(now, g) && s.IsActive(now)
  {
  }

  /** Renewing a subscription whose end date is still ahead extends it by exactly the renewal. */
  lemma RenewalStacks(end: int, d1: int, d2: int, now: int)
    requires end >= now && d1 >= 0 && d2 >= 0
    ensures RenewedEnd(Some(RenewedEnd(Some(end), d1, now)), d2, now) == end + (d1 + d2) * Day
  {
  }
}
