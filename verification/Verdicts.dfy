/**
 * What one transaction makes of a row, told by the row before and the row after: a table of outcomes for every
 * observation, and what settling a charge, an operator or a first payment leave behind.
 */
module Verdicts {
  import opened Wrappers
  import opened Calendar
  import opened Protocol
  import opened Model
  import opened Transition
  import opened Engine
  import opened Scheduler
  import opened System
  import opened Effects
  import opened ChargeSafety
  import opened ChargeEvents

  // ---------- observations ----------

  /** Plan and period that an observation gives, or that stay where it gives none. */
  predicate PlanAndPeriod(a: Subscription, obs: Observation, b: Subscription) {
    && b.planId == (if obs.planId == "" then a.planId else obs.planId)
    && b.periodStart == (if obs.periodStart == ZERO_TIME then a.periodStart else obs.periodStart)
    && b.periodEnd == (if obs.periodEnd == ZERO_TIME then a.periodEnd else obs.periodEnd)
  }

  /** The row has moved on to a status, at a time. */
  predicate MovesTo(a: Subscription, obs: Observation, b: Subscription, now: Instant, status: Status) {
    && PlanAndPeriod(a, obs, b) && b.status == status && b.cancelAtPeriodEnd == (status == Status.Canceled)
    && b.version == a.version + 1 && b.stateChangedAt == now
    && SameIdentity(a, b) && b.paymentMethod == a.paymentMethod
  }

  predicate Kept(a: Subscription, b: Subscription) {
    b.pastDueSince == a.pastDueSince && b.canceledAt == a.canceledAt && b.chargingBlocked == a.chargingBlocked
    && b.blockReason == a.blockReason
  }

  /** The end of a subscription; when it was canceled at once, also the time of that. */
  predicate Ends(a: Subscription, obs: Observation, b: Subscription, now: Instant) {
    && MovesTo(a, obs, b, now, Status.Expired)
    && b.pastDueSince == a.pastDueSince && b.chargingBlocked == a.chargingBlocked && b.blockReason == a.blockReason
    && b.canceledAt == (if obs.immediateExpire && a.status != Status.Canceled && a.canceledAt.None? then Some(now)
                        else a.canceledAt)
  }

  predicate ChangesPlan(a: Subscription, obs: Observation, b: Subscription, now: Instant) {
    MovesTo(a, obs, b, now, Status.Active) && Kept(a, b)
  }

  predicate Cancels(a: Subscription, obs: Observation, b: Subscription, now: Instant) {
    && MovesTo(a, obs, b, now, Status.Canceled) && b.canceledAt == Some(now)
    && b.pastDueSince == a.pastDueSince && b.chargingBlocked == a.chargingBlocked && b.blockReason == a.blockReason
  }

  /** Past due since now, unless it has been past due before. */
  predicate Lapses(a: Subscription, obs: Observation, b: Subscription, now: Instant) {
    && MovesTo(a, obs, b, now, Status.PastDue)
    && b.pastDueSince == (if a.pastDueSince.Some? then a.pastDueSince else Some(now))
    && b.canceledAt == a.canceledAt && b.chargingBlocked == a.chargingBlocked && b.blockReason == a.blockReason
  }

  /** Served, with nothing left of earlier trouble. */
  predicate Serves(a: Subscription, obs: Observation, b: Subscription, now: Instant) {
    && MovesTo(a, obs, b, now, Status.Active)
    && b.pastDueSince.None? && b.canceledAt.None? && !b.chargingBlocked && b.blockReason.None?
  }

  /** Active already, on that plan and for that period. */
  predicate Served(a: Subscription, obs: Observation) {
    a.status == Status.Active && PlanAndPeriod(a, obs, a)
  }

  /** What an observation makes of a stored subscription. */
  predicate Outcome(a: Subscription, obs: Observation, b: Subscription, now: Instant) {
    if a.status == Status.Expired then b == a
    else if obs.immediateExpire || obs.status == Status.Expired then Ends(a, obs, b, now)
    else if obs.eventType == Some(PlanChanged)
            || (obs.planId != "" && obs.planId != a.planId && obs.status == Status.Active) then
      if a.status == Status.Active && !PlanAndPeriod(a, obs, a) then ChangesPlan(a, obs, b, now) else b == a
    else if obs.status == Status.Canceled || obs.cancelAtPeriodEnd then
      if a.status == Status.Canceled then b == a else Cancels(a, obs, b, now)
    else if obs.status == Status.PastDue then
      if a.status == Status.PastDue then b == a else Lapses(a, obs, b, now)
    else if obs.status == Status.Active || obs.status == Status.Trialing then
      if Served(a, obs) then b == a else Serves(a, obs, b, now)
    else b == a
  }

  /** The row that a decision leads to. */
  function Decided(a: Subscription, d: Decision): Subscription {
    if d.Change? then d.next else a
  }

  lemma EndOutcome(a: Subscription, obs: Observation, now: Instant)
    requires GoodRow(a) && a.status != Status.Expired
    ensures var d := DecideExpire(a, Merged(a, obs, now), now, obs.immediateExpire && a.status != Status.Canceled);
            d.Success? ==> Ends(a, obs, Decided(a, d.value), now)
  {
  }

  lemma PlanOutcome(a: Subscription, obs: Observation, now: Instant)
    requires GoodRow(a)
    ensures var d := DecidePlanChange(a, Merged(a, obs, now));
            d.Success? ==> if a.status == Status.Active && !PlanAndPeriod(a, obs, a)
                           then ChangesPlan(a, obs, Decided(a, d.value), now) else Decided(a, d.value) == a
  {
  }

  lemma CancelOutcome(a: Subscription, obs: Observation, now: Instant)
    requires GoodRow(a) && a.status != Status.Expired
    ensures var d := DecideCancel(a, Merged(a, obs, now), now);
            d.Success? ==> if a.status == Status.Canceled then Decided(a, d.value) == a
                           else Cancels(a, obs, Decided(a, d.value), now)
  {
  }

  lemma LapseOutcome(a: Subscription, obs: Observation, now: Instant)
    requires GoodRow(a)
    ensures var d := DecidePastDue(a, Merged(a, obs, now), now);
            d.Success? ==> if a.status == Status.PastDue then Decided(a, d.value) == a
                           else Lapses(a, obs, Decided(a, d.value), now)
  {
  }

  lemma ServeOutcome(a: Subscription, obs: Observation, now: Instant)
    requires GoodRow(a) && (obs.status == Status.Active || obs.status == Status.Trialing)
    ensures var d := DecideActivateOrRenew(a, Merged(a, obs, now), obs.status);
            d.Success? ==> if Served(a, obs) then Decided(a, d.value) == a else Serves(a, obs, Decided(a, d.value), now)
  {
  }

  lemma DecideOutcome(a: Subscription, obs: Observation, now: Instant)
    requires GoodRow(a) && Decide(a, obs, now).Success?
    ensures Outcome(a, obs, Decided(a, Decide(a, obs, now).value), now)
  {
    hide GoodRow, DecideExpire, DecidePlanChange, DecideCancel, DecidePastDue, DecideActivateOrRenew, Merged, Decided,
         Ends, ChangesPlan, Cancels, Lapses, Serves, PlanAndPeriod;
    if a.status != Status.Expired {
      EndOutcome(a, obs, now);
      PlanOutcome(a, obs, now);
      CancelOutcome(a, obs, now);
      LapseOutcome(a, obs, now);
      if obs.status == Status.Active || obs.status == Status.Trialing { ServeOutcome(a, obs, now); }
    }
    NothingDecided(a);
  }

  lemma NothingDecided(a: Subscription)
    ensures Decided(a, Noop) == a
  {
  }

  lemma OutcomeRef(a: Subscription, obs: Observation, b: Subscription, now: Instant)
    requires Outcome(a, obs, b, now)
    ensures b.ref == a.ref
  {
  }

  /** Where a row stands after an observation is committed; attempts and checkouts stay as they are. */
  lemma ObserveOutcome(s: Store, ref: string, obs: Observation, now: Instant, ids: Ids, txNow: Instant)
    requires GoodSubs(s) && Observe(s, ref, obs, now, ids, txNow).Success?
    ensures hide *; var s' := Observe(s, ref, obs, now, ids, txNow).value;
            && ref in s.subs && ref in s'.subs && s'.subs == s.subs[ref := s'.subs[ref]]
            && Outcome(s.subs[ref], obs, s'.subs[ref], now)
            && s'.attempts == s.attempts && s'.checkouts == s.checkouts && s'.procEvents == s.procEvents
            && s'.leases == s.leases && s'.audits == s.audits
  {
    hide Decide, CommitChange, Outcome, GoodRow, FollowUp, BuildCallback, ValidateCallback, NewEvent, Followed, Spared;
    assert s.subs[ref].ref == ref && GoodRow(s.subs[ref]);
    DecideOutcome(s.subs[ref], obs, now);
    var d := Decide(s.subs[ref], obs, now).value;
    OutcomeRef(s.subs[ref], obs, Decided(s.subs[ref], d), now);
    if d.Change? { CommitEffect(s, false, d.next, d.event, ids, txNow); }
  }

  /** A new subscription is stored under its reference, and its checkout is completed and bound to it. */
  lemma CreateOutcome(s: Store, co: Checkout, sub: Subscription, ids: Ids, txNow: Instant)
    requires CreateSubscription(s, co, sub, ids, txNow).Success?
    ensures hide *; var s' := CreateSubscription(s, co, sub, ids, txNow).value;
            && sub.ref !in s.subs && s'.subs == s.subs[sub.ref := sub] && co.id in s.checkouts
            && s'.checkouts == s.checkouts[co.id := co.(status := CheckoutStatus.Completed,
                                                        subscriptionRef := Some(sub.ref))]
            && s'.attempts == s.attempts && s'.audits == s.audits
  {
    hide CommitChange, FollowUp, BuildCallback, ValidateCallback, NewEvent, Followed, Spared;
    CreatedCommits(s, co, sub, ids, txNow);
    CommitEffect(s, true, sub, Activated, ids, txNow);
  }
}
