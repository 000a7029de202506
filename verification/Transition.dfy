/**
 * The subscription state machine (internal/engine/transition.go): how an authoritative observation of the
 * processor moves a stored subscription, and what every such move keeps.
 */
module Transition {
  import opened Wrappers
  import opened Calendar
  import opened Protocol
  import opened Model

  /** What was observed; an empty plan or a zero time means "not given". */
  datatype Observation = Observation(
    eventType: Option<EventType>,
    status: Status,
    planId: string,
    periodStart: Instant,
    periodEnd: Instant,
    cancelAtPeriodEnd: bool,
    immediateExpire: bool)

  datatype Decision =
    | Noop
    | Change(event: EventType, next: Subscription, createExpire: bool, cancelExpire: bool, createRenew: bool,
             cancelRenew: bool)

  function Observed(status: Status): Observation {
    Observation(None, status, "", ZERO_TIME, ZERO_TIME, false, false)
  }

  const CANCELLATION := Observed(Status.Canceled).(cancelAtPeriodEnd := true)

  const IMMEDIATE_EXPIRY := Observed(Status.Expired).(immediateExpire := true)

  /** A payment for the period from `start` to `end` was authorised. */
  function PaidPeriod(start: Instant, end: Instant): Observation {
    Observed(Status.Active).(periodStart := start, periodEnd := end)
  }

  predicate SamePeriod(a: Subscription, b: Subscription) {
    a.periodStart == b.periodStart && a.periodEnd == b.periodEnd
  }

  /** The observed plan and period override the stored ones where they are given. */
  function Merged(current: Subscription, obs: Observation, now: Instant): Subscription {
    current.(stateChangedAt := now,
             planId := if obs.planId != "" then obs.planId else current.planId,
             periodStart := if obs.periodStart != ZERO_TIME then obs.periodStart else current.periodStart,
             periodEnd := if obs.periodEnd != ZERO_TIME then obs.periodEnd else current.periodEnd)
  }

  function Checked(event: EventType, next: Subscription, d: Decision): Result<Decision, Error> {
    match ValidateEventStatus(event, next.status, next.cancelAtPeriodEnd)
    case Some(e) => Failure(e)
    case None => Success(d)
  }

  function Decide(current: Subscription, obs: Observation, now: Instant): Result<Decision, Error> {
    if current.status == Status.Expired then Success(Noop) else
      var next := Merged(current, obs, now);
      if next.periodEnd <= next.periodStart then Failure(UnorderedPeriod)
      else if obs.immediateExpire || obs.status == Status.Expired then
        DecideExpire(current, next, now, obs.immediateExpire && current.status != Status.Canceled)
      else if obs.eventType == Some(PlanChanged)
              || (obs.planId != "" && obs.planId != current.planId && obs.status == Status.Active) then
        DecidePlanChange(current, next)
      else if obs.status == Status.Canceled || obs.cancelAtPeriodEnd then DecideCancel(current, next, now)
      else if obs.status == Status.PastDue then DecidePastDue(current, next, now)
      else if obs.status == Status.Active || obs.status == Status.Trialing then
        DecideActivateOrRenew(current, next, obs.status)
      else Success(Noop)
  }

  function DecideExpire(current: Subscription, next: Subscription, now: Instant, setCanceledAt: bool)
    : Result<Decision, Error>
  {
    if current.status == Status.Expired then Success(Noop) else
      var next' := next.(status := Status.Expired, cancelAtPeriodEnd := false, version := current.version + 1,
                         canceledAt := if setCanceledAt && current.canceledAt.None? then Some(now)
                         else next.canceledAt);
      Checked(WasExpired, next', Change(WasExpired, next', false, true, false, true))
  }

  function DecidePlanChange(current: Subscription, next: Subscription): Result<Decision, Error> {
    if current.status != Status.Active then Success(Noop)
    else if current.planId == next.planId && SamePeriod(current, next) then Success(Noop)
    else
      var next' := next.(status := Status.Active, cancelAtPeriodEnd := false, version := current.version + 1);
      Checked(PlanChanged, next', Change(PlanChanged, next', false, false, false, false))
  }

  function DecideCancel(current: Subscription, next: Subscription, now: Instant): Result<Decision, Error> {
    if current.status == Status.Canceled then Success(Noop)
    else if current.status == Status.Expired then Success(Noop)
    else
      var next' := next.(status := Status.Canceled, cancelAtPeriodEnd := true, version := current.version + 1,
                         canceledAt := Some(now));
      Checked(WasCanceled, next', Change(WasCanceled, next', true, false, false, true))
  }

  function DecidePastDue(current: Subscription, next: Subscription, now: Instant): Result<Decision, Error> {
    if current.status == Status.PastDue then Success(Noop) else
      var next' := next.(status := Status.PastDue, cancelAtPeriodEnd := false, version := current.version + 1,
                         pastDueSince := if next.pastDueSince.None? then Some(now) else next.pastDueSince);
      Checked(WentPastDue, next', Change(WentPastDue, next', false, false, false, false))
  }

  function DecideActivateOrRenew(current: Subscription, next: Subscription, observed: Status): Result<Decision, Error> {
    var known := current.version >= 1 && current.status != Status.Other("");
    var event := if known then Renewed else Activated;
    var status := if known then Status.Active else observed;
    if current.status == status && SamePeriod(current, next) && current.planId == next.planId
         && !current.cancelAtPeriodEnd then Success(Noop)
    else if current.status == Status.Canceled && event != Renewed then Success(Noop)
    else
      var next1 := next.(status := status, cancelAtPeriodEnd := false, version := current.version + 1);
      var event' := if next1.version == 1 then Activated else event;
      var next' := if event' == Renewed
                   then next1.(pastDueSince := None, canceledAt := None, chargingBlocked := false, blockReason := None)
                   else next1;
      var adyen := next'.family == Adyen;
      Checked(event', next',
              Change(event', next', false, event' == Renewed, adyen && (event' == Renewed || event' == Activated),
                     false))
  }

  /** The row of a completed checkout's new subscription. */
  function FirstActivation(checkout: Checkout, ref: string, status: Status, periodStart: Instant, periodEnd: Instant,
          now: Instant, customerId: Option<string>, processorSubId: Option<string>, initialPaymentId: Option<string>,
          shopperRef: Option<string>): Subscription
  {
    Subscription(ref, checkout.id, checkout.planId, status, 1, checkout.family, customerId, processorSubId,
                 initialPaymentId,
                 shopperRef, None, periodStart, periodEnd, false, now, None, None, false, None)
  }

  // ---------- what every transition keeps ----------

  /** The bookkeeping of a stored subscription: the version counts from 1, the period is ordered, the cancel flag and
      the timestamps follow the status, a block has a reason, and nothing that is being served is blocked. */
  predicate GoodRow(sub: Subscription) {
    && sub.version >= 1
    && sub.periodStart < sub.periodEnd
    && !sub.status.Other?
    && (sub.cancelAtPeriodEnd <==> sub.status.Canceled?)
    && (sub.status.PastDue? ==> sub.pastDueSince.Some?)
    && (sub.status.Canceled? ==> sub.canceledAt == Some(sub.stateChangedAt))
    && (sub.status.Active? || sub.status.Trialing? ==>
          sub.pastDueSince.None? && sub.canceledAt.None? && !sub.chargingBlocked)
    && (sub.chargingBlocked <==> sub.blockReason.Some?)
  }

  /** Fields that no transition touches. */
  predicate SameIdentity(a: Subscription, b: Subscription) {
    && a.ref == b.ref && a.checkoutId == b.checkoutId && a.family == b.family
    && a.customerId == b.customerId && a.processorSubId == b.processorSubId && a.initialPaymentId == b.initialPaymentId
    && a.shopperRef == b.shopperRef
  }

  /** The events that may follow an event which left the subscription in the given status. */
  predicate MayFollow(status: Status, event: EventType) {
    && status != Status.Expired
    && match event
       case Renewed => true
       case WentPastDue => status != Status.PastDue
       case WasCanceled => status != Status.Canceled
       case WasExpired => true
       case PlanChanged => status == Status.Active
       case Activated => false
       case Sync => false
  }

  /** The status that an event leaves behind, once the subscription exists. */
  function StatusAfter(event: EventType): Status {
    match event
    case WentPastDue => Status.PastDue
    case WasCanceled => Status.Canceled
    case WasExpired => Status.Expired
    case _ => Status.Active
  }

  /** The consumer-visible content of a subscription, without the version and the time of the change. */
  datatype Content = Content(planId: string, status: Status, periodStart: Instant, periodEnd: Instant,
                             cancelAtPeriodEnd: bool)

  function ContentOf(sub: Subscription): Content {
    Content(sub.planId, sub.status, sub.periodStart, sub.periodEnd, sub.cancelAtPeriodEnd)
  }

  /** What a change of a good row amounts to. */
  predicate Advances(current: Subscription, event: EventType, next: Subscription, now: Instant) {
    && GoodRow(next) && SameIdentity(current, next) && current.paymentMethod == next.paymentMethod
    && next.version == current.version + 1 && next.stateChangedAt == now
    && MayFollow(current.status, event) && next.status == StatusAfter(event)
    && ContentOf(next) != ContentOf(current)
  }

  lemma ExpireAdvances(current: Subscription, obs: Observation, now: Instant, setCanceledAt: bool)
    requires GoodRow(current) && Merged(current, obs, now).periodStart < Merged(current, obs, now).periodEnd
    ensures var d := DecideExpire(current, Merged(current, obs, now), now, setCanceledAt);
            d.Success? && d.value.Change? ==> Advances(current, d.value.event, d.value.next, now)
  {
  }

  lemma PlanChangeAdvances(current: Subscription, obs: Observation, now: Instant)
    requires GoodRow(current) && Merged(current, obs, now).periodStart < Merged(current, obs, now).periodEnd
    ensures var d := DecidePlanChange(current, Merged(current, obs, now));
            d.Success? && d.value.Change? ==> Advances(current, d.value.event, d.value.next, now)
  {
  }

  lemma CancelAdvances(current: Subscription, obs: Observation, now: Instant)
    requires GoodRow(current) && Merged(current, obs, now).periodStart < Merged(current, obs, now).periodEnd
    ensures var d := DecideCancel(current, Merged(current, obs, now), now);
            d.Success? && d.value.Change? ==> Advances(current, d.value.event, d.value.next, now)
  {
  }

  lemma PastDueAdvances(current: Subscription, obs: Observation, now: Instant)
    requires GoodRow(current) && current.status != Status.Expired
    requires Merged(current, obs, now).periodStart < Merged(current, obs, now).periodEnd
    ensures var d := DecidePastDue(current, Merged(current, obs, now), now);
            d.Success? && d.value.Change? ==> Advances(current, d.value.event, d.value.next, now)
  {
  }

  lemma RenewAdvances(current: Subscription, obs: Observation, now: Instant)
    requires GoodRow(current) && current.status != Status.Expired
    requires Merged(current, obs, now).periodStart < Merged(current, obs, now).periodEnd
    ensures var d := DecideActivateOrRenew(current, Merged(current, obs, now), obs.status);
            d.Success? && d.value.Change? ==> Advances(current, d.value.event, d.value.next, now)
  {
  }

  /** Every decision on a good row leaves a good row one version on, visibly different, by an event that may follow. */
  lemma DecideAdvances(current: Subscription, obs: Observation, now: Instant)
    requires GoodRow(current) && Decide(current, obs, now).Success? && Decide(current, obs, now).value.Change?
    ensures Advances(current, Decide(current, obs, now).value.event, Decide(current, obs, now).value.next, now)
  {
    hide GoodRow, Merged, Advances, DecideExpire, DecidePlanChange, DecideCancel, DecidePastDue, DecideActivateOrRenew;
    ExpireAdvances(current, obs, now, obs.immediateExpire && current.status != Status.Canceled);
    PlanChangeAdvances(current, obs, now);
    CancelAdvances(current, obs, now);
    PastDueAdvances(current, obs, now);
    RenewAdvances(current, obs, now);
  }

  /** The language of events is exact: an event may follow if and only if some observation brings it about. */
  lemma TransitionLanguage(current: Subscription, event: EventType, now: Instant)
    requires GoodRow(current)
    ensures MayFollow(current.status, event) <==>
            exists obs ::
              Decide(current, obs, now).Success? && Decide(current, obs, now).value.Change?
              && Decide(current, obs, now).value.event == event
  {
    if obs :|
         Decide(current, obs, now).Success? && Decide(current, obs, now).value.Change?
         && Decide(current, obs, now).value.event == event {
      DecideAdvances(current, obs, now);
    }
    if MayFollow(current.status, event) {
      LanguageWitness(current, event, now);
    }
  }

  /** An observation that brings an allowed event about. */
  function Cause(current: Subscription, event: EventType): Observation {
    match event
    case WentPastDue => Observed(Status.PastDue)
    case WasCanceled => CANCELLATION
    case WasExpired => Observed(Status.Expired)
    case PlanChanged => Observed(Status.Active).(planId := current.planId + "+")
    case _ => Observed(Status.Trialing).(planId := current.planId + "+")
  }

  lemma LanguageWitness(current: Subscription, event: EventType, now: Instant)
    requires GoodRow(current) && MayFollow(current.status, event)
    ensures var d := Decide(current, Cause(current, event), now);
            d.Success? && d.value.Change? && d.value.event == event
  {
  }

  // ---------- repeated observations ----------

  /** Applying one observation to the stored row; the Stripe path asks for a plan change exactly when the plan
      differs. */
  function Reobserve(current: Subscription, obs: Observation, stripe: bool, now: Instant): Subscription {
    var d := Decide(current, ForRow(current, obs, stripe), now);
    if d.Success? && d.value.Change? then d.value.next else current
  }

  function ForRow(current: Subscription, obs: Observation, stripe: bool): Observation {
    if stripe
      then obs.(eventType := if obs.planId != "" && obs.planId != current.planId then Some(PlanChanged) else None)
      else obs
  }

  /** The row after observing the same thing at each of the given times. */
  function ReobserveAll(current: Subscription, obs: Observation, stripe: bool, times: seq<Instant>): Subscription
    decreases |times|
  {
    if times == [] then current else ReobserveAll(Reobserve(current, obs, stripe, times[0]), obs, stripe, times[1..])
  }

  /** How many more versions an observation can still consume. */
  function Rank(current: Subscription, obs: Observation): int {
    var d := Decide(current, obs, 0);
    if d.Failure? || d.value.Noop? then 0
    else if obs.planId != "" && obs.planId != current.planId && d.value.event == PlanChanged then 2
    else 1
  }

  lemma RankDrops(current: Subscription, obs: Observation, stripe: bool, now: Instant)
    requires GoodRow(current)
    ensures var next := Reobserve(current, obs, stripe, now);
            && GoodRow(next)
            && (next == current
                || (&& next.version == current.version + 1
                    && Rank(next, ForRow(next, obs, stripe)) < Rank(current, ForRow(current, obs, stripe))))
  {
    var o := ForRow(current, obs, stripe);
    var d := Decide(current, o, now);
    if d.Success? && d.value.Change? {
      DecideAdvances(current, o, now);
      RankAfter(current, obs, stripe, now);
    }
  }

  /** Every branch brings about its own event. */
  lemma BranchEvents(current: Subscription, next: Subscription, now: Instant, setCanceledAt: bool)
    ensures var d := DecideExpire(current, next, now, setCanceledAt);
            d.Success? && d.value.Change? ==> d.value.event == WasExpired
    ensures var d := DecidePlanChange(current, next); d.Success? && d.value.Change? ==> d.value.event == PlanChanged
    ensures var d := DecideCancel(current, next, now); d.Success? && d.value.Change? ==> d.value.event == WasCanceled
    ensures var d := DecidePastDue(current, next, now); d.Success? && d.value.Change? ==> d.value.event == WentPastDue
    ensures forall status :: var d := DecideActivateOrRenew(current, next, status);
                             d.Success? && d.value.Change? ==> d.value.event in {Renewed, Activated}
  {
  }

  lemma SettledAfterRenewed(current: Subscription, obs: Observation, stripe: bool, now: Instant)
    requires GoodRow(current)
    requires var d := Decide(current, ForRow(current, obs, stripe), now);
             d.Success? && d.value.Change? && d.value.event == Renewed
    ensures var next := Reobserve(current, obs, stripe, now);
            Rank(next, ForRow(next, obs, stripe)) == 0
  {
    hide DecideExpire, DecideCancel, DecidePastDue;
    var o := ForRow(current, obs, stripe);
    BranchEvents(current, Merged(current, o, now), now, o.immediateExpire && current.status != Status.Canceled);
  }

  lemma SettledAfterPastDue(current: Subscription, obs: Observation, stripe: bool, now: Instant)
    requires GoodRow(current)
    requires var d := Decide(current, ForRow(current, obs, stripe), now);
             d.Success? && d.value.Change? && d.value.event == WentPastDue
    ensures var next := Reobserve(current, obs, stripe, now);
            Rank(next, ForRow(next, obs, stripe)) == 0
  {
    hide GoodRow, DecideExpire, DecidePlanChange, DecideCancel, DecideActivateOrRenew;
    var o := ForRow(current, obs, stripe);
    BranchEvents(current, Merged(current, o, now), now, o.immediateExpire && current.status != Status.Canceled);
  }

  lemma SettledAfterCanceled(current: Subscription, obs: Observation, stripe: bool, now: Instant)
    requires GoodRow(current)
    requires var d := Decide(current, ForRow(current, obs, stripe), now);
             d.Success? && d.value.Change? && d.value.event == WasCanceled
    ensures var next := Reobserve(current, obs, stripe, now);
            Rank(next, ForRow(next, obs, stripe)) == 0
  {
    hide GoodRow, DecideExpire, DecidePlanChange, DecidePastDue, DecideActivateOrRenew;
    var o := ForRow(current, obs, stripe);
    BranchEvents(current, Merged(current, o, now), now, o.immediateExpire && current.status != Status.Canceled);
  }

  lemma SettledAfterExpired(current: Subscription, obs: Observation, stripe: bool, now: Instant)
    requires GoodRow(current)
    requires var d := Decide(current, ForRow(current, obs, stripe), now);
             d.Success? && d.value.Change? && d.value.event == WasExpired
    ensures var next := Reobserve(current, obs, stripe, now);
            Rank(next, ForRow(next, obs, stripe)) == 0
  {
    hide GoodRow, DecidePlanChange, DecideCancel, DecidePastDue, DecideActivateOrRenew;
    var o := ForRow(current, obs, stripe);
    BranchEvents(current, Merged(current, o, now), now, o.immediateExpire && current.status != Status.Canceled);
  }

  /** After any event but a change of plan, the same observation has nothing left to say. */
  lemma SettledAfter(current: Subscription, obs: Observation, stripe: bool, now: Instant, event: EventType)
    requires GoodRow(current) && event != PlanChanged
    requires var d := Decide(current, ForRow(current, obs, stripe), now);
             d.Success? && d.value.Change? && d.value.event == event
    ensures var next := Reobserve(current, obs, stripe, now);
            Rank(next, ForRow(next, obs, stripe)) == 0
  {
    hide Decide, GoodRow, Rank, Reobserve;
    DecideAdvances(current, ForRow(current, obs, stripe), now);
    match event
    case Renewed => SettledAfterRenewed(current, obs, stripe, now);
    case WentPastDue => SettledAfterPastDue(current, obs, stripe, now);
    case WasCanceled => SettledAfterCanceled(current, obs, stripe, now);
    case WasExpired => SettledAfterExpired(current, obs, stripe, now);
  }

  /** After a change of plan, the plan agrees. */
  lemma SettledAfterPlan(current: Subscription, obs: Observation, stripe: bool, now: Instant)
    requires GoodRow(current)
    requires var d := Decide(current, ForRow(current, obs, stripe), now);
             d.Success? && d.value.Change? && d.value.event == PlanChanged
    ensures var next := Reobserve(current, obs, stripe, now);
            && Rank(next, ForRow(next, obs, stripe)) <= 1
            && (obs.planId == "" || obs.planId == current.planId ==> Rank(next, ForRow(next, obs, stripe)) == 0)
  {
    hide GoodRow, DecideExpire, DecideCancel, DecidePastDue;
    var o := ForRow(current, obs, stripe);
    BranchEvents(current, Merged(current, o, now), now, o.immediateExpire && current.status != Status.Canceled);
  }

  /** Whether a decision is a change, and by which event, does not depend on the clock. */
  lemma RankOfChange(current: Subscription, obs: Observation, now: Instant)
    requires GoodRow(current)
    requires var d := Decide(current, obs, now); d.Success? && d.value.Change?
    ensures Rank(current, obs) ==
            if obs.planId != "" && obs.planId != current.planId && Decide(current, obs, now).value.event == PlanChanged
              then 2 else 1
  {
    hide Decide, GoodRow, DecideExpire, DecidePlanChange, DecideCancel, DecidePastDue, DecideActivateOrRenew;
    ChangesAtEveryClock(current, obs, now, 0);
    PlanChangeAtEveryClock(current, obs, now, 0);
  }

  lemma PlanChangeAtEveryClock(current: Subscription, obs: Observation, now: Instant, later: Instant)
    requires var d, e := Decide(current, obs, now), Decide(current, obs, later);
             d.Success? && d.value.Change? && e.Success? && e.value.Change?
    ensures Decide(current, obs, now).value.event == PlanChanged <==>
            Decide(current, obs, later).value.event == PlanChanged
  {
    hide Decide, AsksForPlan;
    PlanChangeAsked(current, obs, now);
    PlanChangeAsked(current, obs, later);
  }

  /** Whether an observation is taken up as a change of plan. */
  predicate AsksForPlan(current: Subscription, obs: Observation) {
    && !obs.immediateExpire && obs.status != Status.Expired
    && (obs.eventType == Some(PlanChanged)
        || (obs.planId != "" && obs.planId != current.planId && obs.status == Status.Active))
  }

  lemma PlanChangeAsked(current: Subscription, obs: Observation, now: Instant)
    requires Decide(current, obs, now).Success? && Decide(current, obs, now).value.Change?
    ensures Decide(current, obs, now).value.event == PlanChanged <==> AsksForPlan(current, obs)
  {
    hide DecideExpire, DecidePlanChange, DecideCancel, DecidePastDue, DecideActivateOrRenew;
    BranchEvents(current, Merged(current, obs, now), now, obs.immediateExpire && current.status != Status.Canceled);
  }

  lemma RankAfter(current: Subscription, obs: Observation, stripe: bool, now: Instant)
    requires GoodRow(current)
    requires var d := Decide(current, ForRow(current, obs, stripe), now); d.Success? && d.value.Change?
    ensures var next := Reobserve(current, obs, stripe, now);
            Rank(next, ForRow(next, obs, stripe)) < Rank(current, ForRow(current, obs, stripe))
  {
    hide Decide, GoodRow, Rank, Reobserve;
    var d := Decide(current, ForRow(current, obs, stripe), now);
    RankOfChange(current, ForRow(current, obs, stripe), now);
    if d.value.event == PlanChanged {
      SettledAfterPlan(current, obs, stripe, now);
    } else {
      SettledAfter(current, obs, stripe, now, d.value.event);
    }
  }

  /** Observing the same thing again and again consumes at most two versions. */
  lemma {:induction false} RepeatedObservations(current: Subscription, obs: Observation, stripe: bool,
          times: seq<Instant>)
    requires GoodRow(current)
    ensures var last := ReobserveAll(current, obs, stripe, times);
            && current.version <= last.version <= current.version + Rank(current, ForRow(current, obs, stripe))
            && Rank(current, ForRow(current, obs, stripe)) <= 2
    decreases |times|
  {
    hide Decide, GoodRow;
    if times != [] {
      RankDrops(current, obs, stripe, times[0]);
      RepeatedObservations(Reobserve(current, obs, stripe, times[0]), obs, stripe, times[1..]);
    }
  }

  /** Two outcomes that change the row, both or neither. */
  predicate SameVerdict(d: Result<Decision, Error>, e: Result<Decision, Error>) {
    (d.Success? && d.value.Change? <==> e.Success? && e.value.Change?) && (d == Success(Noop) <==> e == Success(Noop))
  }

  lemma BranchesAtEveryClock(current: Subscription, obs: Observation, now: Instant, later: Instant, setCanceledAt: bool)
    requires GoodRow(current)
    ensures var m, n := Merged(current, obs, now), Merged(current, obs, later);
            && SameVerdict(DecideExpire(current, m, now, setCanceledAt), DecideExpire(current, n, later, setCanceledAt))
            && SameVerdict(DecidePlanChange(current, m), DecidePlanChange(current, n))
            && SameVerdict(DecideCancel(current, m, now), DecideCancel(current, n, later))
            && SameVerdict(DecidePastDue(current, m, now), DecidePastDue(current, n, later))
  {
  }

  lemma RenewalAtEveryClock(current: Subscription, obs: Observation, now: Instant, later: Instant)
    requires GoodRow(current)
    ensures SameVerdict(DecideActivateOrRenew(current, Merged(current, obs, now), obs.status),
                        DecideActivateOrRenew(current, Merged(current, obs, later), obs.status))
  {
  }

  /** Whether an observation changes a row does not depend on the clock. */
  lemma ChangesAtEveryClock(current: Subscription, obs: Observation, now: Instant, later: Instant)
    requires GoodRow(current)
    ensures SameVerdict(Decide(current, obs, now), Decide(current, obs, later))
  {
    hide GoodRow, DecideExpire, DecidePlanChange, DecideCancel, DecidePastDue, DecideActivateOrRenew;
    BranchesAtEveryClock(current, obs, now, later, obs.immediateExpire && current.status != Status.Canceled);
    RenewalAtEveryClock(current, obs, now, later);
  }

  /** Once an observation has nothing left to say, it never has: not at any later time, however often it is repeated. */
  lemma {:induction false} SettledForever(current: Subscription, obs: Observation, stripe: bool, now: Instant,
          times: seq<Instant>)
    requires GoodRow(current) && Reobserve(current, obs, stripe, now) == current
    ensures ReobserveAll(current, obs, stripe, times) == current
    decreases |times|
  {
    hide Decide, GoodRow;
    if times != [] {
      var o := ForRow(current, obs, stripe);
      if Decide(current, o, now).Success? && Decide(current, o, now).value.Change? {
        DecideAdvances(current, o, now);
      }
      ChangesAtEveryClock(current, o, now, times[0]);
      SettledForever(current, obs, stripe, now, times[1..]);
    }
  }
}
