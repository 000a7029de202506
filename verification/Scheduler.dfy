/**
 * The transactions of the scheduler (internal/scheduler/scheduler.go): preparing, claiming and settling the charge of
 * a renewal, and the expiry of subscriptions.
 */
module Scheduler {
  import opened Wrappers
  import opened Calendar
  import opened Protocol
  import opened Model
  import opened Transition
  import opened Engine

  const DEFAULT_LEASE := 120
  const DEFAULT_DEADLINE := 144 * 3600

  function Lease(cfg: Config): int {
    if cfg.schedulerLease > 0 then cfg.schedulerLease else DEFAULT_LEASE
  }

  /** Expires the subscription of a due expire action, within one transaction. */
  function RunExpire(s: Store, id: string, token: string, cfg: Config, now: Instant, ids: Ids, txNow: Instant)
    : Result<Store, Error>
  {
    var (s1, a) :- ClaimAction(s, id, token, now, Lease(cfg));
    var s2 :- Observe(s1, a.ref, Observed(Status.Expired), now, ids, txNow);
    FinishAction(s2, id, token, a.claim.fence, ActionStatus.Completed, None, None)
  }

  // ---------- preparing ----------

  predicate IsOpen(status: AttemptStatus) {
    status.Prepared? || status.Uncertain? || status.Running?
  }

  predicate IsInFlight(status: AttemptStatus) {
    status.Uncertain? || status.Running?
  }

  /** Which attempt a scheduler goes on with: an existing one, or a new one with the given number. */
  datatype Choice = Reuse(id: string) | Anew(number: AttemptNumber)

  /** The attempt of an action with the lowest number among those of the wanted statuses. */
  ghost predicate FirstWith(s: Store, actionId: string, wanted: AttemptStatus -> bool, id: string) {
    && id in s.attempts && s.attempts[id].actionId == actionId && wanted(s.attempts[id].status)
    && forall other ::
         other in s.attempts && s.attempts[other].actionId == actionId && wanted(s.attempts[other].status) ==>
         s.attempts[id].number <= s.attempts[other].number
  }

  ghost predicate NoneWith(s: Store, actionId: string, wanted: AttemptStatus -> bool) {
    forall id :: id in s.attempts && s.attempts[id].actionId == actionId ==> !wanted(s.attempts[id].status)
  }

  /** One more than the highest number so far. */
  ghost predicate NextNumber(s: Store, actionId: string, n: int) {
    && (forall id :: id in s.attempts && s.attempts[id].actionId == actionId ==> s.attempts[id].number < n)
    && (n == 1
        || exists id :: id in s.attempts && s.attempts[id].actionId == actionId && s.attempts[id].number == n - 1)
  }

  ghost predicate Chooses(s: Store, actionId: string, choice: Choice) {
    match choice
    case Reuse(id) => FirstWith(s, actionId, IsOpen, id)
    case Anew(n) => NoneWith(s, actionId, IsOpen) && NextNumber(s, actionId, n)
  }

  function ResolvePlan(cfg: Config, planId: string): Result<Plan, Error> {
    if planId in cfg.plans then Success(cfg.plans[planId]) else Failure(UnknownPlan)
  }

  function OrEmpty(s: Option<string>): string {
    if s.Some? then s.value else ""
  }

  function ChargeKey(reference: string): string {
    "sb_charge_" + reference
  }

  function NewAttempt(id: string, reference: string, number: AttemptNumber, actionId: string, sub: Subscription,
          plan: Plan, endpoint: string): ChargeAttempt {
    var shopper := OrEmpty(sub.shopperRef);
    ChargeAttempt(id, actionId, sub.ref, sub.periodEnd, AddCalendarMonths(sub.periodEnd, 1), number,
                  Request(endpoint, plan.merchant, plan.amount, plan.currency, reference, shopper, ChargeKey(reference),
                          PaymentBody(plan.merchant, plan.currency, reference, shopper, OrEmpty(sub.paymentMethod),
                                      plan.amount)),
                  Prepared, UNCLAIMED, None, None, None, None, None)
  }

  /** The open attempt of an action, or a new one for the period that follows the current one. */
  function EnsurePrepared(s: Store, cfg: Config, a: ScheduledAction, choice: Choice, attemptId: string,
          reference: string)
    : Result<(Store, string), Error>
  {
    var sub :- GetSubscription(s, a.ref);
    :- Need(!sub.chargingBlocked, ChargeBlocked);
    match choice
    case Reuse(id) => Success((s, id))
    case Anew(n) =>
      var plan :- ResolvePlan(cfg, sub.planId);
      var s' :- InsertAttempt(s, NewAttempt(attemptId, reference, n, a.id, sub, plan, cfg.endpoint));
      Success((s', attemptId))
  }

  /** An attempt whose outcome stayed unknown until its deadline is handed to an operator. */
  function GiveUp(s: Store, a: ScheduledAction, attemptId: string, now: Instant, ids: Ids, txNow: Instant)
    : Result<Store, Error>
  {
    var t :- GetAttempt(s, attemptId);
    var s1 :- UpdateAttempt(s, t.(status := AttemptStatus.ManualReview, claim := t.claim.Release()));
    var s2 :- ForceFinishAction(s1, a.id, ActionStatus.ManualReview, None, Some("resolution_deadline"));
    var sub :- GetSubscription(s2, a.ref);
    BlockAutomaticCharging(s2, sub, "resolution_deadline", now, ids, txNow)
  }

  predicate PastDeadline(t: ChargeAttempt, now: Instant) {
    t.resolutionDeadline.Some? && t.resolutionDeadline.value <= now
  }

  // ---------- charging ----------

  function Deadline(cfg: Config, now: Instant): Instant {
    now + (if cfg.resolutionDeadline > 0 then cfg.resolutionDeadline else DEFAULT_DEADLINE)
  }

  /** Takes the action and its attempt, under one fence, before the provider is called. */
  function ClaimCharge(s: Store, cfg: Config, actionId: string, attemptId: string, token: string, now: Instant)
    : Result<(Store, ScheduledAction, ChargeAttempt), Error>
  {
    var (s1, a) :- ClaimAction(s, actionId, token, now, Lease(cfg));
    var (s2, t) :- ClaimAttemptWithAction(s1, actionId, attemptId, token, a.claim.fence, now, Lease(cfg),
                                          Deadline(cfg, now));
    Success((s2, a, t))
  }

  /** What the provider answered. */
  datatype Reply = Unclear | Authorised(paymentId: string) | Declined(paymentId: string, code: string)

  /** When an attempt with an unclear outcome is looked at again: in a minute, but not after its deadline. */
  function RecheckAt(t: ChargeAttempt, now: Instant): Instant {
    if t.resolutionDeadline.Some? && now + 60 > t.resolutionDeadline.value then t.resolutionDeadline.value else now + 60
  }

  /** Records the answer, unless the claim has been lost in the meantime. */
  function SettleCharge(s: Store, cfg: Config, a: ScheduledAction, attemptId: string, token: string, fence: int,
          reply: Reply, now: Instant, ids: Ids, txNow: Instant): Result<Store, Error>
  {
    var cur :- GetAttempt(s, attemptId);
    if !cur.claim.Owned(token, fence) then Success(s) else
      match reply
      case Unclear =>
        var s1 :- UpdateAttempt(s, cur.(status := AttemptStatus.Uncertain, claim := cur.claim.Release()));
        FinishAction(s1, a.id, token, fence, ActionStatus.Uncertain, Some(RecheckAt(cur, now)), Some("uncertain"))
      case Authorised(paymentId) =>
        var s1 :- UpdateAttempt(s,
                                cur.(status := Authorized, paymentId := Some(paymentId), completedAt := Some(now),
                                     claim := cur.claim.Release()));
        var s2 :- Observe(s1, a.ref, PaidPeriod(cur.periodStart, cur.periodEnd), now, ids, txNow);
        FinishAction(s2, a.id, token, fence, ActionStatus.Completed, None, None)
      case Declined(paymentId, code) =>
        var s1 :- UpdateAttempt(s, DeclinedAttempt(cur, paymentId, code, now));
        var s2 :- Observe(s1, a.ref, Observed(Status.PastDue), now, ids, txNow);
        if LastRefusal(cfg, cur.number, IsRetryableRefusal(code)) then
          var s3 :- FinishAction(s2, a.id, token, fence, ActionStatus.Completed, None, Some("refused"));
          Success(EnsureAction(s3, NewAction(ids.dunning, a.ref, Expire, now + cfg.dunningTermination)))
        else
          FinishAction(s2, a.id, token, fence, ActionStatus.Pending, Some(now + cfg.retryDelays[cur.number - 1]),
                       Some("refused"))
  }

  function DeclinedAttempt(t: ChargeAttempt, paymentId: string, code: string, now: Instant): ChargeAttempt {
    t.(status := Refused,
       paymentId := if paymentId != "" then Some(paymentId) else t.paymentId,
       refusalCode := if code != "" then Some(code) else t.refusalCode,
       completedAt := Some(now),
       claim := t.claim.Release())
  }
}
