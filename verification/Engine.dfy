/**
 * The transactions of the engine (internal/engine/engine.go) as functions from one store to the next. A transaction
 * that fails yields an error and no store: it is rolled back. Clocks, fresh identifiers and the rows that an unordered
 * table scan happened to return are parameters.
 */
module Engine {
  import opened Wrappers
  import opened Calendar
  import opened Protocol
  import opened Model
  import opened Transition
  import T = Timestamps

  datatype Plan = Plan(merchant: string, currency: string, amount: int)

  datatype Config = Config(
    plans: map<string, Plan>,
    stripePrices: map<string, string>,
    retryDelays: seq<int>,
    dunningTermination: int,
    resolutionDeadline: int,
    schedulerLease: int,
    endpoint: string)

  /** Identifiers drawn for one transaction. */
  datatype Ids = Ids(event: string, action: string, dunning: string, subscription: string)

  // ---------- refusals ----------

  function UpperChar(c: char): char {
    if 'a' <= c <= 'z' then (c as int - 32) as char else if c == '\U{0131}' then 'I' else if c == '\U{017F}' then 'S'
    else c
  }

  function Trim(s: string): string {
    if s == "" then s
    else if IsSpace(s[0]) then Trim(s[1..])
    else if IsSpace(s[|s| - 1]) then Trim(s[..|s| - 1])
    else s
  }

  const FINAL_CODES := {
    "STOLEN", "INVALID", "CLOSED", "REVOKED", "STOLEN_CARD", "INVALID_CARD", "INVALID_CARD_NUMBER",
    "EXPIRED_CARD", "RESTRICTED_CARD", "BLOCKED_CARD", "6", "8", "5", "25"
  }

  /** Whether a refusal may be retried automatically (internal/engine/refusal.go). */
  predicate IsRetryableRefusal(code: string) {
    var c := Trim(code);
    seq(|c|, i requires 0 <= i < |c| => if c[i] == ' ' then '_' else UpperChar(c[i])) !in FINAL_CODES
  }

  /** A refusal without a recorded code may be retried. */
  predicate RetryableCode(code: Option<string>) {
    code.None? || IsRetryableRefusal(code.value)
  }

  // ---------- committing a change ----------

  function BuildCallback(eventId: string, event: EventType, sub: Subscription): Callback {
    Callback(NAME, VERSION, eventId, event, sub.checkoutId, sub.ref, sub.planId, sub.version, sub.status,
             T.FormatUTC(sub.periodStart), T.FormatUTC(sub.periodEnd), sub.cancelAtPeriodEnd,
                 T.FormatUTC(sub.stateChangedAt))
  }

  function NewCallback(eventId: string, event: EventType, sub: Subscription): Result<Callback, Error> {
    var cb := BuildCallback(eventId, event, sub);
    var valid :- ValidateCallback(cb);
    Success(cb)
  }

  /** What the reconciliation endpoint answers. */
  function SnapshotOf(sub: Subscription): Snapshot {
    Snapshot(NAME, VERSION, sub.checkoutId, sub.ref, sub.planId, sub.version, sub.status,
             T.FormatUTC(sub.periodStart), T.FormatUTC(sub.periodEnd), sub.cancelAtPeriodEnd,
                 T.FormatUTC(sub.stateChangedAt))
  }

  function NewEvent(id: string, event: EventType, sub: Subscription, payload: Callback, now: Instant): OutboundEvent {
    OutboundEvent(id, event, sub.ref, sub.checkoutId, sub.version, payload, DeliveryState.Pending, 0, Some(now), None,
                  None, None, None, UNCLAIMED)
  }

  /** Replaces the pending work of a subscription by one action, unless that action exists already. */
  function Schedule(s: Store, ref: string, kind: ActionKind, target: Instant, id: string): Store {
    EnsureAction(CancelActions(s, ref, Some(KeyOf(ref, kind, target))), NewAction(id, ref, kind, target))
  }

  predicate StartsRenewal(event: EventType, next: Subscription) {
    next.family == Adyen && (event == Activated || event == Renewed) && next.status == Status.Active
  }

  /** The follow-up work of an event. */
  function FollowUp(s: Store, event: EventType, next: Subscription, actionId: string): Store {
    var s1 := if StartsRenewal(event, next) then Schedule(s, next.ref, Renew, next.periodEnd, actionId) else s;
    var s2 := if event == WasCanceled then Schedule(s1, next.ref, Expire, next.periodEnd, actionId) else s1;
    if event == WasExpired then CancelActions(s2, next.ref, None) else s2
  }

  /** Writes the new row, its outbound event and its follow-up work, or nothing. */
  function CommitChange(s: Store, created: bool, next: Subscription, event: EventType, ids: Ids, now: Instant)
    : Result<Store, Error>
  {
    var payload :- NewCallback(ids.event, event, next);
    var s1 :- if created then InsertSubscription(s, next) else UpdateSubscription(s, next);
    var s2 :- InsertOutbound(s1, NewEvent(ids.event, event, next, payload, now));
    Success(FollowUp(s2, event, next, ids.action))
  }

  function Commit(s: Store, d: Decision, ids: Ids, now: Instant): Result<Store, Error> {
    match d
    case Noop => Success(s)
    case Change(event, next, _, _, _, _) => CommitChange(s, false, next, event, ids, now)
  }

  /** Decides on the stored row and commits. */
  function Observe(s: Store, ref: string, obs: Observation, now: Instant, ids: Ids, txNow: Instant)
    : Result<Store, Error>
  {
    var sub :- GetSubscription(s, ref);
    var d :- Decide(sub, obs, now);
    Commit(s, d, ids, txNow)
  }

  function CancelAtPeriodEnd(s: Store, ref: string, now: Instant, ids: Ids, txNow: Instant): Result<Store, Error> {
    Observe(s, ref, CANCELLATION, now, ids, txNow)
  }

  function ExpireNow(s: Store, ref: string, now: Instant, ids: Ids, txNow: Instant): Result<Store, Error> {
    Observe(s, ref, IMMEDIATE_EXPIRY, now, ids, txNow)
  }

  // ---------- checkouts ----------

  predicate Terminal(status: CheckoutStatus) {
    status.Completed? || status.Expired? || status.Canceled?
  }

  /** Whether a stored checkout was started by the same request. */
  predicate SameRequest(known: Checkout, c: Checkout) {
    known.fingerprint == c.fingerprint && known.planId == c.planId && known.returnUrl == c.returnUrl
    && known.family == c.family
  }

  /** A start request inserts its checkout; a known checkout is left alone, and resumed only by the same request while
      it is not over. */
  function StartCheckout(s: Store, c: Checkout): Result<Store, Error> {
    if c.id in s.checkouts then
      if !SameRequest(s.checkouts[c.id], c) then Failure(CheckoutConflict)
      else if Terminal(s.checkouts[c.id].status) then Failure(CheckoutTerminal)
      else Success(s)
    else InsertCheckout(s, c.(status := Creating, subscriptionRef := None, processorCheckoutId := None))
  }

  /** The second transaction, after the provider has accepted the session. */
  function CheckoutAccepted(s: Store, id: string, processorCheckoutId: string, expiresAt: Instant)
    : Result<Store, Error>
  {
    var c :- GetCheckout(s, id);
    UpdateCheckout(s, c.(status := CheckoutStatus.Pending, processorCheckoutId := Some(processorCheckoutId),
                         expiresAt := if expiresAt != ZERO_TIME then expiresAt else c.expiresAt))
  }

  /** Creates the subscription of a checkout and binds the checkout to it. */
  function CreateSubscription(s: Store, co: Checkout, sub: Subscription, ids: Ids, txNow: Instant)
    : Result<Store, Error>
  {
    var s1 :- CommitChange(s, true, sub, Activated, ids, txNow);
    UpdateCheckout(s1, co.(status := CheckoutStatus.Completed, subscriptionRef := Some(sub.ref)))
  }

  function ActivateCheckout(s: Store, id: string, now: Instant, ids: Ids, txNow: Instant): Result<Store, Error> {
    var co :- GetCheckout(s, id);
    if co.subscriptionRef.Some? then Success(s) else
      CreateSubscription(s, co,
                         FirstActivation(co, ids.subscription, Status.Active, now, AddCalendarMonths(now, 1), now,
                                                None, None, None, co.shopperRef), ids, txNow)
  }

  // ---------- charge attempts ----------

  function BlockAutomaticCharging(s: Store, sub: Subscription, reason: string, now: Instant, ids: Ids,
          txNow: Instant): Result<Store, Error> {
    var d :- if sub.status != Status.PastDue then Decide(sub, Observed(Status.PastDue), now) else Success(Noop);
    var s1 :- Commit(s, d, ids, txNow);
    var sub1 := if d.Change? then d.next else sub;
    UpdateSubscription(s1, sub1.(chargingBlocked := true, blockReason := Some(reason)))
  }

  /** Whether a refusal ends the dunning of an action. */
  predicate LastRefusal(cfg: Config, number: AttemptNumber, retryable: bool) {
    !retryable || number >= |cfg.retryDelays|
  }

  /** After a refusal found outside the charging worker: retry later, or give up and schedule the expiry. */
  function RescheduleOrExpire(s: Store, cfg: Config, t: ChargeAttempt, ref: string, now: Instant, dunningId: string)
    : Result<Store, Error>
  {
    if LastRefusal(cfg, t.number, RetryableCode(t.refusalCode)) then
      var s1 :- ForceFinishAction(s, t.actionId, ActionStatus.Completed, None, Some("refused"));
      Success(EnsureAction(s1, NewAction(dunningId, ref, Expire, now + cfg.dunningTermination)))
    else
      ForceFinishAction(s, t.actionId, ActionStatus.Pending, Some(now + cfg.retryDelays[t.number - 1]), Some("refused"))
  }

  /** Records that an attempt was authorised: the attempt, its action and the paid period. */
  function RecordAuthorised(s: Store, t: ChargeAttempt, unblock: bool, now: Instant, ids: Ids, txNow: Instant)
    : Result<Store, Error>
  {
    var s1 :- UpdateAttempt(s, t.(status := Authorized));
    var s2 :- ForceFinishAction(s1, t.actionId, ActionStatus.Completed, None, None);
    var row :- GetSubscription(s2, t.ref);
    var sub := if unblock then row.(chargingBlocked := false, blockReason := None) else row;
    var d :- Decide(sub, PaidPeriod(t.periodStart, t.periodEnd), now);
    if d.Noop? then (if unblock then UpdateSubscription(s2, sub) else Success(s2)) else Commit(s2, d, ids, txNow)
  }

  /** Records a refusal learned from a webhook or an operator. */
  function RecordRefused(s: Store, cfg: Config, t: ChargeAttempt, now: Instant, ids: Ids, txNow: Instant)
    : Result<Store, Error>
  {
    var s1 :- UpdateAttempt(s, t.(status := Refused));
    var s2 :- Observe(s1, t.ref, Observed(Status.PastDue), now, ids, txNow);
    RescheduleOrExpire(s2, cfg, t, t.ref, now, ids.dunning)
  }

  datatype Resolution = Paid | Declined | GivenUp | Unknown

  /** An operator settles an attempt that the bridge could not settle. */
  function ResolveAttempt(s: Store, cfg: Config, id: string, outcome: Resolution, reason: string, actor: string,
          paymentId: string, now: Instant, ids: Ids, txNow: Instant): Result<Store, Error>
  {
    var t0 :- GetAttempt(s, id);
    :- Need(t0.status.Uncertain? || t0.status.ManualReview?, WrongAttemptStatus);
    var sub :- GetSubscription(s, t0.ref);
    var s1 := InsertAudit(s,
                          Audit("resolve-attempt", id, if actor == "" then "cli" else actor,
                                if reason == "" then "operator" else reason));
    var t := t0.(claim := t0.claim.Release(), completedAt := Some(now),
                 paymentId := if paymentId != "" then Some(paymentId) else t0.paymentId);
    match outcome
    case Paid => RecordAuthorised(s1, t, true, now, ids, txNow)
    case Declined => RecordRefused(s1, cfg, t, now, ids, txNow)
    case GivenUp =>
      var s2 :- UpdateAttempt(s1, t.(status := AttemptStatus.Canceled));
      var s3 :- ForceFinishAction(s2, t.actionId, ActionStatus.Canceled, None, Some("operator"));
      Observe(s3, t.ref, IMMEDIATE_EXPIRY, now, ids, txNow)
    case Unknown => Failure(WrongAttemptStatus)
  }

  // ---------- processor events ----------

  datatype EventKind = StripeCheckout | StripeSubscription | AdyenInitial
    | AdyenRenewal | AdyenContract | AdyenOperational

  /** A verified webhook item; absent fields are empty. */
  datatype NormalizedEvent = NormalizedEvent(
    key: EventKey,
    kind: EventKind,
    checkoutId: string,
    processorSubId: string,
    attemptReference: string,
    paymentId: string,
    success: bool,
    refusalCode: string,
    paymentMethod: string)

  /** What Stripe says about a subscription. */
  datatype SubscriptionState = SubscriptionState(
    status: Status,
    priceId: string,
    periodStart: Instant,
    periodEnd: Instant,
    cancelAtPeriodEnd: bool,
    customerId: string,
    subId: string,
    immediateCancel: bool,
    deleted: bool)

  /** The rows that the table scans of one webhook returned. */
  datatype Hits = Hits(byProcessor: Option<string>, byCheckout: Option<string>, byReference: Option<string>,
                       byInitialPayment: Option<string>, byChargePayment: Option<string>)

  function NonEmpty(s: string): Option<string> {
    if s == "" then None else Some(s)
  }

  ghost predicate HitsAgree(s: Store, ev: NormalizedEvent, state: Option<SubscriptionState>, hits: Hits) {
    && (state.Some? ==> Finds(s.subs, HasProcessorSub(Stripe, state.value.subId), hits.byProcessor))
    && Finds(s.subs, HasCheckout(ev.checkoutId), hits.byCheckout)
    && Finds(s.attempts, HasReference(ev.attemptReference), hits.byReference)
    && Finds(s.subs, HasInitialPayment(Adyen, ev.paymentId), hits.byInitialPayment)
    && Finds(s.attempts, HasPayment(ev.paymentId), hits.byChargePayment)
  }

  /** Events about one checkout, one processor subscription or one attempt are processed one at a time. */
  function ProcessingKey(ev: NormalizedEvent): string {
    if ev.checkoutId != "" then ev.checkoutId
    else if ev.processorSubId != "" then ev.processorSubId
    else if ev.attemptReference != "" then ev.attemptReference
    else (if ev.key.family == Stripe then "stripe" else "adyen") + ":" + ev.key.id
  }

  /** The stored subscription that a Stripe event is about. */
  function StripeSubject(ev: NormalizedEvent, state: SubscriptionState, hits: Hits): Option<string> {
    if state.subId != "" && hits.byProcessor.Some? then hits.byProcessor
    else if ev.checkoutId != "" then hits.byCheckout
    else None
  }

  function StripeObservation(cfg: Config, sub: Subscription, state: SubscriptionState): Result<Observation, Error> {
    var obs := Observation(None, state.status, "", state.periodStart, state.periodEnd, state.cancelAtPeriodEnd,
                           state.immediateCancel || state.deleted);
    if state.priceId == "" then Success(obs)
    else if state.priceId !in cfg.stripePrices then Failure(UnknownStripePrice)
    else
      var plan := cfg.stripePrices[state.priceId];
      Success(obs.(planId := plan, eventType := if plan != sub.planId then Some(PlanChanged) else None))
  }

  function ApplyStripe(s: Store, cfg: Config, ev: NormalizedEvent, state: Option<SubscriptionState>, hits: Hits,
                       now: Instant, ids: Ids, txNow: Instant): Result<(Store, Option<string>), Error>
  {
    if state.None? then Success((s, None)) else
      var st := state.value;
      var subject := StripeSubject(ev, st, hits);
      if subject.None? then
        if ev.checkoutId == "" then Success((s, None)) else
          var co :- GetCheckout(s, ev.checkoutId);
          if !st.status.Active? && !st.status.Trialing? then Success((s, None)) else
            var created := FirstActivation(co, ids.subscription, st.status, st.periodStart, st.periodEnd, now,
                                           NonEmpty(st.customerId), NonEmpty(st.subId), None, None);
            var s' :- CreateSubscription(s, co, created, ids, txNow);
            Success((s', Some(ids.subscription)))
      else
        var sub :- GetSubscription(s, subject.value);
        var obs :- StripeObservation(cfg, sub, st);
        var d :- Decide(sub, obs, now);
        var s' :- Commit(s, d, ids, txNow);
        Success((s', subject))
  }

  function ApplyAdyenInitial(s: Store, ev: NormalizedEvent, now: Instant, ids: Ids, txNow: Instant)
    : Result<(Store, Option<string>), Error>
  {
    if !ev.success || ev.checkoutId == "" then Success((s, None)) else
      var co :- GetCheckout(s, ev.checkoutId);
      if co.status.Completed? && co.subscriptionRef.Some?
        then ReplacePaymentMethod(s, co.subscriptionRef.value, ev) else
        var created := FirstActivation(co, ids.subscription, Status.Active, now, AddCalendarMonths(now, 1), now,
                                       None, None, NonEmpty(ev.paymentId), co.shopperRef);
        var s' :- CreateSubscription(s, co, WithPaymentMethod(created, ev.paymentMethod), ids, txNow);
        Success((s', Some(ids.subscription)))
  }

  function WithPaymentMethod(sub: Subscription, method_: string): Subscription {
    if method_ == "" then sub else sub.(paymentMethod := Some(method_))
  }

  /** A new payment method lifts a charging block; the consumer sees nothing of it. */
  function ReplacePaymentMethod(s: Store, ref: string, ev: NormalizedEvent): Result<(Store, Option<string>), Error> {
    if ev.paymentMethod == "" then Success((s, Some(ref))) else
      var sub :- GetSubscription(s, ref);
      if sub.status == Status.Expired then Success((s, Some(ref))) else
        var s1 :- UpdateSubscription(s,
                                     WithPaymentMethod(sub, ev.paymentMethod).(chargingBlocked := false,
                                         blockReason := None));
        Success((InsertAudit(s1, Audit("payment-method-replaced", ref, "engine", "adyen-stored-payment-method")),
                 Some(ref)))
  }

  function ApplyAdyenRenewal(s: Store, cfg: Config, ev: NormalizedEvent, hits: Hits, now: Instant, ids: Ids,
          txNow: Instant)
    : Result<(Store, Option<string>), Error>
  {
    if !(ev.attemptReference != "" && hits.byReference.Some? && hits.byReference.value in s.attempts)
      then Failure(Error.ManualReview) else
    var t0 := s.attempts[hits.byReference.value];
    if t0.status.Refused? || t0.status.Canceled? || t0.status.ManualReview? then Success((s, Some(t0.ref))) else
      var sub :- GetSubscription(s, t0.ref);
      if t0.status.Authorized? then Success((s, Some(t0.ref))) else
      var t := t0.(claim := t0.claim.Release(), completedAt := Some(now),
                   paymentId := if ev.paymentId != "" then Some(ev.paymentId) else t0.paymentId);
      var code := if ev.refusalCode != "" then Some(ev.refusalCode) else t0.refusalCode;
      var s' :- if ev.success then RecordAuthorised(s, t, false, now, ids, txNow)
                else RecordRefused(s, cfg, t.(refusalCode := code), now, ids, txNow);
      Success((s', Some(t0.ref)))
  }

  /** The subscription of a payment, known by its first payment or by a later charge; the two must not disagree. */
  function ContractSubject(s: Store, hits: Hits): Option<string> {
    var initial := hits.byInitialPayment;
    var charge := if hits.byChargePayment.Some? && hits.byChargePayment.value in s.attempts
         && s.attempts[hits.byChargePayment.value].ref in s.subs
                  then Some(s.attempts[hits.byChargePayment.value].ref) else None;
    if initial.Some? && charge.Some? && initial != charge then None else if initial.Some? then initial else charge
  }

  function ApplyAdyenContract(s: Store, ev: NormalizedEvent, hits: Hits, now: Instant, ids: Ids, txNow: Instant)
    : Result<(Store, Option<string>), Error>
  {
    if ev.paymentId == "" then Failure(Error.ManualReview) else
    var subject := ContractSubject(s, hits);
    :- Need(subject.Some?, Error.ManualReview);
    var s' :- Observe(s, subject.value, CANCELLATION, now, ids, txNow);
    Success((s', subject))
  }

  function ApplyObservation(s: Store, cfg: Config, ev: NormalizedEvent, state: Option<SubscriptionState>, hits: Hits,
                            now: Instant, ids: Ids, txNow: Instant): Result<(Store, Option<string>), Error>
  {
    match ev.kind
    case StripeCheckout => ApplyStripe(s, cfg, ev, state, hits, now, ids, txNow)
    case StripeSubscription => ApplyStripe(s, cfg, ev, state, hits, now, ids, txNow)
    case AdyenInitial => ApplyAdyenInitial(s, ev, now, ids, txNow)
    case AdyenRenewal => ApplyAdyenRenewal(s, cfg, ev, hits, now, ids, txNow)
    case AdyenContract => ApplyAdyenContract(s, ev, hits, now, ids, txNow)
    case AdyenOperational => Success((s, None))
  }

  /** A webhook worker's lease on its event and on the processing key of the event. */
  datatype EventLease = EventLease(token: string, fence: int)

  /** Closes an event and gives its processing lease back; without the lease nothing of the transaction remains. */
  function CloseEvent(s: Store, ev: NormalizedEvent, lease: EventLease, state: ProcessingState, ref: Option<string>,
          now: Instant): Result<Store, Error> {
    var s1 :- FinishProcessorEvent(s, ev.key, lease.token, lease.fence, state, ref, now);
    ReleaseProcessorLease(s1, ProcessingKey(ev), lease.token, lease.fence)
  }

  predicate StillOwned(s: Store, ev: NormalizedEvent, lease: EventLease) {
    ev.key in s.procEvents && s.procEvents[ev.key].state.Running?
    && s.procEvents[ev.key].claim.Owned(lease.token, lease.fence)
  }

  /** The last transaction of a webhook: apply what was observed, unless somebody else has taken the event over. */
  function CommitEvent(s: Store, cfg: Config, ev: NormalizedEvent, lease: EventLease, state: Option<SubscriptionState>,
          hits: Hits, now: Instant, ids: Ids, txNow: Instant): Result<Store, Error>
  {
    if ev.key !in s.procEvents then Failure(Error.NotFound) else
    if !StillOwned(s, ev, lease) then Success(s) else
      match ApplyObservation(s, cfg, ev, state, hits, now, ids, txNow)
      case Success((s1, ref)) => CloseEvent(s1, ev, lease, Processed, ref, now)
      case Failure(e) =>
        if e == UnknownStripePrice && state.Some?
          then CloseEvent(s, ev, lease, Quarantined, StripeSubject(ev, state.value, hits), now)
        else if e == Error.ManualReview then CloseEvent(s, ev, lease, ProcessingState.ManualReview, None, now)
        else Failure(e)
  }

  /** The mock endpoint queues the latest event of a subscription again. */
  function ReplayLatest(s: Store, id: string, reason: string, actor: string, txNow: Instant): Result<Store, Error> {
    if id !in s.outbound then Failure(Error.NotFound) else
    if s.outbound[id].state.Pending? then Success(s)
    else RequeueOutbound(s, id, if reason == "" then "mock-replay" else reason,
                         if actor == "" then "mock" else actor, txNow)
  }
}
