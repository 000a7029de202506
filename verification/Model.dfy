/**
 * The rows of the store and what each store operation does to them (internal/store/models.go,
 * internal/store/memory.go). These functions are the specification that the class Memory is proved against and
 * that the step system runs on. Clocks, fresh identifiers and claim tokens are parameters.
 */
module Model {
  import opened Wrappers
  import opened Calendar
  import opened Protocol

  /** Go's zero time.Time, 0001-01-01T00:00:00Z, which the code reads as "not given". */
  const ZERO_TIME: Instant := -62135596800

  const SIX_DAYS := 6 * 24 * 3600

  // ---------- claims ----------

  /** Who works on a row: a token that only the claimant knows, a fence that every claim raises, and a lease. */
  datatype Claim = Claim(token: Option<string>, fence: int, leaseUntil: Option<Instant>) {
    predicate Owned(t: string, f: int) {
      token == Some(t) && fence == f
    }

    predicate Live(now: Instant) {
      leaseUntil.Some? && leaseUntil.value > now
    }

    function Take(t: string, until: Instant): Claim {
      Claim(Some(t), fence + 1, Some(until))
    }

    function Release(): Claim {
      Claim(None, fence, None)
    }
  }

  const UNCLAIMED := Claim(None, 0, None)

  // ---------- rows ----------

  datatype Family = Stripe | Adyen

  datatype CheckoutStatus = Creating | Pending | Completed | Expired | Canceled

  datatype Checkout = Checkout(
    id: string,
    planId: string,
    returnUrl: string,
    family: Family,
    fingerprint: string,
    idempotencyKey: string,
    shopperRef: Option<string>,
    status: CheckoutStatus,
    subscriptionRef: Option<string>,
    processorCheckoutId: Option<string>,
    expiresAt: Instant)

  datatype Subscription = Subscription(
    ref: string,
    checkoutId: string,
    planId: string,
    status: Status,
    version: int,
    family: Family,
    customerId: Option<string>,
    processorSubId: Option<string>,
    initialPaymentId: Option<string>,
    shopperRef: Option<string>,
    paymentMethod: Option<string>,
    periodStart: Instant,
    periodEnd: Instant,
    cancelAtPeriodEnd: bool,
    stateChangedAt: Instant,
    pastDueSince: Option<Instant>,
    canceledAt: Option<Instant>,
    chargingBlocked: bool,
    blockReason: Option<string>)

  datatype DeliveryState = Pending | Delivered | DeadLettered | Abandoned

  datatype OutboundEvent = OutboundEvent(
    id: string,
    eventType: EventType,
    ref: string,
    checkoutId: string,
    version: int,
    payload: Callback,
    state: DeliveryState,
    attemptCount: int,
    nextAttemptAt: Option<Instant>,
    deliveredAt: Option<Instant>,
    deadLetteredAt: Option<Instant>,
    abandonedAt: Option<Instant>,
    lastError: Option<string>,
    claim: Claim)

  datatype ProcessingState = Pending | Running | Processed | Quarantined | ManualReview

  datatype EventKey = EventKey(family: Family, id: string)

  datatype ProcessorEvent = ProcessorEvent(
    key: EventKey,
    actionId: string,
    state: ProcessingState,
    ref: Option<string>,
    processedAt: Option<Instant>,
    claim: Claim)

  datatype ProcessingLease = ProcessingLease(key: string, running: bool, activeActionId: Option<string>, claim: Claim)

  datatype ActionKind = Renew | Expire

  datatype ActionStatus = Pending | Running | Uncertain | Completed | Canceled | ManualReview

  /** The hash of the key material stands for the material itself; Timestamps.ActionKeyInjective shows that the
      material determines these three parts. */
  datatype ActionKey = ActionKey(ref: string, kind: ActionKind, target: Instant)

  datatype ScheduledAction = ScheduledAction(
    id: string,
    key: ActionKey,
    ref: string,
    kind: ActionKind,
    target: Instant,
    dueAt: Instant,
    status: ActionStatus,
    claim: Claim,
    lastError: Option<string>)

  datatype AttemptStatus = Prepared | Running | Uncertain | Authorized | Refused | Canceled | ManualReview

  type AttemptNumber = n: int | n >= 1 witness 1

  /** The body of a recurring charge; its bytes are an injective encoding of these fields. */
  datatype PaymentBody = PaymentBody(merchant: string, currency: string, reference: string, shopper: string,
                                     token: string, amount: int)

  /** What is sent to the provider, fixed when the attempt is prepared. */
  datatype Request = Request(
    endpoint: string,
    merchant: string,
    amount: int,
    currency: string,
    reference: string,
    shopper: string,
    idempotencyKey: string,
    body: PaymentBody)

  datatype ChargeAttempt = ChargeAttempt(
    id: string,
    actionId: string,
    ref: string,
    periodStart: Instant,
    periodEnd: Instant,
    number: AttemptNumber,
    request: Request,
    status: AttemptStatus,
    claim: Claim,
    paymentId: Option<string>,
    firstSubmittedAt: Option<Instant>,
    resolutionDeadline: Option<Instant>,
    refusalCode: Option<string>,
    completedAt: Option<Instant>)

  datatype Audit = Audit(action: string, target: string, actor: string, reason: string)

  datatype Store = Store(
    checkouts: map<string, Checkout>,
    subs: map<string, Subscription>,
    outbound: map<string, OutboundEvent>,
    procEvents: map<EventKey, ProcessorEvent>,
    leases: map<string, ProcessingLease>,
    actions: map<string, ScheduledAction>,
    attempts: map<string, ChargeAttempt>,
    audits: seq<Audit>)

  const EMPTY := Store(map[], map[], map[], map[], map[], map[], map[], [])

  // ---------- checkouts ----------

  function InsertCheckout(s: Store, c: Checkout): Result<Store, Error> {
    if c.id in s.checkouts then Failure(Error.Conflict) else
    :- Need(forall id :: id in s.checkouts ==> s.checkouts[id].idempotencyKey != c.idempotencyKey, Error.Conflict);
    Success(s.(checkouts := s.checkouts[c.id := c]))
  }

  function GetCheckout(s: Store, id: string): Result<Checkout, Error> {
    if id in s.checkouts then Success(s.checkouts[id]) else Failure(Error.NotFound)
  }

  function UpdateCheckout(s: Store, c: Checkout): Result<Store, Error> {
    if c.id !in s.checkouts then Failure(Error.NotFound) else
    Success(s.(checkouts := s.checkouts[c.id := c]))
  }

  predicate CheckoutDue(c: Checkout, now: Instant) {
    (c.status.Creating? || c.status.Pending?) && c.expiresAt <= now
  }

  function ExpireDueCheckouts(s: Store, now: Instant): Store {
    s.(checkouts := map id | id in s.checkouts ::
         if CheckoutDue(s.checkouts[id], now) then s.checkouts[id].(status := CheckoutStatus.Expired)
         else s.checkouts[id])
  }

  // ---------- subscriptions ----------

  function InsertSubscription(s: Store, sub: Subscription): Result<Store, Error> {
    if sub.ref in s.subs then Failure(Error.Conflict) else
    :- Need(forall r :: r in s.subs ==> s.subs[r].checkoutId != sub.checkoutId, Error.Conflict);
    Success(s.(subs := s.subs[sub.ref := sub]))
  }

  function GetSubscription(s: Store, ref: string): Result<Subscription, Error> {
    if ref in s.subs then Success(s.subs[ref]) else Failure(Error.NotFound)
  }

  function UpdateSubscription(s: Store, sub: Subscription): Result<Store, Error> {
    if sub.ref !in s.subs then Failure(Error.NotFound) else
    Success(s.(subs := s.subs[sub.ref := sub]))
  }

  /** A lookup that scans a table returns some matching row, in no particular order, or finds none. */
  ghost predicate Finds<R>(table: map<string, R>, matches: R -> bool, hit: Option<string>) {
    match hit
    case Some(id) => id in table && matches(table[id])
    case None => forall id :: id in table ==> !matches(table[id])
  }

  function HasCheckout(id: string): Subscription -> bool {
    (sub: Subscription) => sub.checkoutId == id
  }

  function HasProcessorSub(family: Family, id: string): Subscription -> bool {
    (sub: Subscription) => sub.family == family && sub.processorSubId == Some(id)
  }

  function HasInitialPayment(family: Family, id: string): Subscription -> bool {
    (sub: Subscription) => sub.family == family && sub.initialPaymentId == Some(id)
  }

  function HasPayment(id: string): ChargeAttempt -> bool {
    (att: ChargeAttempt) => att.paymentId == Some(id)
  }

  function HasReference(reference: string): ChargeAttempt -> bool {
    (att: ChargeAttempt) => att.request.reference == reference
  }

  // ---------- outbound events ----------

  function InsertOutbound(s: Store, e: OutboundEvent): Result<Store, Error> {
    if e.id in s.outbound then Failure(Error.Conflict) else
    :- Need(forall id :: id in s.outbound ==> s.outbound[id].ref != e.ref || s.outbound[id].version != e.version,
            Error.Conflict);
    Success(s.(outbound := s.outbound[e.id := e]))
  }

  predicate OutboundDue(e: OutboundEvent, now: Instant) {
    && e.state.Pending?
    && e.nextAttemptAt.Some? && e.nextAttemptAt.value <= now
    && !e.claim.Live(now)
  }

  /** The row that the next delivery takes: due, and no due row is due earlier. */
  ghost predicate EarliestOutbound(s: Store, now: Instant, id: string) {
    && id in s.outbound && OutboundDue(s.outbound[id], now)
    && forall other :: other in s.outbound && OutboundDue(s.outbound[other], now) ==>
         s.outbound[id].nextAttemptAt.value <= s.outbound[other].nextAttemptAt.value
  }

  function ClaimOutbound(e: OutboundEvent, token: string, now: Instant, lease: int): OutboundEvent {
    e.(claim := e.claim.Take(token, now + lease))
  }

  function OwnedOutbound(s: Store, id: string, token: string, fence: int): Result<OutboundEvent, Error> {
    if id !in s.outbound then Failure(Error.NotFound) else
    :- Need(s.outbound[id].state.Pending? && s.outbound[id].claim.Owned(token, fence), Error.NotOwned);
    Success(s.outbound[id])
  }

  function CompleteOutbound(s: Store, id: string, token: string, fence: int, now: Instant): Result<Store, Error> {
    var e :- OwnedOutbound(s, id, token, fence);
    Success(s.(outbound := s.outbound[id := e.(state := Delivered, deliveredAt := Some(now), nextAttemptAt := None,
                                               claim := e.claim.Release(), attemptCount := e.attemptCount + 1)]))
  }

  function RetryOutbound(s: Store, id: string, token: string, fence: int, next: Instant, class_: string)
    : Result<Store, Error>
  {
    var e :- OwnedOutbound(s, id, token, fence);
    Success(s.(outbound := s.outbound[id := e.(nextAttemptAt := Some(next), lastError := Some(class_),
                                               claim := e.claim.Release(), attemptCount := e.attemptCount + 1)]))
  }

  function DeadLetterOutbound(s: Store, id: string, token: string, fence: int, now: Instant, class_: string)
    : Result<Store, Error>
  {
    var e :- OwnedOutbound(s, id, token, fence);
    Success(s.(outbound := s.outbound[id := e.(state := DeadLettered, deadLetteredAt := Some(now),
                                               nextAttemptAt := None,
                                               lastError := Some(class_), claim := e.claim.Release(),
                                               attemptCount := e.attemptCount + 1)]))
  }

  function InsertAudit(s: Store, a: Audit): Store {
    s.(audits := s.audits + [a])
  }

  function AbandonOutbound(s: Store, id: string, reason: string, actor: string, now: Instant): Result<Store, Error> {
    if id !in s.outbound then Failure(Error.NotFound) else
    var e := s.outbound[id];
    :- Need(e.state.Pending?, Error.Conflict);
    var s1 := s.(outbound := s.outbound[id := e.(state := Abandoned, abandonedAt := Some(now), nextAttemptAt := None,
                                                 claim := e.claim.Release())]);
    Success(InsertAudit(s1, Audit("abandon-event", id, actor, reason)))
  }

  function RequeueOutbound(s: Store, id: string, reason: string, actor: string, now: Instant): Result<Store, Error> {
    if id !in s.outbound then Failure(Error.NotFound) else
    var e := s.outbound[id];
    :- Need(e.state.DeadLettered? || e.state.Abandoned?, Error.Conflict);
    var s1 := s.(outbound := s.outbound[id := e.(state := DeliveryState.Pending, nextAttemptAt := Some(now),
                                                 deadLetteredAt := None,
                                                 abandonedAt := None, deliveredAt := None,
                                                     claim := e.claim.Release())]);
    Success(InsertAudit(s1, Audit("requeue-event", id, actor, reason)))
  }

  /** The event with the highest version of a subscription. */
  ghost predicate LatestOutbound(s: Store, ref: string, id: string) {
    && id in s.outbound && s.outbound[id].ref == ref
    && forall other :: other in s.outbound && s.outbound[other].ref == ref ==>
         s.outbound[other].version <= s.outbound[id].version
  }

  // ---------- processor events and processing leases ----------

  /** Inserting a known event changes nothing: a redelivered webhook is ignored. */
  function InsertProcessorEvent(s: Store, e: ProcessorEvent): Store {
    if e.key in s.procEvents then s else s.(procEvents := s.procEvents[e.key := e])
  }

  function ClaimProcessorEvent(s: Store, key: EventKey, processingKey: string, token: string, now: Instant, lease: int)
    : Result<(Store, ProcessingLease), Error>
  {
    if key !in s.procEvents then Failure(Error.NotFound) else
    var e := s.procEvents[key];
    :- Need(e.state.Pending? || e.state.Running?, Error.Conflict);
    var row := if processingKey in s.leases then s.leases[processingKey]
      else ProcessingLease(processingKey, false, None, UNCLAIMED);
    :- Need(row.running && row.claim.Live(now) ==> row.activeActionId == Some(e.actionId), Error.Conflict);
    var taken := row.claim.Take(token, now + lease);
    var row' := ProcessingLease(processingKey, true, Some(e.actionId), taken);
    var e' := e.(state := ProcessingState.Running, claim := taken);
    Success((s.(leases := s.leases[processingKey := row'], procEvents := s.procEvents[key := e']), row'))
  }

  function FinishProcessorEvent(s: Store, key: EventKey, token: string, fence: int, state: ProcessingState,
                                ref: Option<string>, now: Instant): Result<Store, Error>
  {
    if key !in s.procEvents then Failure(Error.NotFound) else
    var e := s.procEvents[key];
    :- Need(e.state.Running? && e.claim.Owned(token, fence), Error.NotOwned);
    Success(s.(procEvents := s.procEvents[key := e.(state := state, claim := e.claim.Release(), ref := ref,
                                                    processedAt := if state.Processed? then Some(now)
                                                    else e.processedAt)]))
  }

  function ReleaseProcessorLease(s: Store, processingKey: string, token: string, fence: int): Result<Store, Error> {
    if processingKey !in s.leases then Failure(Error.NotFound) else
    var row := s.leases[processingKey];
    :- Need(row.claim.Owned(token, fence), Error.NotOwned);
    Success(s.(leases := s.leases[processingKey := ProcessingLease(row.key, false, None, row.claim.Release())]))
  }

  // ---------- scheduled actions ----------

  /** Statuses from which an action can still be worked on. */
  predicate Claimable(status: ActionStatus) {
    status.Pending? || status.Running? || status.Uncertain?
  }

  function KeyOf(ref: string, kind: ActionKind, target: Instant): ActionKey {
    ActionKey(ref, kind, target)
  }

  function NewAction(id: string, ref: string, kind: ActionKind, target: Instant): ScheduledAction {
    ScheduledAction(id, KeyOf(ref, kind, target), ref, kind, target, target, ActionStatus.Pending, UNCLAIMED, None)
  }

  function InsertAction(s: Store, a: ScheduledAction): Result<Store, Error> {
    if a.id in s.actions then Failure(Error.Conflict) else
    :- Need(forall id :: id in s.actions ==> s.actions[id].key != a.key, Error.Conflict);
    Success(s.(actions := s.actions[a.id := a]))
  }

  /** A conflict means that the action exists already, so it is not an error. */
  function EnsureAction(s: Store, a: ScheduledAction): Store {
    match InsertAction(s, a)
    case Success(s') => s'
    case Failure(_) => s
  }

  predicate Blocked(s: Store, a: ScheduledAction) {
    a.kind.Renew? && (a.ref !in s.subs || s.subs[a.ref].chargingBlocked)
  }

  predicate ActionDue(s: Store, a: ScheduledAction, now: Instant, status: ActionStatus) {
    && (|| a.status == status
        || (a.status.Running? && (status.Pending? || status.Uncertain?) && !a.claim.Live(now)))
    && (a.status.Running? || (a.dueAt <= now && !a.claim.Live(now)))
    && !Blocked(s, a)
  }

  predicate KindAllowed(kinds: seq<ActionKind>, kind: ActionKind) {
    kinds == [] || kind in kinds
  }

  /** The action that a scheduler takes up: due, of an allowed kind, and none of those is due earlier. */
  ghost predicate EarliestAction(s: Store, now: Instant, status: ActionStatus, kinds: seq<ActionKind>, id: string) {
    && id in s.actions && ActionDue(s, s.actions[id], now, status) && KindAllowed(kinds, s.actions[id].kind)
    && forall other ::
         other in s.actions && ActionDue(s, s.actions[other], now, status)
         && KindAllowed(kinds, s.actions[other].kind) ==>
         s.actions[id].dueAt <= s.actions[other].dueAt
  }

  function ClaimAction(s: Store, id: string, token: string, now: Instant, lease: int)
    : Result<(Store, ScheduledAction), Error>
  {
    if id !in s.actions then Failure(Error.NotFound) else
    var a := s.actions[id];
    :- Need(a.status.Pending? || a.status.Uncertain? || (a.status.Running? && !a.claim.Live(now)), Error.NotOwned);
    :- Need(!Blocked(s, a), Error.ChargeBlocked);
    var a' := a.(status := ActionStatus.Running, claim := a.claim.Take(token, now + lease));
    Success((s.(actions := s.actions[id := a']), a'))
  }

  function FinishAction(s: Store, id: string, token: string, fence: int, status: ActionStatus, dueAt: Option<Instant>,
                        class_: Option<string>): Result<Store, Error>
  {
    if id !in s.actions then Failure(Error.NotFound) else
    var a := s.actions[id];
    :- Need(a.status.Running? && a.claim.Owned(token, fence), Error.NotOwned);
    Success(s.(actions := s.actions[id := a.(status := status, lastError := class_,
                                             dueAt := if dueAt.Some? then dueAt.value else a.dueAt,
                                             claim := if status.Running? then a.claim else a.claim.Release())]))
  }

  /** Finishing without a fence, for evidence from outside; a finished action stays as it is. */
  function ForceFinishAction(s: Store, id: string, status: ActionStatus, dueAt: Option<Instant>,
          class_: Option<string>): Result<Store, Error> {
    if id !in s.actions then Failure(Error.NotFound) else
    var a := s.actions[id];
    if !Claimable(a.status) then Success(s) else
      Success(s.(actions := s.actions[id := a.(status := status, lastError := class_,
                                               dueAt := if dueAt.Some? then dueAt.value else a.dueAt,
                                               claim := a.claim.Release())]))
  }

  predicate Cancelable(a: ScheduledAction, ref: string, except: Option<ActionKey>) {
    a.ref == ref && except != Some(a.key) && (a.status.Pending? || a.status.Uncertain?)
  }

  function CancelActions(s: Store, ref: string, except: Option<ActionKey>): Store {
    s.(actions := map id | id in s.actions ::
         if Cancelable(s.actions[id], ref, except)
         then s.actions[id].(status := ActionStatus.Canceled, claim := s.actions[id].claim.Release())
         else s.actions[id])
  }

  // ---------- charge attempts ----------

  function InsertAttempt(s: Store, t: ChargeAttempt): Result<Store, Error> {
    if t.id in s.attempts then Failure(Error.Conflict) else
    :- Need(forall id :: id in s.attempts ==>
              s.attempts[id].request.reference != t.request.reference
              && s.attempts[id].request.idempotencyKey != t.request.idempotencyKey, Error.Conflict);
    :- Need(forall id :: id in s.attempts ==>
              s.attempts[id].ref != t.ref || s.attempts[id].periodStart != t.periodStart
              || s.attempts[id].number != t.number, Error.Conflict);
    Success(s.(attempts := s.attempts[t.id := t]))
  }

  function GetAttempt(s: Store, id: string): Result<ChargeAttempt, Error> {
    if id in s.attempts then Success(s.attempts[id]) else Failure(Error.NotFound)
  }

  function UpdateAttempt(s: Store, t: ChargeAttempt): Result<Store, Error> {
    if t.id !in s.attempts then Failure(Error.NotFound) else
    Success(s.(attempts := s.attempts[t.id := t]))
  }

  /** A claim of the action is copied to the attempt; the first claim also fixes when it was first submitted. */
  function ClaimAttemptWithAction(s: Store, actionId: string, attemptId: string, token: string, fence: int,
                                  now: Instant, lease: int, deadline: Instant): Result<(Store, ChargeAttempt), Error>
  {
    if actionId !in s.actions then Failure(Error.NotFound) else
    :- Need(s.actions[actionId].status.Running? && s.actions[actionId].claim.Owned(token, fence), Error.NotOwned);
    :- Need(attemptId in s.attempts, Error.NotFound);
    var t := s.attempts[attemptId].(status := AttemptStatus.Running,
                                    claim := Claim(Some(token), fence, Some(now + lease)));
    var t' := if t.firstSubmittedAt.Some? then t else
                t.(firstSubmittedAt := Some(now),
                   resolutionDeadline := Some(if deadline == ZERO_TIME then now + SIX_DAYS else deadline));
    Success((s.(attempts := s.attempts[attemptId := t']), t'))
  }

  /** All attempts of an action, by number. */
  ghost predicate AttemptsForAction(s: Store, actionId: string, list: seq<ChargeAttempt>) {
    && (forall t :: t in list ==> t.id in s.attempts && s.attempts[t.id] == t && t.actionId == actionId)
    && (forall id :: id in s.attempts && s.attempts[id].actionId == actionId ==> s.attempts[id] in list)
    && (forall i, j :: 0 <= i < j < |list| ==> list[i].number <= list[j].number && list[i].id != list[j].id)
  }
}
