/**
 * The bridge as a step system: one store, and workers that run short transactions on it with network calls in between.
 * Any worker may stall between its steps for as long as it likes, or vanish; steps of all workers interleave freely.
 */
module System {
  import opened Wrappers
  import opened Calendar
  import opened Protocol
  import opened Model
  import opened Engine
  import opened Scheduler
  import Notify

  /** What a run cannot change: the configuration, and the provider's one verdict for every idempotency key. */
  datatype Environment = Environment(cfg: Config, authorises: string -> bool)

  /** One request on the wire to the payment provider. */
  datatype Submission = Submission(endpoint: string, idempotencyKey: string, body: PaymentBody)

  /** What a worker remembers between its transactions. */
  datatype Worker =
    | Ready(actionId: string, attemptId: string)
    | Charging(action: ScheduledAction, attempt: ChargeAttempt, token: string, now: Instant)
    | Answered(action: ScheduledAction, attempt: ChargeAttempt, token: string, now: Instant, reply: Reply)
    | Received(ev: NormalizedEvent)
    | Leased(ev: NormalizedEvent, lease: EventLease)
    | Fetched(ev: NormalizedEvent, lease: EventLease, state: Option<SubscriptionState>, fetchedAt: nat)
    | Delivering(event: OutboundEvent, token: string)

  /** A processor event that was applied: under which key and fence, and when its state was fetched and committed. */
  datatype ReadCommit = ReadCommit(key: string, fence: int, fetchedAt: nat, committedAt: nat)

  datatype System = System(
    db: Store,
    workers: map<nat, Worker>,
    sent: seq<Submission>,
    readLog: seq<ReadCommit>,
    tick: nat)

  const INIT := System(EMPTY, map[], [], [], 0)

  datatype Step =
    | StartCheckoutStep(checkout: Checkout)
    | CheckoutAcceptedStep(id: string, processorCheckoutId: string, expiresAt: Instant)
    | SweepStep(now: Instant)
    | ActivateStep(id: string, now: Instant, ids: Ids, txNow: Instant)
    | ReceiveStep(w: nat, ev: NormalizedEvent, actionId: string)
    | LeaseStep(w: nat, token: string, now: Instant)
    | FetchStep(w: nat, state: Option<SubscriptionState>)
    | CommitEventStep(w: nat, hits: Hits, now: Instant, ids: Ids, txNow: Instant)
    | PrepareStep(w: nat, id: string, choice: Choice, attemptId: string, reference: string, now: Instant)
    | PickUncertainStep(w: nat, id: string, attemptId: string, now: Instant, ids: Ids, txNow: Instant)
    | ClaimStep(w: nat, token: string, now: Instant)
    | SendStep(w: nat, reached: bool, reply: Reply)
    | SettleStep(w: nat, ids: Ids, txNow: Instant)
    | ExpireStep(id: string, token: string, now: Instant, ids: Ids, txNow: Instant)
    | ResolveStep(id: string, outcome: Resolution, reason: string, actor: string, paymentId: string, now: Instant,
                  ids: Ids, txNow: Instant)
    | CancelStep(ref: string, now: Instant, ids: Ids, txNow: Instant)
    | ExpireNowStep(ref: string, now: Instant, ids: Ids, txNow: Instant)
    | TakeEventStep(w: nat, id: string, token: string, now: Instant, lease: int)
    | RecordStep(w: nat, response: Notify.Response, now: Instant, next: Instant)
    | AbandonStep(id: string, reason: string, actor: string, now: Instant)
    | RequeueStep(id: string, reason: string, actor: string, now: Instant)
    | ReplayStep(id: string, reason: string, actor: string, now: Instant)
    | CrashStep(w: nat)

  /** The store after a transaction: its result, or, when it failed, what was there before. */
  function KeptStore(s: Store, r: Result<Store, Error>): Store {
    match r
    case Success(s') => s'
    case Failure(_) => s
  }

  // ---------- what the environment promises ----------

  /** Identifiers of actions, and of the processing of events, are freshly drawn. */
  predicate FreshIds(s: Store, ids: Ids) {
    ids.action !in s.actions && ids.dunning !in s.actions && ids.action != ids.dunning
  }

  predicate FreshWork(s: Store, actionId: string) {
    forall key :: key in s.procEvents ==> s.procEvents[key].actionId != actionId
  }

  /** The provider reports its verdicts truthfully. */
  predicate TruthfulReply(env: Environment, key: string, reply: Reply) {
    match reply
    case Unclear => true
    case Authorised(_) => env.authorises(key)
    case Declined(_, _) => !env.authorises(key)
  }

  predicate TruthfulEvent(env: Environment, ev: NormalizedEvent) {
    ev.kind.AdyenRenewal? ==> ev.success == env.authorises(ChargeKey(ev.attemptReference))
  }

  predicate TruthfulResolution(env: Environment, key: string, outcome: Resolution) {
    && (outcome.Paid? ==> env.authorises(key))
    && (outcome.Declined? ==> !env.authorises(key))
  }

  /** Clocks read later than the zero time, the year 1. */
  predicate SaneClock(now: Instant) {
    now > ZERO_TIME
  }

  /** Stripe events never name a checkout of the other processor. */
  predicate OwnCheckout(s: Store, ev: NormalizedEvent) {
    (ev.kind.StripeCheckout? || ev.kind.StripeSubscription?) && ev.checkoutId in s.checkouts ==>
      s.checkouts[ev.checkoutId].family == Stripe
  }

  /** When a step can be taken. */
  ghost predicate Enabled(env: Environment, sys: System, step: Step) {
    var s := sys.db;
    match step
    case StartCheckoutStep(_) => true
    case CheckoutAcceptedStep(_, _, _) => true
    case SweepStep(_) => true
    case ActivateStep(_, now, ids, _) => FreshIds(s, ids) && SaneClock(now)
    case ReceiveStep(w, ev, actionId) => w !in sys.workers && TruthfulEvent(env, ev) && FreshWork(s, actionId)
    case LeaseStep(w, _, _) => w in sys.workers && sys.workers[w].Received?
    case FetchStep(w, _) => w in sys.workers && sys.workers[w].Leased?
    case CommitEventStep(w, hits, now, ids, _) =>
      && w in sys.workers && sys.workers[w].Fetched? && FreshIds(s, ids) && SaneClock(now)
      && HitsAgree(s, sys.workers[w].ev, sys.workers[w].state, hits) && OwnCheckout(s, sys.workers[w].ev)
    case PrepareStep(w, id, choice, _, _, now) =>
      w !in sys.workers && EarliestAction(s, now, ActionStatus.Pending, [Renew], id) && Chooses(s, id, choice)
    case PickUncertainStep(w, id, attemptId, now, ids, _) =>
      && w !in sys.workers && FreshIds(s, ids)
      && EarliestAction(s, now, ActionStatus.Uncertain, [Renew], id) && FirstWith(s, id, IsInFlight, attemptId)
    case ClaimStep(w, _, _) => w in sys.workers && sys.workers[w].Ready?
    case SendStep(w, reached, reply) =>
      && w in sys.workers && sys.workers[w].Charging?
      && (reached || reply.Unclear?) && TruthfulReply(env, sys.workers[w].attempt.request.idempotencyKey, reply)
    case SettleStep(w, ids, _) => w in sys.workers && sys.workers[w].Answered? && FreshIds(s, ids)
    case ExpireStep(id, _, now, ids, _) =>
      EarliestAction(s, now, ActionStatus.Pending, [Expire], id) && FreshIds(s, ids)
    case ResolveStep(id, outcome, _, _, _, _, ids, _) =>
      FreshIds(s, ids) && (id in s.attempts ==> TruthfulResolution(env, s.attempts[id].request.idempotencyKey, outcome))
    case CancelStep(_, _, ids, _) => FreshIds(s, ids)
    case ExpireNowStep(_, _, ids, _) => FreshIds(s, ids)
    case TakeEventStep(w, id, _, now, _) => w !in sys.workers && EarliestOutbound(s, now, id)
    case RecordStep(w, _, _, _) => w in sys.workers && sys.workers[w].Delivering?
    case AbandonStep(_, _, _, _) => true
    case RequeueStep(_, _, _, _) => true
    case ReplayStep(id, _, _, _) => id in s.outbound && LatestOutbound(s, s.outbound[id].ref, id)
    case CrashStep(w) => w in sys.workers
  }

  /** The store after a step. */
  ghost function DbAfter(env: Environment, sys: System, step: Step): Store
    requires Enabled(env, sys, step)
  {
    var s := sys.db;
    match step
    case StartCheckoutStep(c) => KeptStore(s, StartCheckout(s, c))
    case CheckoutAcceptedStep(id, processorCheckoutId, expiresAt) =>
      KeptStore(s, CheckoutAccepted(s, id, processorCheckoutId, expiresAt))
    case SweepStep(now) => ExpireDueCheckouts(s, now)
    case ActivateStep(id, now, ids, txNow) => KeptStore(s, ActivateCheckout(s, id, now, ids, txNow))
    case ReceiveStep(_, ev, actionId) =>
      InsertProcessorEvent(s, ProcessorEvent(ev.key, actionId, ProcessingState.Pending, None, None, UNCLAIMED))
    case LeaseStep(w, token, now) =>
      var ev := sys.workers[w].ev;
      var r := ClaimProcessorEvent(s, ev.key, ProcessingKey(ev), token, now, 120);
      if r.Success? then r.value.0 else s
    case FetchStep(_, _) => s
    case CommitEventStep(w, hits, now, ids, txNow) =>
      KeptStore(s,
                CommitEvent(s, env.cfg, sys.workers[w].ev, sys.workers[w].lease, sys.workers[w].state, hits, now, ids,
                            txNow))
    case PrepareStep(_, id, choice, attemptId, reference, _) =>
      var r := EnsurePrepared(s, env.cfg, s.actions[id], choice, attemptId, reference);
      if r.Success? then r.value.0 else s
    case PickUncertainStep(_, id, attemptId, now, ids, txNow) =>
      if PastDeadline(s.attempts[attemptId], now)
        then KeptStore(s, GiveUp(s, s.actions[id], attemptId, now, ids, txNow)) else s
    case ClaimStep(w, token, now) =>
      var r := ClaimCharge(s, env.cfg, sys.workers[w].actionId, sys.workers[w].attemptId, token, now);
      if r.Success? then r.value.0 else s
    case SendStep(_, _, _) => s
    case SettleStep(w, ids, txNow) =>
      var k := sys.workers[w];
      KeptStore(s,
                SettleCharge(s, env.cfg, k.action, k.attempt.id, k.token, k.action.claim.fence, k.reply, k.now, ids,
                             txNow))
    case ExpireStep(id, token, now, ids, txNow) => KeptStore(s, RunExpire(s, id, token, env.cfg, now, ids, txNow))
    case ResolveStep(id, outcome, reason, actor, paymentId, now, ids, txNow) =>
      KeptStore(s, ResolveAttempt(s, env.cfg, id, outcome, reason, actor, paymentId, now, ids, txNow))
    case CancelStep(ref, now, ids, txNow) => KeptStore(s, CancelAtPeriodEnd(s, ref, now, ids, txNow))
    case ExpireNowStep(ref, now, ids, txNow) => KeptStore(s, ExpireNow(s, ref, now, ids, txNow))
    case TakeEventStep(_, id, token, now, lease) =>
      s.(outbound := s.outbound[id := ClaimOutbound(s.outbound[id], token, now, lease)])
    case RecordStep(w, response, now, next) =>
      KeptStore(s, Notify.RecordResponse(s, sys.workers[w].event, sys.workers[w].token, response, now, next))
    case AbandonStep(id, reason, actor, now) => KeptStore(s, AbandonOutbound(s, id, reason, actor, now))
    case RequeueStep(id, reason, actor, now) => KeptStore(s, RequeueOutbound(s, id, reason, actor, now))
    case ReplayStep(id, reason, actor, now) => KeptStore(s, ReplayLatest(s, id, reason, actor, now))
    case CrashStep(_) => s
  }

  /** What the acting worker remembers afterwards; None when it is done. */
  ghost function WorkerAfter(env: Environment, sys: System, step: Step): Option<Worker>
    requires Enabled(env, sys, step)
  {
    var s := sys.db;
    match step
    case ReceiveStep(_, ev, _) => if ev.key in s.procEvents then None else Some(Received(ev))
    case LeaseStep(w, token, now) =>
      var ev := sys.workers[w].ev;
      var r := ClaimProcessorEvent(s, ev.key, ProcessingKey(ev), token, now, 120);
      if r.Success? then Some(Leased(ev, EventLease(token, r.value.1.claim.fence))) else None
    case FetchStep(w, state) => Some(Fetched(sys.workers[w].ev, sys.workers[w].lease, state, sys.tick))
    case PrepareStep(_, id, choice, attemptId, reference, _) =>
      var r := EnsurePrepared(s, env.cfg, s.actions[id], choice, attemptId, reference);
      if r.Success? then Some(Ready(id, r.value.1)) else None
    case PickUncertainStep(_, id, attemptId, now, _, _) =>
      if PastDeadline(s.attempts[attemptId], now) then None else Some(Ready(id, attemptId))
    case ClaimStep(w, token, now) =>
      var r := ClaimCharge(s, env.cfg, sys.workers[w].actionId, sys.workers[w].attemptId, token, now);
      if r.Success? then Some(Charging(r.value.1, r.value.2, token, now)) else None
    case SendStep(w, _, reply) =>
      var k := sys.workers[w];
      Some(Answered(k.action, k.attempt, k.token, k.now, reply))
    case TakeEventStep(_, id, token, now, lease) =>
      Some(Delivering(ClaimOutbound(s.outbound[id], token, now, lease), token))
    case _ => None
  }

  function Actor(step: Step): Option<nat> {
    match step
    case ReceiveStep(w, _, _) => Some(w)
    case LeaseStep(w, _, _) => Some(w)
    case FetchStep(w, _) => Some(w)
    case CommitEventStep(w, _, _, _, _) => Some(w)
    case PrepareStep(w, _, _, _, _, _) => Some(w)
    case PickUncertainStep(w, _, _, _, _, _) => Some(w)
    case ClaimStep(w, _, _) => Some(w)
    case SendStep(w, _, _) => Some(w)
    case SettleStep(w, _, _) => Some(w)
    case TakeEventStep(w, _, _, _, _) => Some(w)
    case RecordStep(w, _, _, _) => Some(w)
    case CrashStep(w) => Some(w)
    case _ => None
  }

  ghost function WorkersAfter(env: Environment, sys: System, step: Step): map<nat, Worker>
    requires Enabled(env, sys, step)
  {
    match Actor(step)
    case None => sys.workers
    case Some(w) =>
      match WorkerAfter(env, sys, step)
      case Some(k) => sys.workers[w := k]
      case None => sys.workers - {w}
  }

  function SubmissionOf(r: Request): Submission {
    Submission(r.endpoint, r.idempotencyKey, r.body)
  }

  ghost function SentAfter(env: Environment, sys: System, step: Step): seq<Submission>
    requires Enabled(env, sys, step)
  {
    match step
    case SendStep(w, reached, _) =>
      if reached then sys.sent + [SubmissionOf(sys.workers[w].attempt.request)] else sys.sent
    case _ => sys.sent
  }

  /** A commit counts when the worker still owned its event and the transaction went through. */
  ghost predicate Commits(env: Environment, sys: System, step: Step)
    requires Enabled(env, sys, step)
  {
    && step.CommitEventStep?
    && StillOwned(sys.db, sys.workers[step.w].ev, sys.workers[step.w].lease)
    && CommitEvent(sys.db, env.cfg, sys.workers[step.w].ev, sys.workers[step.w].lease, sys.workers[step.w].state,
                   step.hits, step.now, step.ids, step.txNow).Success?
  }

  ghost function ReadsAfter(env: Environment, sys: System, step: Step): seq<ReadCommit>
    requires Enabled(env, sys, step)
  {
    if Commits(env, sys, step) then
      var k := sys.workers[step.w];
      sys.readLog + [ReadCommit(ProcessingKey(k.ev), k.lease.fence, k.fetchedAt, sys.tick)]
    else sys.readLog
  }

  ghost function Next(env: Environment, sys: System, step: Step): System
    requires Enabled(env, sys, step)
  {
    System(DbAfter(env, sys, step), WorkersAfter(env, sys, step), SentAfter(env, sys, step), ReadsAfter(env, sys, step),
           sys.tick + 1)
  }

  /** Step number `i` is enabled and leads from one state to the next. */
  ghost predicate Leads(env: Environment, states: seq<System>, steps: seq<Step>, i: nat)
    requires i < |steps| && |states| == |steps| + 1
  {
    hide *;
    Enabled(env, states[i], steps[i]) && states[i + 1] == Next(env, states[i], steps[i])
  }

  /** A run: every system follows from the one before by an enabled step. */
  ghost predicate Run(env: Environment, states: seq<System>, steps: seq<Step>) {
    hide *;
    && |states| == |steps| + 1
    && states[0] == INIT
    && forall i: nat :: i < |steps| ==> Leads(env, states, steps, i)
  }
}
