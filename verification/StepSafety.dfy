/** Every step of the system keeps the charge invariants, balances the books and undoes nothing. */
module StepSafety {
  import opened Wrappers
  import opened Calendar
  import opened Model
  import opened Transition
  import opened Engine
  import opened Scheduler
  import opened System
  import opened Bindings
  import opened Books
  import opened Ledger
  import opened ChargeSafety
  import opened ChargeSteps
  import opened ChargeRefusals
  import opened ChargeEvents
  import opened BookSteps
  import opened Growth
  import opened GrowthSteps
  import Notify

  // ---------- what workers remember ----------

  /** The action and attempt that a charging worker holds are stored, with the same identity, and the attempt is
      submitted. */
  ghost predicate Holds(s: Store, a: ScheduledAction, t: ChargeAttempt) {
    && t.id in s.attempts && SameAttempt(s.attempts[t.id], t) && t.actionId == a.id && t.ref == a.ref
    && s.attempts[t.id].firstSubmittedAt.Some?
  }

  ghost predicate Remembers(env: Environment, s: Store, k: Worker) {
    match k
    case Ready(actionId, attemptId) => attemptId in s.attempts && s.attempts[attemptId].actionId == actionId
    case Charging(a, t, _, _) => Holds(s, a, t)
    case Answered(a, t, _, _, reply) => Holds(s, a, t) && TruthfulReply(env, t.request.idempotencyKey, reply)
    case Received(ev) => TruthfulEvent(env, ev)
    case Leased(ev, _) => TruthfulEvent(env, ev)
    case Fetched(ev, _, _, _) => TruthfulEvent(env, ev)
    case Delivering(e, _) => e.id in s.outbound && SameEvent(s.outbound[e.id], e)
  }

  ghost predicate WorkersAgree(env: Environment, sys: System) {
    forall w :: w in sys.workers ==> Remembers(env, sys.db, sys.workers[w])
  }

  lemma RemembersLater(env: Environment, s: Store, s': Store, k: Worker)
    requires Remembers(env, s, k) && Grows(s, s')
    ensures Remembers(env, s', k)
  {
    hide ActionsGrow, LeasesGrow, ProcsGrow, TruthfulReply, TruthfulEvent;
  }

  /** The invariant of the store and the workers. */
  ghost predicate Safe(env: Environment, sys: System) {
    ChargeInv(env, sys.db, None) && Bound(sys.db) && LedgerInv(sys.db) && WorkersAgree(env, sys)
  }

  // ---------- picking work ----------

  lemma PickedAction(s: Store, now: Instant, status: ActionStatus, kind: ActionKind, id: string)
    requires (status.Pending? || status.Uncertain?) && EarliestAction(s, now, status, [kind], id)
    ensures id in s.actions && s.actions[id].kind == kind && Claimable(s.actions[id].status)
  {
  }

  lemma AttemptOf(env: Environment, s: Store, id: string)
    requires ChargeInv(env, s, None) && id in s.attempts
    ensures var t := s.attempts[id];
            t.id == id && t.actionId in s.actions && s.actions[t.actionId].id == t.actionId
            && s.actions[t.actionId].ref == t.ref
  {
    hide GoodSubs, TruthfulAttempts, RefusedBefore, Numbered, Priced, WorkingAttempts, OnTarget, NotAhead, Renewing,
         Counted;
    assert Belongs(s.attempts[id], s.actions[s.attempts[id].actionId]);
  }

  lemma InFlightOpen(s: Store, actionId: string, id: string)
    requires FirstWith(s, actionId, IsInFlight, id)
    ensures id in s.attempts && s.attempts[id].actionId == actionId && !s.attempts[id].status.Authorized?
  {
  }

  // ---------- the charge invariants ----------

  lemma DeliveryTables(s: Store, id: string, token: string, fence: int, at: Instant, class_: string)
    ensures var r := CompleteOutbound(s, id, token, fence, at);
            r.Success? ==> r.value == s.(outbound := r.value.outbound)
    ensures var r := RetryOutbound(s, id, token, fence, at, class_);
            r.Success? ==> r.value == s.(outbound := r.value.outbound)
    ensures var r := DeadLetterOutbound(s, id, token, fence, at, class_);
            r.Success? ==> r.value == s.(outbound := r.value.outbound)
  {
  }

  lemma ResponseTables(s: Store, e: OutboundEvent, token: string, response: Notify.Response, now: Instant,
          next: Instant)
    ensures var r := Notify.RecordResponse(s, e, token, response, now, next);
            r.Success? ==> r.value == s.(outbound := r.value.outbound)
  {
    hide Notify.StatusClass, Notify.Retried, CompleteOutbound, RetryOutbound, DeadLetterOutbound;
    DeliveryTables(s, e.id, token, e.claim.fence, now, "");
    DeliveryTables(s, e.id, token, e.claim.fence, next, "network");
    if response.Code? {
      DeliveryTables(s, e.id, token, e.claim.fence, now, Notify.StatusClass(response.code));
      DeliveryTables(s, e.id, token, e.claim.fence, next, Notify.StatusClass(response.code));
    }
  }

  /** Steps of the charging workers and of the scheduler. */
  predicate Charges(step: Step) {
    step.PrepareStep? || step.PickUncertainStep? || step.ClaimStep? || step.SettleStep? || step.ExpireStep?
    || step.ResolveStep?
  }

  lemma ChargingStartStepKeeps(env: Environment, sys: System, step: Step)
    requires Safe(env, sys) && Enabled(env, sys, step)
             && (step.PrepareStep? || step.PickUncertainStep? || step.ClaimStep?)
    ensures hide *; ChargeInv(env, DbAfter(env, sys, step), None)
  {
    hide ChargeInv, Bound, LedgerInv, EnsurePrepared, GiveUp, ClaimCharge, SettleCharge, RunExpire, ResolveAttempt,
         TruthfulReply, TruthfulEvent, TruthfulResolution, SameEvent, EarliestAction, FirstWith, Chooses, SameAttempt;
    var s := sys.db;
    match step
    case PrepareStep(_, id, choice, attemptId, reference, now) =>
      PickedAction(s, now, ActionStatus.Pending, Renew, id);
      if EnsurePrepared(s, env.cfg, s.actions[id], choice, attemptId, reference).Success? {
        EnsurePreparedKeeps(env, s, id, choice, attemptId, reference);
      }
    case PickUncertainStep(_, id, attemptId, now, ids, txNow) =>
      InFlightOpen(s, id, attemptId);
      AttemptOf(env, s, attemptId);
      if PastDeadline(s.attempts[attemptId], now) && GiveUp(s, s.actions[id], attemptId, now, ids, txNow).Success? {
        GiveUpKeeps(env, s, s.actions[id], attemptId, now, ids, txNow);
      }
    case ClaimStep(w, token, now) =>
      assert Remembers(env, s, sys.workers[w]);
      if ClaimCharge(s, env.cfg, sys.workers[w].actionId, sys.workers[w].attemptId, token, now).Success? {
        ClaimChargeKeeps(env, s, sys.workers[w].actionId, sys.workers[w].attemptId, token, now);
      }
  }

  lemma ChargingEndStepKeeps(env: Environment, sys: System, step: Step)
    requires Safe(env, sys) && Enabled(env, sys, step) && (step.SettleStep? || step.ExpireStep? || step.ResolveStep?)
    ensures hide *; ChargeInv(env, DbAfter(env, sys, step), None)
  {
    hide ChargeInv, Bound, LedgerInv, EnsurePrepared, GiveUp, ClaimCharge, SettleCharge, RunExpire, ResolveAttempt,
         TruthfulReply, TruthfulEvent, TruthfulResolution, SameEvent, EarliestAction, FirstWith, Chooses, SameAttempt;
    var s := sys.db;
    match step
    case SettleStep(w, ids, txNow) =>
      var k := sys.workers[w];
      assert Remembers(env, s, k);
      if SettleCharge(s, env.cfg, k.action, k.attempt.id, k.token, k.action.claim.fence, k.reply, k.now, ids,
                      txNow).Success? {
        HeldAttempt(s, k.action, k.attempt);
        SettleKeeps(env, s, k.action, k.attempt.id, k.token, k.action.claim.fence, k.reply, k.now, ids, txNow);
      }
    case ExpireStep(id, token, now, ids, txNow) =>
      PickedAction(s, now, ActionStatus.Pending, Expire, id);
      if RunExpire(s, id, token, env.cfg, now, ids, txNow).Success? {
        RunExpireKeeps(env, s, id, token, now, ids, txNow);
      }
    case ResolveStep(id, outcome, reason, actor, paymentId, now, ids, txNow) =>
      if ResolveAttempt(s, env.cfg, id, outcome, reason, actor, paymentId, now, ids, txNow).Success? {
        ResolveKeeps(env, s, id, outcome, reason, actor, paymentId, now, ids, txNow);
      }
  }

  lemma ChargingStepKeeps(env: Environment, sys: System, step: Step)
    requires Safe(env, sys) && Enabled(env, sys, step) && Charges(step)
    ensures hide *; ChargeInv(env, DbAfter(env, sys, step), None)
  {
    hide Safe, Enabled, DbAfter, ChargeInv;
    if step.PrepareStep? || step.PickUncertainStep? || step.ClaimStep? {
      ChargingStartStepKeeps(env, sys, step);
    } else {
      ChargingEndStepKeeps(env, sys, step);
    }
  }

  lemma HeldAttempt(s: Store, a: ScheduledAction, t: ChargeAttempt)
    requires Holds(s, a, t)
    ensures a.id == s.attempts[t.id].actionId && a.ref == s.attempts[t.id].ref
    ensures s.attempts[t.id].request.idempotencyKey == t.request.idempotencyKey
  {
  }

  lemma EngineStepKeeps(env: Environment, sys: System, step: Step)
    requires Safe(env, sys) && Enabled(env, sys, step)
             && (step.ActivateStep? || step.CommitEventStep? || step.CancelStep? || step.ExpireNowStep?)
    ensures hide *; ChargeInv(env, DbAfter(env, sys, step), None)
  {
    hide ChargeInv, Bound, LedgerInv, ActivateCheckout, CommitEvent, Observe, TruthfulEvent, HitsAgree, OwnCheckout,
         SameEvent, SameAttempt, TruthfulReply;
    var s := sys.db;
    match step
    case ActivateStep(id, now, ids, txNow) =>
      if ActivateCheckout(s, id, now, ids, txNow).Success? { ActivateCheckoutKeeps(env, s, id, now, ids, txNow); }
    case CommitEventStep(w, hits, now, ids, txNow) =>
      var k := sys.workers[w];
      assert Remembers(env, s, k);
      if CommitEvent(s, env.cfg, k.ev, k.lease, k.state, hits, now, ids, txNow).Success? {
        CommitEventKeeps(env, s, k.ev, k.lease, k.state, hits, now, ids, txNow);
      }
    case CancelStep(ref, now, ids, txNow) =>
      if Observe(s, ref, CANCELLATION, now, ids, txNow).Success? {
        ChargeBlocks.ObserveKeeps(env, s, ref, CANCELLATION, now, ids, txNow, None);
      }
    case ExpireNowStep(ref, now, ids, txNow) =>
      if Observe(s, ref, IMMEDIATE_EXPIRY, now, ids, txNow).Success? {
        ChargeBlocks.ObserveKeeps(env, s, ref, IMMEDIATE_EXPIRY, now, ids, txNow, None);
      }
  }

  /** Steps that touch neither subscriptions nor actions nor attempts. */
  predicate Aside(step: Step) {
    !Charges(step) && !(step.ActivateStep? || step.CommitEventStep? || step.CancelStep? || step.ExpireNowStep?)
  }

  lemma RecordTables(env: Environment, sys: System, step: Step)
    requires Enabled(env, sys, step) && step.RecordStep?
    ensures hide *; var s, s' := sys.db, DbAfter(env, sys, step); s' == s.(outbound := s'.outbound)
  {
    hide Notify.RecordResponse;
    ResponseTables(sys.db, sys.workers[step.w].event, sys.workers[step.w].token, step.response, step.now, step.next);
  }

  predicate Delivers(step: Step) {
    step.TakeEventStep? || step.RecordStep? || step.AbandonStep? || step.RequeueStep? || step.ReplayStep?
  }

  lemma DeliveryStepTables(env: Environment, sys: System, step: Step)
    requires Enabled(env, sys, step) && Delivers(step)
    ensures hide *; var s, s' := sys.db, DbAfter(env, sys, step); s' == s.(outbound := s'.outbound, audits := s'.audits)
  {
    if step.RecordStep? {
      hide DbAfter, Enabled;
      RecordTables(env, sys, step);
    } else {
      hide Notify.RecordResponse, OutboundDue, Enabled, LatestOutbound;
    }
  }

  lemma StartTables(s: Store, c: Checkout)
    ensures var r := StartCheckout(s, c); r.Success? ==> r.value == s.(checkouts := r.value.checkouts)
  {
  }

  lemma AcceptedTables(s: Store, id: string, processorCheckoutId: string, expiresAt: Instant)
    ensures var r := CheckoutAccepted(s, id, processorCheckoutId, expiresAt);
            r.Success? ==> r.value == s.(checkouts := r.value.checkouts)
  {
  }

  lemma CheckoutStepTables(env: Environment, sys: System, step: Step)
    requires Enabled(env, sys, step) && (step.StartCheckoutStep? || step.CheckoutAcceptedStep? || step.SweepStep?)
    ensures hide *; var s, s' := sys.db, DbAfter(env, sys, step); s' == s.(checkouts := s'.checkouts)
  {
    hide Enabled, StartCheckout, CheckoutAccepted;
    match step
    case StartCheckoutStep(c) => StartTables(sys.db, c);
    case CheckoutAcceptedStep(id, processorCheckoutId, expiresAt) =>
      AcceptedTables(sys.db, id, processorCheckoutId, expiresAt);
    case SweepStep(_) => hide CheckoutDue;
  }

  lemma WebhookStepTables(env: Environment, sys: System, step: Step)
    requires Enabled(env, sys, step)
             && (step.ReceiveStep? || step.LeaseStep? || step.FetchStep? || step.SendStep? || step.CrashStep?)
    ensures hide *; var s, s' := sys.db, DbAfter(env, sys, step);
            s' == s.(procEvents := s'.procEvents, leases := s'.leases)
  {
    hide Enabled, ProcessingKey, ClaimProcessorEvent;
    if step.LeaseStep? {
      LeaseStepTables(env, sys, step);
    }
  }

  lemma LeaseStepTables(env: Environment, sys: System, step: Step)
    requires Enabled(env, sys, step) && step.LeaseStep?
    ensures hide *; var s, s' := sys.db, DbAfter(env, sys, step);
            s' == s.(procEvents := s'.procEvents, leases := s'.leases)
  {
    hide ProcessingKey, ClaimProcessorEvent;
    var ev := sys.workers[step.w].ev;
    LeaseTables(sys.db, ev.key, ProcessingKey(ev), step.token, step.now);
  }

  lemma LeaseTables(s: Store, key: EventKey, processingKey: string, token: string, now: Instant)
    ensures var r := ClaimProcessorEvent(s, key, processingKey, token, now, 120);
            r.Success? ==> r.value.0 == s.(procEvents := r.value.0.procEvents, leases := r.value.0.leases)
  {
  }

  lemma AsideTables(env: Environment, sys: System, step: Step)
    requires Enabled(env, sys, step) && Aside(step)
    ensures hide *; var s, s' := sys.db, DbAfter(env, sys, step);
            s'.subs == s.subs && s'.actions == s.actions && s'.attempts == s.attempts
  {
    hide Enabled, DbAfter;
    if Delivers(step) {
      DeliveryStepTables(env, sys, step);
    } else if step.StartCheckoutStep? || step.CheckoutAcceptedStep? || step.SweepStep? {
      CheckoutStepTables(env, sys, step);
    } else {
      WebhookStepTables(env, sys, step);
    }
  }

  lemma StepKeepsCharge(env: Environment, sys: System, step: Step)
    requires Safe(env, sys) && Enabled(env, sys, step)
    ensures hide *; ChargeInv(env, DbAfter(env, sys, step), None)
  {
    if Charges(step) {
      hide Safe, Enabled, DbAfter;
      ChargingStepKeeps(env, sys, step);
    } else if Aside(step) {
      hide ChargeInv, Enabled, DbAfter, Bound, LedgerInv, WorkersAgree;
      AsideTables(env, sys, step);
      AuditKeeps(env, sys.db, DbAfter(env, sys, step));
    } else {
      hide Safe, Enabled, DbAfter;
      EngineStepKeeps(env, sys, step);
    }
  }

  // ---------- the books and growth ----------

  /** What every step does: it balances the books and undoes nothing. */
  ghost predicate Progress(s: Store, s': Store) {
    Balanced(s, s') && Grows(s, s')
  }

  /** What a step does that takes neither a delivery nor a processing lease, and no action but, perhaps, `x`. */
  ghost predicate Advance(x: Option<string>, s: Store, s': Store) {
    Balanced(s, s') && Steady(x, s, s')
  }

  /** The action that a step may take. */
  function ActionTaken(sys: System, step: Step): Option<string> {
    match step
    case ClaimStep(w, _, _) => if w in sys.workers && sys.workers[w].Ready? then Some(sys.workers[w].actionId) else None
    case ExpireStep(id, _, _, _, _) => Some(id)
    case _ => None
  }

  lemma NoAdvance(s: Store)
    ensures Advance(None, s, s)
  {
    hide Steady, Balanced;
    SilentSame(s, s);
    SteadySame(s);
  }

  lemma AnyAdvance(x: Option<string>, s: Store)
    ensures Advance(x, s, s)
  {
    hide Steady, Balanced;
    SilentSame(s, s);
    SteadySame(s);
    SteadyFor(x, s, s);
  }

  lemma SteadyFor(x: Option<string>, s: Store, s': Store)
    requires Steady(None, s, s')
    ensures Steady(x, s, s')
  {
    hide ActionGrows, Untaken, AttemptsGrow, OutboxSteady, LeasesSteady, ProcsSteady, ClaimsRun;
  }

  lemma NoProgress(s: Store)
    ensures Progress(s, s)
  {
    hide Grows, Balanced;
    SilentSame(s, s);
    GrowsSame(s);
  }

  lemma ProgressAside(s: Store, s': Store)
    requires Grows(s, s') && SameBooks(s, s')
    ensures Progress(s, s')
  {
    hide Grows, Balanced;
    SilentSame(s, s');
  }

  lemma AdvanceAside(x: Option<string>, s: Store, s': Store)
    requires Steady(x, s, s') && SameBooks(s, s')
    ensures Advance(x, s, s')
  {
    hide Steady, Balanced;
    SilentSame(s, s');
  }

  lemma PrepareStepAdvance(env: Environment, sys: System, step: Step)
    requires Enabled(env, sys, step) && step.PrepareStep?
    ensures hide *; Advance(None, sys.db, DbAfter(env, sys, step))
  {
    hide EnsurePrepared, EarliestAction, Chooses, Advance, Steady, Balanced;
    var s := sys.db;
    NoAdvance(s);
    PickedAction(s, step.now, ActionStatus.Pending, Renew, step.id);
    if EnsurePrepared(s, env.cfg, s.actions[step.id], step.choice, step.attemptId, step.reference).Success? {
      PrepareAdvance(env, s, step.id, step.choice, step.attemptId, step.reference);
    }
  }

  lemma PrepareAdvance(env: Environment, s: Store, id: string, choice: Choice, attemptId: string, reference: string)
    requires hide *; id in s.actions && EnsurePrepared(s, env.cfg, s.actions[id], choice, attemptId, reference).Success?
    ensures Advance(None, s, EnsurePrepared(s, env.cfg, s.actions[id], choice, attemptId, reference).value.0)
  {
    hide Advance, Steady, Balanced, NewAttempt, ResolvePlan;
    EnsurePreparedSteady(s, env.cfg, s.actions[id], choice, attemptId, reference);
    AdvanceAside(None, s, EnsurePrepared(s, env.cfg, s.actions[id], choice, attemptId, reference).value.0);
  }

  lemma GiveUpAdvance(env: Environment, s: Store, id: string, attemptId: string, now: Instant, ids: Ids, txNow: Instant)
    requires hide *; ChargeInv(env, s, None) && id in s.actions && FirstWith(s, id, IsInFlight, attemptId)
    requires GiveUp(s, s.actions[id], attemptId, now, ids, txNow).Success?
    ensures Advance(None, s, GiveUp(s, s.actions[id], attemptId, now, ids, txNow).value)
  {
    hide ChargeInv, GiveUp, Balanced, Steady, GoodSubs, GoodActions, GoodAttempts, TruthfulAttempts, NotAhead,
         FirstWith;
    InFlightOpen(s, id, attemptId);
    AttemptOf(env, s, attemptId);
    Basics(env, s, None);
    GiveUpBooks(s, s.actions[id], attemptId, now, ids, txNow);
    GiveUpSteady(s, s.actions[id], attemptId, now, ids, txNow);
  }

  lemma PickUncertainStepAdvance(env: Environment, sys: System, step: Step)
    requires ChargeInv(env, sys.db, None) && Enabled(env, sys, step) && step.PickUncertainStep?
    ensures hide *; Advance(None, sys.db, DbAfter(env, sys, step))
  {
    hide ChargeInv, GiveUp, EarliestAction, FirstWith, Advance, Steady, Balanced;
    var s := sys.db;
    NoAdvance(s);
    PickedAction(s, step.now, ActionStatus.Uncertain, Renew, step.id);
    InFlightOpen(s, step.id, step.attemptId);
    if PastDeadline(s.attempts[step.attemptId], step.now)
         && GiveUp(s, s.actions[step.id], step.attemptId, step.now, step.ids, step.txNow).Success? {
      GiveUpAdvance(env, s, step.id, step.attemptId, step.now, step.ids, step.txNow);
    }
  }

  lemma ClaimAdvance(env: Environment, s: Store, actionId: string, attemptId: string, token: string, now: Instant)
    requires hide *; ChargeInv(env, s, None) && attemptId in s.attempts && s.attempts[attemptId].actionId == actionId
    requires ClaimCharge(s, env.cfg, actionId, attemptId, token, now).Success?
    ensures Advance(Some(actionId), s, ClaimCharge(s, env.cfg, actionId, attemptId, token, now).value.0)
  {
    hide ChargeInv, Steady, ClaimAction, Advance, Balanced;
    ClaimChargeSteady(env, s, actionId, attemptId, token, now);
    ClaimBooks(s, actionId, token, now, Lease(env.cfg));
    AdvanceAside(Some(actionId), s, ClaimCharge(s, env.cfg, actionId, attemptId, token, now).value.0);
  }

  lemma ClaimStepAdvance(env: Environment, sys: System, step: Step)
    requires ChargeInv(env, sys.db, None) && WorkersAgree(env, sys) && Enabled(env, sys, step) && step.ClaimStep?
    ensures hide *; Advance(ActionTaken(sys, step), sys.db, DbAfter(env, sys, step))
  {
    hide ChargeInv, ClaimCharge, Advance, Steady, Balanced;
    var s, k := sys.db, sys.workers[step.w];
    AnyAdvance(Some(k.actionId), s);
    assert Remembers(env, s, k);
    if ClaimCharge(s, env.cfg, k.actionId, k.attemptId, step.token, step.now).Success? {
      ClaimAdvance(env, s, k.actionId, k.attemptId, step.token, step.now);
    }
  }

  lemma SettleStepAdvance(env: Environment, sys: System, step: Step)
    requires ChargeInv(env, sys.db, None) && WorkersAgree(env, sys) && Enabled(env, sys, step) && step.SettleStep?
    ensures hide *; Advance(None, sys.db, DbAfter(env, sys, step))
  {
    hide ChargeInv, SettleCharge, Advance, Steady, Balanced, SameAttempt, TruthfulReply, GoodActions, GoodAttempts,
         TruthfulAttempts, NotAhead;
    var s, k := sys.db, sys.workers[step.w];
    NoAdvance(s);
    assert Remembers(env, s, k);
    if SettleCharge(s, env.cfg, k.action, k.attempt.id, k.token, k.action.claim.fence, k.reply, k.now, step.ids,
                    step.txNow).Success? {
      SettleAdvance(env, s, k, step.ids, step.txNow);
    }
  }

  lemma SettleAdvance(env: Environment, s: Store, k: Worker, ids: Ids, txNow: Instant)
    requires hide *; ChargeInv(env, s, None) && k.Answered? && Remembers(env, s, k)
    requires SettleCharge(s, env.cfg, k.action, k.attempt.id, k.token, k.action.claim.fence, k.reply, k.now, ids,
                          txNow).Success?
    ensures Advance(None, s,
                    SettleCharge(s, env.cfg, k.action, k.attempt.id, k.token, k.action.claim.fence, k.reply, k.now, ids,
                                 txNow).value)
  {
    hide ChargeInv, SettleCharge, Steady, Balanced, TruthfulReply;
    HeldAttempt(s, k.action, k.attempt);
    SettleBooks(env, s, k.action, k.attempt.id, k.token, k.action.claim.fence, k.reply, k.now, ids, txNow);
    SettleSteady(env, s, k.action, k.attempt.id, k.token, k.action.claim.fence, k.reply, k.now, ids, txNow);
  }

  lemma ExpireStepAdvance(env: Environment, sys: System, step: Step)
    requires GoodSubs(sys.db) && Enabled(env, sys, step) && step.ExpireStep?
    ensures hide *; Advance(ActionTaken(sys, step), sys.db, DbAfter(env, sys, step))
  {
    hide RunExpire, GoodSubs, EarliestAction, Steady, Balanced;
    var s := sys.db;
    AnyAdvance(Some(step.id), s);
    if RunExpire(s, step.id, step.token, env.cfg, step.now, step.ids, step.txNow).Success? {
      RunExpireBooks(s, step.id, step.token, env.cfg, step.now, step.ids, step.txNow);
      RunExpireSteady(s, step.id, step.token, env.cfg, step.now, step.ids, step.txNow);
    }
  }

  lemma ResolveStepAdvance(env: Environment, sys: System, step: Step)
    requires ChargeInv(env, sys.db, None) && Enabled(env, sys, step) && step.ResolveStep?
    ensures hide *; Advance(None, sys.db, DbAfter(env, sys, step))
  {
    hide ChargeInv, ResolveAttempt, Steady, Balanced;
    var s := sys.db;
    NoAdvance(s);
    if ResolveAttempt(s, env.cfg, step.id, step.outcome, step.reason, step.actor, step.paymentId, step.now, step.ids,
                      step.txNow).Success? {
      ResolveBooks(env, s, step.id, step.outcome, step.reason, step.actor, step.paymentId, step.now, step.ids,
                   step.txNow);
      ResolveSteady(env, s, step.id, step.outcome, step.reason, step.actor, step.paymentId, step.now, step.ids,
                    step.txNow);
    }
  }

  lemma ActivateStepAdvance(env: Environment, sys: System, step: Step)
    requires Bound(sys.db) && Enabled(env, sys, step) && step.ActivateStep?
    ensures hide *; Advance(None, sys.db, DbAfter(env, sys, step))
  {
    hide Bound, ActivateCheckout, Steady, Balanced;
    var s := sys.db;
    NoAdvance(s);
    if ActivateCheckout(s, step.id, step.now, step.ids, step.txNow).Success? {
      ActivateCheckoutBooks(s, step.id, step.now, step.ids, step.txNow);
      ActivateCheckoutSteady(s, step.id, step.now, step.ids, step.txNow);
    }
  }

  lemma CommitEventAdvance(env: Environment, s: Store, k: Worker, hits: Hits, now: Instant, ids: Ids, txNow: Instant)
    requires hide *; ChargeInv(env, s, None) && Bound(s) && k.Fetched? && HitsAgree(s, k.ev, k.state, hits)
             && OwnCheckout(s, k.ev)
    requires CommitEvent(s, env.cfg, k.ev, k.lease, k.state, hits, now, ids, txNow).Success? && TruthfulEvent(env, k.ev)
    ensures Advance(None, s, CommitEvent(s, env.cfg, k.ev, k.lease, k.state, hits, now, ids, txNow).value)
  {
    hide ChargeInv, Bound, CommitEvent, HitsAgree, OwnCheckout, TruthfulEvent, Steady, Balanced;
    CommitEventBooks(env, s, k.ev, k.lease, k.state, hits, now, ids, txNow);
    CommitEventSteady(env, s, k.ev, k.lease, k.state, hits, now, ids, txNow);
  }

  lemma CommitEventStepAdvance(env: Environment, sys: System, step: Step)
    requires ChargeInv(env, sys.db, None) && Bound(sys.db) && WorkersAgree(env, sys) && Enabled(env, sys, step)
             && step.CommitEventStep?
    ensures hide *; Advance(None, sys.db, DbAfter(env, sys, step))
  {
    hide ChargeInv, Bound, CommitEvent, HitsAgree, OwnCheckout, TruthfulEvent, Advance;
    var s, k := sys.db, sys.workers[step.w];
    NoAdvance(s);
    assert Remembers(env, s, k);
    if CommitEvent(s, env.cfg, k.ev, k.lease, k.state, step.hits, step.now, step.ids, step.txNow).Success? {
      CommitEventAdvance(env, s, k, step.hits, step.now, step.ids, step.txNow);
    }
  }

  lemma ObserveAdvance(s: Store, ref: string, obs: Observation, now: Instant, ids: Ids, txNow: Instant)
    requires GoodSubs(s) && (obs == CANCELLATION || obs == IMMEDIATE_EXPIRY)
    ensures Advance(None, s, KeptStore(s, Observe(s, ref, obs, now, ids, txNow)))
  {
    hide Observe, Steady, Balanced, GoodSubs;
    NoAdvance(s);
    if Observe(s, ref, obs, now, ids, txNow).Success? {
      ObserveBooks(s, ref, obs, now, ids, txNow);
      ObserveSteady(s, ref, obs, now, ids, txNow);
    }
  }

  lemma OperatorStepAdvance(env: Environment, sys: System, step: Step)
    requires GoodSubs(sys.db) && Enabled(env, sys, step) && (step.CancelStep? || step.ExpireNowStep?)
    ensures hide *; Advance(None, sys.db, DbAfter(env, sys, step))
  {
    hide Observe, Advance, GoodSubs;
    if step.CancelStep? {
      ObserveAdvance(sys.db, step.ref, CANCELLATION, step.now, step.ids, step.txNow);
    } else {
      ObserveAdvance(sys.db, step.ref, IMMEDIATE_EXPIRY, step.now, step.ids, step.txNow);
    }
  }

  lemma CheckoutStepAdvance(env: Environment, sys: System, step: Step)
    requires Bound(sys.db) && Enabled(env, sys, step)
             && (step.StartCheckoutStep? || step.CheckoutAcceptedStep? || step.SweepStep?)
    ensures hide *; Advance(None, sys.db, DbAfter(env, sys, step))
  {
    CheckoutStepTables(env, sys, step);
    hide Enabled, StartCheckout, CheckoutAccepted, ExpireDueCheckouts, Balanced, Steady, Bound;
    var s := sys.db;
    NoAdvance(s);
    OtherTables(s, DbAfter(env, sys, step));
    match step
    case StartCheckoutStep(c) => if StartCheckout(s, c).Success? { StartBooks(s, c); }
    case CheckoutAcceptedStep(id, pid, expiresAt) =>
      if CheckoutAccepted(s, id, pid, expiresAt).Success? { AcceptedBooks(s, id, pid, expiresAt); }
    case SweepStep(now) => SweepBooks(s, now);
  }

  /** Steps that leave the store alone. */
  predicate Idle(step: Step) {
    step.FetchStep? || step.SendStep? || step.CrashStep?
  }

  lemma IdleStep(env: Environment, sys: System, step: Step)
    requires Enabled(env, sys, step) && Idle(step)
    ensures hide *; DbAfter(env, sys, step) == sys.db
  {
    hide Enabled;
  }

  /** Steps that change rows of the outbox or of processing itself. */
  predicate Takes(step: Step) {
    Delivers(step) || step.ReceiveStep? || step.LeaseStep?
  }

  lemma ChargingStepAdvance(env: Environment, sys: System, step: Step)
    requires ChargeInv(env, sys.db, None) && WorkersAgree(env, sys) && Enabled(env, sys, step) && Charges(step)
    ensures hide *; Advance(ActionTaken(sys, step), sys.db, DbAfter(env, sys, step))
  {
    hide ChargeInv, WorkersAgree, Enabled, DbAfter, Advance, GoodSubs, GoodActions, GoodAttempts, TruthfulAttempts,
         NotAhead;
    Basics(env, sys.db, None);
    match step {
      case PrepareStep(_, _, _, _, _, _) => PrepareStepAdvance(env, sys, step);
      case PickUncertainStep(_, _, _, _, _, _) => PickUncertainStepAdvance(env, sys, step);
      case ClaimStep(_, _, _) => ClaimStepAdvance(env, sys, step);
      case SettleStep(_, _, _) => SettleStepAdvance(env, sys, step);
      case ExpireStep(_, _, _, _, _) => ExpireStepAdvance(env, sys, step);
      case ResolveStep(_, _, _, _, _, _, _, _) => ResolveStepAdvance(env, sys, step);
    }
  }

  /** Only claims take claims: every step but those of deliveries and of processing itself leaves the claims of
      deliveries and of processing alone, and takes no action but the one that it claims. */
  lemma StepAdvance(env: Environment, sys: System, step: Step)
    requires Safe(env, sys) && Enabled(env, sys, step) && !Takes(step)
    ensures hide *; Advance(ActionTaken(sys, step), sys.db, DbAfter(env, sys, step))
  {
    hide ChargeInv, Bound, LedgerInv, WorkersAgree, Enabled, DbAfter, Advance, GoodSubs, GoodActions, GoodAttempts,
         TruthfulAttempts, NotAhead;
    Basics(env, sys.db, None);
    if Charges(step) {
      ChargingStepAdvance(env, sys, step);
    } else if step.ActivateStep? {
      ActivateStepAdvance(env, sys, step);
    } else if step.CommitEventStep? {
      CommitEventStepAdvance(env, sys, step);
    } else if step.CancelStep? || step.ExpireNowStep? {
      OperatorStepAdvance(env, sys, step);
    } else if Idle(step) {
      IdleStep(env, sys, step);
      NoAdvance(sys.db);
    } else {
      CheckoutStepAdvance(env, sys, step);
    }
  }

  lemma RecordStepProgress(env: Environment, sys: System, step: Step)
    requires Enabled(env, sys, step) && step.RecordStep?
    ensures hide *; Progress(sys.db, DbAfter(env, sys, step))
  {
    hide Notify.RecordResponse, Balanced, Grows;
    var k := sys.workers[step.w];
    NoProgress(sys.db);
    if Notify.RecordResponse(sys.db, k.event, k.token, step.response, step.now, step.next).Success? {
      ResponseBooks(sys.db, k.event, k.token, step.response, step.now, step.next);
      ResponseGrows(sys.db, k.event, k.token, step.response, step.now, step.next);
    }
  }

  lemma TakeStepProgress(env: Environment, sys: System, step: Step)
    requires Enabled(env, sys, step) && step.TakeEventStep?
    ensures hide *; Progress(sys.db, DbAfter(env, sys, step))
  {
    hide Balanced, Grows, ClaimOutbound, OutboundDue;
    TakeBooks(sys.db, step.id, step.token, step.now, step.lease);
    TakeGrows(sys.db, step.id, step.token, step.now, step.lease);
  }

  lemma OutboxStepProgress(env: Environment, sys: System, step: Step)
    requires Enabled(env, sys, step) && (step.AbandonStep? || step.RequeueStep? || step.ReplayStep?)
    ensures hide *; Progress(sys.db, DbAfter(env, sys, step))
  {
    hide Balanced, Grows, AbandonOutbound, RequeueOutbound, ReplayLatest, LatestOutbound, Enabled;
    var s := sys.db;
    NoProgress(s);
    match step
    case AbandonStep(id, reason, actor, now) =>
      if AbandonOutbound(s, id, reason, actor, now).Success? {
        AbandonBooks(s, id, reason, actor, now);
        AbandonGrows(s, id, reason, actor, now);
      }
    case RequeueStep(id, reason, actor, now) =>
      if RequeueOutbound(s, id, reason, actor, now).Success? {
        RequeueBooks(s, id, reason, actor, now);
        RequeueGrows(s, id, reason, actor, now);
      }
    case ReplayStep(id, reason, actor, now) =>
      if ReplayLatest(s, id, reason, actor, now).Success? {
        ReplayBooks(s, id, reason, actor, now);
        ReplayGrows(s, id, reason, actor, now);
      }
  }

  lemma ReceiveStepProgress(env: Environment, sys: System, step: Step)
    requires Enabled(env, sys, step) && step.ReceiveStep?
    ensures hide *; Progress(sys.db, DbAfter(env, sys, step))
  {
    WebhookStepTables(env, sys, step);
    hide Balanced, Grows, InsertProcessorEvent, TruthfulEvent, FreshWork, Progress;
    ReceiveGrows(sys.db, ProcessorEvent(step.ev.key, step.actionId, ProcessingState.Pending, None, None, UNCLAIMED));
    ProgressAside(sys.db, DbAfter(env, sys, step));
  }

  lemma LeaseStepProgress(env: Environment, sys: System, step: Step)
    requires Enabled(env, sys, step) && step.LeaseStep?
    ensures hide *; Progress(sys.db, DbAfter(env, sys, step))
  {
    WebhookStepTables(env, sys, step);
    hide Balanced, Grows, ClaimProcessorEvent, Progress;
    var s, ev := sys.db, sys.workers[step.w].ev;
    GrowsSame(s);
    if ClaimProcessorEvent(s, ev.key, ProcessingKey(ev), step.token, step.now, 120).Success? {
      ClaimEventGrows(s, ev.key, ProcessingKey(ev), step.token, step.now, 120);
    }
    ProgressAside(s, DbAfter(env, sys, step));
  }

  lemma TakingStepProgress(env: Environment, sys: System, step: Step)
    requires Enabled(env, sys, step) && Takes(step)
    ensures hide *; Progress(sys.db, DbAfter(env, sys, step))
  {
    hide Enabled, DbAfter, Progress;
    if step.RecordStep? {
      RecordStepProgress(env, sys, step);
    } else if step.TakeEventStep? {
      TakeStepProgress(env, sys, step);
    } else if step.ReceiveStep? {
      ReceiveStepProgress(env, sys, step);
    } else if step.LeaseStep? {
      LeaseStepProgress(env, sys, step);
    } else {
      OutboxStepProgress(env, sys, step);
    }
  }

  lemma StepProgress(env: Environment, sys: System, step: Step)
    requires Safe(env, sys) && Enabled(env, sys, step)
    ensures hide *; Progress(sys.db, DbAfter(env, sys, step))
  {
    hide Safe, Enabled, DbAfter, Steady, Balanced, Grows;
    if Takes(step) {
      TakingStepProgress(env, sys, step);
    } else {
      StepAdvance(env, sys, step);
      SteadyGrows(ActionTaken(sys, step), sys.db, DbAfter(env, sys, step));
    }
  }
}
