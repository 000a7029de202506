/** No transaction undoes anything, and only claims take claims. */
module GrowthSteps {
  import opened Wrappers
  import opened Calendar
  import opened Protocol
  import opened Model
  import opened Transition
  import opened Engine
  import opened Scheduler
  import opened System
  import opened ChargeSafety
  import opened ChargeSteps
  import opened Growth
  import Notify

  // ---------- the scheduler ----------

  lemma RunExpireSteady(s: Store, id: string, token: string, cfg: Config, now: Instant, ids: Ids, txNow: Instant)
    requires RunExpire(s, id, token, cfg, now, ids, txNow).Success?
    ensures hide *; Steady(Some(id), s, RunExpire(s, id, token, cfg, now, ids, txNow).value)
  {
    hide ClaimAction, Observe, FinishAction, Steady;
    var claimed := ClaimAction(s, id, token, now, Lease(cfg)).value;
    ClaimActionSteady(s, id, token, now, Lease(cfg));
    ObserveSteady(claimed.0, claimed.1.ref, Observed(Status.Expired), now, ids, txNow);
    var s2 := Observe(claimed.0, claimed.1.ref, Observed(Status.Expired), now, ids, txNow).value;
    FinishSteady(s2, id, token, claimed.1.claim.fence, ActionStatus.Completed, None, None);
    SteadyOn(Some(id), s, claimed.0, s2);
    SteadyOn(Some(id), s, s2, RunExpire(s, id, token, cfg, now, ids, txNow).value);
  }

  lemma EnsurePreparedSteady(s: Store, cfg: Config, a: ScheduledAction, choice: Choice, attemptId: string,
          reference: string)
    requires EnsurePrepared(s, cfg, a, choice, attemptId, reference).Success?
    ensures Steady(None, s, EnsurePrepared(s, cfg, a, choice, attemptId, reference).value.0)
  {
    hide Steady, NewAttempt, AttemptGrows;
    SteadySame(s);
    if choice.Anew? {
      var sub := s.subs[a.ref];
      var t := NewAttempt(attemptId, reference, choice.number, a.id, sub, cfg.plans[sub.planId], cfg.endpoint);
      assert t.id == attemptId by {
        PreparedUnder(attemptId, reference, choice.number, a.id, sub, cfg.plans[sub.planId], cfg.endpoint);
      }
      assert NewKey(s, t);
      AttemptGrown(s, t);
    }
  }

  lemma ClaimChargeSteady(env: Environment, s: Store, actionId: string, attemptId: string, token: string, now: Instant)
    requires hide *; ChargeInv(env, s, None) && attemptId in s.attempts && s.attempts[attemptId].actionId == actionId
    requires ClaimCharge(s, env.cfg, actionId, attemptId, token, now).Success?
    ensures Steady(Some(actionId), s, ClaimCharge(s, env.cfg, actionId, attemptId, token, now).value.0)
  {
    hide ChargeInv, ClaimAction, Steady;
    var claimed := ClaimAction(s, actionId, token, now, Lease(env.cfg)).value;
    ClaimActionSteady(s, actionId, token, now, Lease(env.cfg));
    ClaimedKind(s, actionId, token, now, Lease(env.cfg));
    WorkingOn(env, s, attemptId);
    assert claimed.0.attempts == s.attempts by { ClaimedAttempts(s, actionId, token, now, Lease(env.cfg)); }
    var r := ClaimCharge(s, env.cfg, actionId, attemptId, token, now).value;
    AttemptGrown(claimed.0, r.2);
    assert r.0 == claimed.0.(attempts := claimed.0.attempts[attemptId := r.2]);
    SteadyOn(Some(actionId), s, claimed.0, r.0);
  }

  lemma BlockSteady(s: Store, sub: Subscription, reason: string, now: Instant, ids: Ids, txNow: Instant)
    requires BlockAutomaticCharging(s, sub, reason, now, ids, txNow).Success?
    ensures hide *; Steady(None, s, BlockAutomaticCharging(s, sub, reason, now, ids, txNow).value)
  {
    hide Decide, Commit, Steady;
    var d := if sub.status != Status.PastDue then Decide(sub, Observed(Status.PastDue), now).value else Noop;
    DecisionSteady(s, d, ids, txNow);
    var s1 := Commit(s, d, ids, txNow).value;
    var s' := BlockAutomaticCharging(s, sub, reason, now, ids, txNow).value;
    OtherTables(s1, s');
    SteadyOn(None, s, s1, s');
  }

  lemma GiveUpSteady(s: Store, a: ScheduledAction, id: string, now: Instant, ids: Ids, txNow: Instant)
    requires hide *; GiveUp(s, a, id, now, ids, txNow).Success?
             && (id in s.attempts ==> s.attempts[id].id == id && !s.attempts[id].status.Authorized?)
    ensures Steady(None, s, GiveUp(s, a, id, now, ids, txNow).value)
  {
    hide BlockAutomaticCharging, ForceFinishAction, Steady;
    var t := s.attempts[id];
    var u := t.(status := AttemptStatus.ManualReview, claim := t.claim.Release());
    AttemptGrown(s, u);
    var s1 := UpdateAttempt(s, u).value;
    ForceFinishSteady(s1, a.id, ActionStatus.ManualReview, None, Some("resolution_deadline"));
    var s2 := ForceFinishAction(s1, a.id, ActionStatus.ManualReview, None, Some("resolution_deadline")).value;
    BlockSteady(s2, s2.subs[a.ref], "resolution_deadline", now, ids, txNow);
    SteadyOn(None, s, s1, s2);
    SteadyOn(None, s, s2, GiveUp(s, a, id, now, ids, txNow).value);
  }

  lemma SettleSteady(env: Environment, s: Store, a: ScheduledAction, id: string, token: string, fence: int,
          reply: Reply, now: Instant, ids: Ids, txNow: Instant)
    requires ChargeInv(env, s, None) && SettleCharge(s, env.cfg, a, id, token, fence, reply, now, ids, txNow).Success?
    ensures hide *; Steady(None, s, SettleCharge(s, env.cfg, a, id, token, fence, reply, now, ids, txNow).value)
  {
    hide ChargeInv, Observe, FinishAction, EnsureAction, Steady, IsRetryableRefusal;
    SteadySame(s);
    var cur := s.attempts[id];
    WorkingOn(env, s, id);
    if cur.claim.Owned(token, fence) {
      var s' := SettleCharge(s, env.cfg, a, id, token, fence, reply, now, ids, txNow).value;
      match reply
      case Unclear =>
        var u := cur.(status := AttemptStatus.Uncertain, claim := cur.claim.Release());
        AttemptGrown(s, u);
        var s1 := UpdateAttempt(s, u).value;
        FinishSteady(s1, a.id, token, fence, ActionStatus.Uncertain, Some(RecheckAt(cur, now)), Some("uncertain"));
        SteadyOn(None, s, s1, s');
      case Authorised(paymentId) =>
        var u := cur.(status := Authorized, paymentId := Some(paymentId), completedAt := Some(now),
                      claim := cur.claim.Release());
        AttemptGrown(s, u);
        var s1 := UpdateAttempt(s, u).value;
        ObserveFinishSteady(s1, a.ref, PaidPeriod(cur.periodStart, cur.periodEnd), now, ids, txNow, a.id, token, fence,
                            ActionStatus.Completed, None, None);
        SteadyOn(None, s, s1, s');
      case Declined(paymentId, code) =>
        var u := DeclinedAttempt(cur, paymentId, code, now);
        AttemptGrown(s, u);
        var s1 := UpdateAttempt(s, u).value;
        DeclinedSteady(env.cfg, s1, a, u.number, IsRetryableRefusal(code), token, fence, now, ids, txNow);
        SteadyOn(None, s, s1, s');
    }
  }

  lemma ObserveFinishSteady(s: Store, ref: string, obs: Observation, now: Instant, ids: Ids, txNow: Instant, id: string,
          token: string, fence: int, status: ActionStatus, due: Option<Instant>, class_: Option<string>)
    requires hide *; Observe(s, ref, obs, now, ids, txNow).Success?
    requires FinishAction(Observe(s, ref, obs, now, ids, txNow).value, id, token, fence, status, due, class_).Success?
             && !status.Running?
    ensures Steady(None, s,
                   FinishAction(Observe(s, ref, obs, now, ids, txNow).value, id, token, fence, status, due,
                                class_).value)
  {
    hide Observe, FinishAction, Steady;
    var s2 := Observe(s, ref, obs, now, ids, txNow).value;
    ObserveSteady(s, ref, obs, now, ids, txNow);
    FinishSteady(s2, id, token, fence, status, due, class_);
    SteadyOn(None, s, s2, FinishAction(s2, id, token, fence, status, due, class_).value);
  }

  lemma DeclinedSteady(cfg: Config, s: Store, a: ScheduledAction, number: AttemptNumber, retryable: bool, token: string,
          fence: int, now: Instant, ids: Ids, txNow: Instant)
    requires Observe(s, a.ref, Observed(Status.PastDue), now, ids, txNow).Success?
    ensures var s2, last := Observe(s, a.ref, Observed(Status.PastDue), now, ids, txNow).value,
            LastRefusal(cfg, number, retryable);
            var r := FinishAction(s2, a.id, token, fence, if last then ActionStatus.Completed else ActionStatus.Pending,
                                  if last then None else Some(now + cfg.retryDelays[number - 1]), Some("refused"));
            r.Success? ==>
              Steady(None, s,
                     if last
                       then EnsureAction(r.value, NewAction(ids.dunning, a.ref, Expire, now + cfg.dunningTermination))
                       else r.value)
  {
    hide Observe, FinishAction, Steady, EnsureAction;
    var s2 := Observe(s, a.ref, Observed(Status.PastDue), now, ids, txNow).value;
    var last := LastRefusal(cfg, number, retryable);
    var status := if last then ActionStatus.Completed else ActionStatus.Pending;
    var due := if last then None else Some(now + cfg.retryDelays[number - 1]);
    var r := FinishAction(s2, a.id, token, fence, status, due, Some("refused"));
    if r.Success? {
      ObserveFinishSteady(s, a.ref, Observed(Status.PastDue), now, ids, txNow, a.id, token, fence, status, due,
                          Some("refused"));
      if last {
        var expiry := NewAction(ids.dunning, a.ref, Expire, now + cfg.dunningTermination);
        EnsureSteady(r.value, expiry);
        SteadyOn(None, s, r.value, EnsureAction(r.value, expiry));
      }
    }
  }

  // ---------- outcomes learned from outside ----------

  /** An attempt that may be settled: under its identifier and not yet authorised. */
  ghost predicate Open(s: Store, t: ChargeAttempt) {
    t.id in s.attempts && AttemptGrows(s.attempts[t.id], t) && !s.attempts[t.id].status.Authorized?
  }

  lemma RecordAuthorisedSteady(s: Store, t: ChargeAttempt, unblock: bool, now: Instant, ids: Ids, txNow: Instant)
    requires Open(s, t) && RecordAuthorised(s, t, unblock, now, ids, txNow).Success?
    ensures hide *; Steady(None, s, RecordAuthorised(s, t, unblock, now, ids, txNow).value)
  {
    hide Decide, Commit, ForceFinishAction, Steady;
    var u := t.(status := Authorized);
    AttemptGrown(s, u);
    var s1 := UpdateAttempt(s, u).value;
    ForceFinishSteady(s1, t.actionId, ActionStatus.Completed, None, None);
    var s2 := ForceFinishAction(s1, t.actionId, ActionStatus.Completed, None, None).value;
    SteadyOn(None, s, s1, s2);
    var s' := RecordAuthorised(s, t, unblock, now, ids, txNow).value;
    var row := s2.subs[t.ref];
    var sub := if unblock then row.(chargingBlocked := false, blockReason := None) else row;
    var d := Decide(sub, PaidPeriod(t.periodStart, t.periodEnd), now).value;
    if d.Noop? { OtherTables(s2, s'); } else { DecisionSteady(s2, d, ids, txNow); }
    SteadyOn(None, s, s2, s');
  }

  lemma RescheduleSteady(s: Store, cfg: Config, t: ChargeAttempt, ref: string, now: Instant, dunningId: string)
    requires RescheduleOrExpire(s, cfg, t, ref, now, dunningId).Success?
    ensures Steady(None, s, RescheduleOrExpire(s, cfg, t, ref, now, dunningId).value)
  {
    hide RetryableCode, ForceFinishAction, EnsureAction, Steady;
    if LastRefusal(cfg, t.number, RetryableCode(t.refusalCode)) {
      ForceFinishSteady(s, t.actionId, ActionStatus.Completed, None, Some("refused"));
      var s1 := ForceFinishAction(s, t.actionId, ActionStatus.Completed, None, Some("refused")).value;
      var expiry := NewAction(dunningId, ref, Expire, now + cfg.dunningTermination);
      EnsureSteady(s1, expiry);
      SteadyOn(None, s, s1, EnsureAction(s1, expiry));
    } else {
      ForceFinishSteady(s, t.actionId, ActionStatus.Pending, Some(now + cfg.retryDelays[t.number - 1]),
                        Some("refused"));
    }
  }

  lemma RecordRefusedSteady(s: Store, cfg: Config, t: ChargeAttempt, now: Instant, ids: Ids, txNow: Instant)
    requires Open(s, t) && RecordRefused(s, cfg, t, now, ids, txNow).Success?
    ensures hide *; Steady(None, s, RecordRefused(s, cfg, t, now, ids, txNow).value)
  {
    hide Observe, RescheduleOrExpire, Steady;
    var u := t.(status := Refused);
    AttemptGrown(s, u);
    var s1 := UpdateAttempt(s, u).value;
    ObserveSteady(s1, t.ref, Observed(Status.PastDue), now, ids, txNow);
    var s2 := Observe(s1, t.ref, Observed(Status.PastDue), now, ids, txNow).value;
    RescheduleSteady(s2, cfg, t, t.ref, now, ids.dunning);
    SteadyOn(None, s, s1, s2);
    SteadyOn(None, s, s2, RecordRefused(s, cfg, t, now, ids, txNow).value);
  }

  lemma GivenUpSteady(s: Store, t: ChargeAttempt, now: Instant, ids: Ids, txNow: Instant)
    requires hide *; Open(s, t)
    requires var s1 := s.(attempts := s.attempts[t.id := t]);
             && ForceFinishAction(s1, t.actionId, ActionStatus.Canceled, None, Some("operator")).Success?
             && Observe(ForceFinishAction(s1, t.actionId, ActionStatus.Canceled, None, Some("operator")).value, t.ref,
                        IMMEDIATE_EXPIRY, now, ids, txNow).Success?
    ensures var s1 := s.(attempts := s.attempts[t.id := t]);
            Steady(None, s,
                   Observe(ForceFinishAction(s1, t.actionId, ActionStatus.Canceled, None, Some("operator")).value,
                           t.ref, IMMEDIATE_EXPIRY, now, ids, txNow).value)
  {
    hide Observe, ForceFinishAction, Steady;
    var s1 := s.(attempts := s.attempts[t.id := t]);
    AttemptGrown(s, t);
    ForceFinishSteady(s1, t.actionId, ActionStatus.Canceled, None, Some("operator"));
    var s2 := ForceFinishAction(s1, t.actionId, ActionStatus.Canceled, None, Some("operator")).value;
    ObserveSteady(s2, t.ref, IMMEDIATE_EXPIRY, now, ids, txNow);
    SteadyOn(None, s, s1, s2);
    SteadyOn(None, s, s2, Observe(s2, t.ref, IMMEDIATE_EXPIRY, now, ids, txNow).value);
  }

  lemma ResolveSteady(env: Environment, s: Store, id: string, outcome: Resolution, reason: string, actor: string,
          paymentId: string, now: Instant, ids: Ids, txNow: Instant)
    requires ChargeInv(env, s, None)
             && ResolveAttempt(s, env.cfg, id, outcome, reason, actor, paymentId, now, ids, txNow).Success?
    ensures hide *;
            Steady(None, s, ResolveAttempt(s, env.cfg, id, outcome, reason, actor, paymentId, now, ids, txNow).value)
  {
    hide ChargeInv, Observe, ForceFinishAction, RecordAuthorised, RecordRefused, Steady;
    var t0 := s.attempts[id];
    WorkingOn(env, s, id);
    var audit := Audit("resolve-attempt", id, if actor == "" then "cli" else actor,
                       if reason == "" then "operator" else reason);
    var s1 := InsertAudit(s, audit);
    AuditSteady(s, audit);
    var t := t0.(claim := t0.claim.Release(), completedAt := Some(now),
                 paymentId := if paymentId != "" then Some(paymentId) else t0.paymentId);
    match outcome {
      case Paid => RecordAuthorisedSteady(s1, t, true, now, ids, txNow);
      case Declined => RecordRefusedSteady(s1, env.cfg, t, now, ids, txNow);
      case GivenUp => GivenUpSteady(s1, t.(status := AttemptStatus.Canceled), now, ids, txNow);
      case Unknown =>
    }
    SteadyOn(None, s, s1, ResolveAttempt(s, env.cfg, id, outcome, reason, actor, paymentId, now, ids, txNow).value);
  }

  // ---------- checkouts and webhooks ----------

  lemma CreateSteady(s: Store, co: Checkout, sub: Subscription, ids: Ids, txNow: Instant)
    requires CreateSubscription(s, co, sub, ids, txNow).Success?
    ensures hide *; Steady(None, s, CreateSubscription(s, co, sub, ids, txNow).value)
  {
    hide CommitChange, Steady;
    CommitSteady(s, true, sub, Activated, ids, txNow);
    var s1 := CommitChange(s, true, sub, Activated, ids, txNow).value;
    var s' := CreateSubscription(s, co, sub, ids, txNow).value;
    OtherTables(s1, s');
    SteadyOn(None, s, s1, s');
  }

  lemma ActivateCheckoutSteady(s: Store, id: string, now: Instant, ids: Ids, txNow: Instant)
    requires ActivateCheckout(s, id, now, ids, txNow).Success?
    ensures hide *; Steady(None, s, ActivateCheckout(s, id, now, ids, txNow).value)
  {
    hide CreateSubscription, Steady, AddCalendarMonths;
    SteadySame(s);
    var co := s.checkouts[id];
    if co.subscriptionRef.None? {
      CreateSteady(s, co,
                   FirstActivation(co, ids.subscription, Status.Active, now, AddCalendarMonths(now, 1), now, None, None,
                                   None, co.shopperRef), ids, txNow);
    }
  }

  lemma ReplaceSteady(s: Store, ref: string, ev: NormalizedEvent)
    requires ReplacePaymentMethod(s, ref, ev).Success?
    ensures Steady(None, s, ReplacePaymentMethod(s, ref, ev).value.0)
  {
    hide Steady;
    SteadySame(s);
    if ev.paymentMethod != "" && s.subs[ref].status != Status.Expired {
      var sub := WithPaymentMethod(s.subs[ref], ev.paymentMethod).(chargingBlocked := false, blockReason := None);
      var s1 := UpdateSubscription(s, sub).value;
      OtherTables(s, s1);
      AuditSteady(s1, Audit("payment-method-replaced", ref, "engine", "adyen-stored-payment-method"));
      SteadyOn(None, s, s1, ReplacePaymentMethod(s, ref, ev).value.0);
    }
  }

  lemma AdyenInitialSteady(s: Store, ev: NormalizedEvent, now: Instant, ids: Ids, txNow: Instant)
    requires ApplyAdyenInitial(s, ev, now, ids, txNow).Success?
    ensures hide *; Steady(None, s, ApplyAdyenInitial(s, ev, now, ids, txNow).value.0)
  {
    hide CreateSubscription, AddCalendarMonths, ReplacePaymentMethod, Steady;
    SteadySame(s);
    if ev.success && ev.checkoutId != "" {
      var co := s.checkouts[ev.checkoutId];
      if co.status.Completed? && co.subscriptionRef.Some? {
        ReplaceSteady(s, co.subscriptionRef.value, ev);
      } else {
        var sub := FirstActivation(co, ids.subscription, Status.Active, now, AddCalendarMonths(now, 1), now, None, None,
                                   NonEmpty(ev.paymentId), co.shopperRef);
        CreateSteady(s, co, WithPaymentMethod(sub, ev.paymentMethod), ids, txNow);
      }
    }
  }

  lemma StripeSteady(s: Store, cfg: Config, ev: NormalizedEvent, state: Option<SubscriptionState>, hits: Hits,
          now: Instant, ids: Ids, txNow: Instant)
    requires ApplyStripe(s, cfg, ev, state, hits, now, ids, txNow).Success?
    ensures hide *; Steady(None, s, ApplyStripe(s, cfg, ev, state, hits, now, ids, txNow).value.0)
  {
    hide Decide, Commit, CreateSubscription, StripeSubject, StripeObservation, FirstActivation, Steady;
    SteadySame(s);
    if state.Some? {
      var st := state.value;
      var subject := StripeSubject(ev, st, hits);
      if subject.Some? {
        var sub := s.subs[subject.value];
        DecisionSteady(s, Decide(sub, StripeObservation(cfg, sub, st).value, now).value, ids, txNow);
      } else if ev.checkoutId in s.checkouts && (st.status.Active? || st.status.Trialing?) && ev.checkoutId != "" {
        CreateSteady(s, s.checkouts[ev.checkoutId],
                    FirstActivation(s.checkouts[ev.checkoutId], ids.subscription, st.status, st.periodStart,
                                    st.periodEnd, now,
                                    NonEmpty(st.customerId), NonEmpty(st.subId), None, None), ids, txNow);
      }
    }
  }

  lemma AdyenRenewalSteady(env: Environment, s: Store, ev: NormalizedEvent, hits: Hits, now: Instant, ids: Ids,
          txNow: Instant)
    requires ChargeInv(env, s, None) && ApplyAdyenRenewal(s, env.cfg, ev, hits, now, ids, txNow).Success?
    ensures hide *; Steady(None, s, ApplyAdyenRenewal(s, env.cfg, ev, hits, now, ids, txNow).value.0)
  {
    hide ChargeInv, RecordAuthorised, RecordRefused, Steady;
    SteadySame(s);
    var t0 := s.attempts[hits.byReference.value];
    WorkingOn(env, s, hits.byReference.value);
    if !(t0.status.Refused? || t0.status.Canceled? || t0.status.ManualReview? || t0.status.Authorized?) {
      var t := t0.(claim := t0.claim.Release(), completedAt := Some(now),
                   paymentId := if ev.paymentId != "" then Some(ev.paymentId) else t0.paymentId);
      if ev.success {
        RecordAuthorisedSteady(s, t, false, now, ids, txNow);
      } else {
        RecordRefusedSteady(s, env.cfg,
                            t.(refusalCode := if ev.refusalCode != "" then Some(ev.refusalCode) else t0.refusalCode),
                                now, ids, txNow);
      }
    }
  }

  lemma ObservationSteady(env: Environment, s: Store, ev: NormalizedEvent, state: Option<SubscriptionState>, hits: Hits,
          now: Instant, ids: Ids, txNow: Instant)
    requires ChargeInv(env, s, None) && ApplyObservation(s, env.cfg, ev, state, hits, now, ids, txNow).Success?
    ensures hide *; Steady(None, s, ApplyObservation(s, env.cfg, ev, state, hits, now, ids, txNow).value.0)
  {
    hide ChargeInv, ApplyStripe, ApplyAdyenInitial, ApplyAdyenRenewal, Observe, Steady;
    match ev.kind
    case StripeCheckout => StripeSteady(s, env.cfg, ev, state, hits, now, ids, txNow);
    case StripeSubscription => StripeSteady(s, env.cfg, ev, state, hits, now, ids, txNow);
    case AdyenInitial => AdyenInitialSteady(s, ev, now, ids, txNow);
    case AdyenRenewal => AdyenRenewalSteady(env, s, ev, hits, now, ids, txNow);
    case AdyenContract => ObserveSteady(s, ContractSubject(s, hits).value, CANCELLATION, now, ids, txNow);
    case AdyenOperational => SteadySame(s);
  }

  lemma LeaseTables(s: Store, s': Store)
    requires s' == s.(procEvents := s'.procEvents, leases := s'.leases) && LeasesGrow(s.leases, s'.leases)
             && ProcsGrow(s.procEvents, s'.procEvents)
    ensures Grows(s, s')
  {
    hide ActionsGrow, AttemptsGrow, OutboxGrows, LeasesGrow, ProcsGrow;
    SameGrow(s);
  }

  lemma ClosedTables(s: Store, s': Store)
    requires s' == s.(procEvents := s'.procEvents, leases := s'.leases) && LeasesSteady(s.leases, s'.leases)
             && ProcsSteady(s.procEvents, s'.procEvents)
    ensures Steady(None, s, s')
  {
    hide ActionsSteady, AttemptsGrow, OutboxSteady, LeasesSteady, ProcsSteady;
    SameSteady(s);
  }

  lemma CloseSteady(s: Store, ev: NormalizedEvent, lease: EventLease, state: ProcessingState, ref: Option<string>,
          now: Instant)
    requires CloseEvent(s, ev, lease, state, ref, now).Success? && Closed(state)
    ensures Steady(None, s, CloseEvent(s, ev, lease, state, ref, now).value)
  {
    ClosedTables(s, CloseEvent(s, ev, lease, state, ref, now).value);
  }

  lemma ClaimEventGrows(s: Store, key: EventKey, processingKey: string, token: string, now: Instant, lease: int)
    requires ClaimProcessorEvent(s, key, processingKey, token, now, lease).Success?
    ensures Grows(s, ClaimProcessorEvent(s, key, processingKey, token, now, lease).value.0)
  {
    LeaseTables(s, ClaimProcessorEvent(s, key, processingKey, token, now, lease).value.0);
  }

  lemma ReceiveGrows(s: Store, e: ProcessorEvent)
    requires FreshWork(s, e.actionId)
    ensures Grows(s, InsertProcessorEvent(s, e))
  {
    LeaseTables(s, InsertProcessorEvent(s, e));
  }

  lemma CommitEventSteady(env: Environment, s: Store, ev: NormalizedEvent, lease: EventLease,
          state: Option<SubscriptionState>, hits: Hits, now: Instant, ids: Ids, txNow: Instant)
    requires ChargeInv(env, s, None) && CommitEvent(s, env.cfg, ev, lease, state, hits, now, ids, txNow).Success?
    ensures hide *; Steady(None, s, CommitEvent(s, env.cfg, ev, lease, state, hits, now, ids, txNow).value)
  {
    hide ChargeInv, ApplyObservation, CloseEvent, StripeSubject, Steady;
    SteadySame(s);
    if StillOwned(s, ev, lease) {
      var s' := CommitEvent(s, env.cfg, ev, lease, state, hits, now, ids, txNow).value;
      match ApplyObservation(s, env.cfg, ev, state, hits, now, ids, txNow) {
        case Success((s1, ref)) =>
          ObservationSteady(env, s, ev, state, hits, now, ids, txNow);
          CloseSteady(s1, ev, lease, Processed, ref, now);
          SteadyOn(None, s, s1, s');
        case Failure(e) =>
          if e == UnknownStripePrice && state.Some? {
            CloseSteady(s, ev, lease, Quarantined, StripeSubject(ev, state.value, hits), now);
          } else {
            CloseSteady(s, ev, lease, ProcessingState.ManualReview, None, now);
          }
      }
    }
  }

  // ---------- deliveries ----------

  lemma OutboundOnly(s: Store, s': Store)
    requires s' == s.(outbound := s'.outbound, audits := s'.audits) && s.audits <= s'.audits
             && OutboxGrows(s.outbound, s'.outbound)
    ensures Grows(s, s')
  {
    hide ActionsGrow, AttemptsGrow, OutboxGrows, LeasesGrow, ProcsGrow;
    SameGrow(s);
  }

  lemma OneOutbound(s: Store, s': Store, id: string, f: OutboundEvent)
    requires id in s.outbound && OutboundGrows(s.outbound[id], f) && (Fenced(s.outbound[id]) ==> Fenced(f))
    requires s' == s.(outbound := s.outbound[id := f], audits := s'.audits) && s.audits <= s'.audits
    ensures Grows(s, s')
  {
    hide OutboundGrows, Fenced;
    assert forall e :: OutboundGrows(e, e) by { OutboundStays(); }
    OutboundOnly(s, s');
  }

  lemma OutboundStays()
    ensures forall e :: OutboundGrows(e, e)
  {
  }

  lemma TakeGrows(s: Store, id: string, token: string, now: Instant, lease: int)
    requires id in s.outbound && OutboundDue(s.outbound[id], now)
    ensures Grows(s, s.(outbound := s.outbound[id := ClaimOutbound(s.outbound[id], token, now, lease)]))
  {
    OneOutbound(s, s.(outbound := s.outbound[id := ClaimOutbound(s.outbound[id], token, now, lease)]), id,
                ClaimOutbound(s.outbound[id], token, now, lease));
  }

  lemma CompleteGrows(s: Store, id: string, token: string, fence: int, now: Instant)
    requires CompleteOutbound(s, id, token, fence, now).Success?
    ensures Grows(s, CompleteOutbound(s, id, token, fence, now).value)
  {
    var s' := CompleteOutbound(s, id, token, fence, now).value;
    OneOutbound(s, s', id, s'.outbound[id]);
  }

  lemma RetryGrows(s: Store, id: string, token: string, fence: int, next: Instant, class_: string)
    requires RetryOutbound(s, id, token, fence, next, class_).Success?
    ensures Grows(s, RetryOutbound(s, id, token, fence, next, class_).value)
  {
    var s' := RetryOutbound(s, id, token, fence, next, class_).value;
    OneOutbound(s, s', id, s'.outbound[id]);
  }

  lemma DeadLetterGrows(s: Store, id: string, token: string, fence: int, now: Instant, class_: string)
    requires DeadLetterOutbound(s, id, token, fence, now, class_).Success?
    ensures Grows(s, DeadLetterOutbound(s, id, token, fence, now, class_).value)
  {
    var s' := DeadLetterOutbound(s, id, token, fence, now, class_).value;
    OneOutbound(s, s', id, s'.outbound[id]);
  }

  lemma ResponseGrows(s: Store, e: OutboundEvent, token: string, response: Notify.Response, now: Instant, next: Instant)
    requires Notify.RecordResponse(s, e, token, response, now, next).Success?
    ensures Grows(s, Notify.RecordResponse(s, e, token, response, now, next).value)
  {
    hide CompleteOutbound, RetryOutbound, DeadLetterOutbound, Grows;
    GrowsSame(s);
    var fence := e.claim.fence;
    if response.Code? && 200 <= response.code <= 299 {
      CompleteGrows(s, e.id, token, fence, now);
    } else if response.Code? && !Notify.Retried(response.code) && 400 <= response.code <= 499 {
      DeadLetterGrows(s, e.id, token, fence, now, Notify.StatusClass(response.code));
    } else {
      var class_ := if response.NetworkError? then "network" else Notify.StatusClass(response.code);
      if RetryOutbound(s, e.id, token, fence, next, class_).Success? {
        RetryGrows(s, e.id, token, fence, next, class_);
      }
    }
  }

  lemma AbandonGrows(s: Store, id: string, reason: string, actor: string, now: Instant)
    requires AbandonOutbound(s, id, reason, actor, now).Success?
    ensures Grows(s, AbandonOutbound(s, id, reason, actor, now).value)
  {
    var s' := AbandonOutbound(s, id, reason, actor, now).value;
    OneOutbound(s, s', id, s'.outbound[id]);
  }

  lemma RequeueGrows(s: Store, id: string, reason: string, actor: string, now: Instant)
    requires RequeueOutbound(s, id, reason, actor, now).Success?
    ensures Grows(s, RequeueOutbound(s, id, reason, actor, now).value)
  {
    var s' := RequeueOutbound(s, id, reason, actor, now).value;
    OneOutbound(s, s', id, s'.outbound[id]);
  }

  lemma ReplayGrows(s: Store, id: string, reason: string, actor: string, now: Instant)
    requires ReplayLatest(s, id, reason, actor, now).Success?
    ensures Grows(s, ReplayLatest(s, id, reason, actor, now).value)
  {
    hide RequeueOutbound, Grows;
    GrowsSame(s);
    if !s.outbound[id].state.Pending? {
      RequeueGrows(s, id, if reason == "" then "mock-replay" else reason, if actor == "" then "mock" else actor, now);
    }
  }
}
