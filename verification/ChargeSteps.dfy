/** Every transaction keeps the charge invariants. */
module ChargeSteps {
  import opened Wrappers
  import opened Calendar
  import opened Protocol
  import opened Model
  import opened Transition
  import opened Engine
  import opened Scheduler
  import opened System
  import opened Effects
  import opened ChargeSafety
  import opened ChargeBlocks
  import T = Timestamps

  // ---------- rows that enter the store ----------

  lemma ParseFormatted(t: Instant)
    requires ParseTime(T.FormatUTC(t)).Success?
    ensures ParseTime(T.FormatUTC(t)).value == t
  {
    hide T.FormatUTC, T.ParseUTC, T.FourDigitYear;
    var u := T.ParseUTC(T.FormatUTC(t)).value;
    T.CanonicalTimestamps(T.FormatUTC(t), u);
    T.FormatInjective(t, u);
  }

  /** A valid callback speaks of an ordered period and of a version that counts from 1. */
  lemma ValidatedPeriod(eventId: string, event: EventType, sub: Subscription)
    requires ValidateCallback(BuildCallback(eventId, event, sub)).Success?
    ensures sub.periodStart < sub.periodEnd && sub.version >= 1
    ensures ValidateEventStatus(event, sub.status, sub.cancelAtPeriodEnd).None?
  {
    hide T.FormatUTC, T.ParseUTC, ValidOpaqueId, ValidPlanId;
    ParseFormatted(sub.periodStart);
    ParseFormatted(sub.periodEnd);
  }

  lemma ActivationRow(co: Checkout, ref: string, status: Status, start: Instant, end: Instant, now: Instant,
          customer: Option<string>, psub: Option<string>, payment: Option<string>, shopper: Option<string>,
          method_: string, eventId: string)
    requires ValidateCallback(BuildCallback(eventId, Activated,
                                            WithPaymentMethod(FirstActivation(co, ref, status, start, end, now,
          customer, psub, payment, shopper), method_))).Success?
    ensures GoodRow(WithPaymentMethod(FirstActivation(co, ref, status, start, end, now, customer, psub, payment,
                                                      shopper), method_))
  {
    hide BuildCallback, ValidateCallback;
    ValidatedPeriod(eventId, Activated,
                    WithPaymentMethod(FirstActivation(co, ref, status, start, end, now, customer, psub, payment,
                                                      shopper), method_));
  }

  // ---------- single operations ----------

  lemma FinishKeeps(env: Environment, s: Store, id: string, token: string, fence: int, status: ActionStatus,
          due: Option<Instant>, class_: Option<string>, x: Option<string>)
    requires ChargeInv(env, s, x) && FinishAction(s, id, token, fence, status, due, class_).Success?
    requires Claimable(status) || x == Some(id) || s.actions[id].kind.Expire? || s.actions[id].ref !in s.subs
             || s.subs[s.actions[id].ref].status != Status.Active
    ensures ChargeInv(env, FinishAction(s, id, token, fence, status, due, class_).value, x)
  {
    hide GoodSubs, GoodAttempts, TruthfulAttempts, RefusedBefore, Numbered, Priced, WorkingAttempts, OnTarget, NotAhead,
         Renewing, Counted;
    ActionKeeps(env, s, FinishAction(s, id, token, fence, status, due, class_).value.actions[id], x);
  }

  lemma ForceFinishKeeps(env: Environment, s: Store, id: string, status: ActionStatus, due: Option<Instant>,
          class_: Option<string>, x: Option<string>)
    requires ChargeInv(env, s, x) && ForceFinishAction(s, id, status, due, class_).Success?
    requires Claimable(status) || x == Some(id) || s.actions[id].kind.Expire? || s.actions[id].ref !in s.subs
             || s.subs[s.actions[id].ref].status != Status.Active
    ensures ChargeInv(env, ForceFinishAction(s, id, status, due, class_).value, x)
  {
    hide GoodSubs, GoodAttempts, TruthfulAttempts, RefusedBefore, Numbered, Priced, WorkingAttempts, OnTarget, NotAhead,
         Renewing, Counted;
    if Claimable(s.actions[id].status) {
      ActionKeeps(env, s, ForceFinishAction(s, id, status, due, class_).value.actions[id], x);
    }
  }

  lemma ClaimKeeps(env: Environment, s: Store, id: string, token: string, now: Instant, lease: int)
    requires ChargeInv(env, s, None) && ClaimAction(s, id, token, now, lease).Success?
    ensures var s' := ClaimAction(s, id, token, now, lease).value.0;
            ChargeInv(env, s', None) && id in s.actions && s'.attempts == s.attempts && s'.subs == s.subs
            && s'.actions.Keys == s.actions.Keys
  {
    hide GoodSubs, GoodAttempts, TruthfulAttempts, RefusedBefore, Numbered, Priced, WorkingAttempts, OnTarget, NotAhead,
         Renewing, Counted, Blocked;
    ActionKeeps(env, s, ClaimAction(s, id, token, now, lease).value.1, None);
  }

  // ---------- expiry ----------

  lemma RunExpireKeeps(env: Environment, s: Store, id: string, token: string, now: Instant, ids: Ids, txNow: Instant)
    requires hide *; ChargeInv(env, s, None) && id in s.actions && s.actions[id].kind.Expire?
    requires RunExpire(s, id, token, env.cfg, now, ids, txNow).Success?
    ensures ChargeInv(env, RunExpire(s, id, token, env.cfg, now, ids, txNow).value, None)
  {
    hide ChargeInv, Observe, ClaimAction, FinishAction;
    var claimed := ClaimAction(s, id, token, now, Lease(env.cfg)).value;
    ClaimKeeps(env, s, id, token, now, Lease(env.cfg));
    ObserveKeeps(env, claimed.0, claimed.1.ref, Observed(Status.Expired), now, ids, txNow, None);
    var s2 := Observe(claimed.0, claimed.1.ref, Observed(Status.Expired), now, ids, txNow).value;
    assert id in s2.actions && s2.actions[id].kind.Expire? by {
      ClaimedKind(s, id, token, now, Lease(env.cfg));
      assert GoodSubs(claimed.0) by { Basics(env, claimed.0, None); }
      ObserveLeaves(claimed.0, claimed.1.ref, Observed(Status.Expired), now, ids, txNow);
    }
    FinishKeeps(env, s2, id, token, claimed.1.claim.fence, ActionStatus.Completed, None, None, None);
  }

  lemma ClaimedKind(s: Store, id: string, token: string, now: Instant, lease: int)
    requires ClaimAction(s, id, token, now, lease).Success?
    ensures var r := ClaimAction(s, id, token, now, lease).value;
            && id in s.actions && id in r.0.actions && r.0.actions[id] == r.1 && SameAction(s.actions[id], r.1)
            && r.1.status.Running? && r.1.claim.token == Some(token) && r.1.claim.fence == s.actions[id].claim.fence + 1
            && Claimable(s.actions[id].status)
  {
  }

  lemma ClaimedAttempts(s: Store, id: string, token: string, now: Instant, lease: int)
    requires ClaimAction(s, id, token, now, lease).Success?
    ensures ClaimAction(s, id, token, now, lease).value.0.attempts == s.attempts
  {
  }

  lemma Basics(env: Environment, s: Store, x: Option<string>)
    requires ChargeInv(env, s, x)
    ensures GoodSubs(s) && GoodActions(s) && GoodAttempts(s) && TruthfulAttempts(env, s) && NotAhead(s)
  {
  }

  // ---------- preparing and claiming a charge ----------

  lemma NextAttemptMayBePrepared(env: Environment, s: Store, id: string, number: AttemptNumber, attemptId: string,
          reference: string)
    requires ChargeInv(env, s, None) && id in s.actions && s.actions[id].kind.Renew? && Claimable(s.actions[id].status)
    requires NoneWith(s, id, IsOpen) && NextNumber(s, id, number)
    requires s.actions[id].ref in s.subs && s.subs[s.actions[id].ref].planId in env.cfg.plans
             && attemptId !in s.attempts
    ensures var sub := s.subs[s.actions[id].ref];
            MayPrepare(env, s,
                       NewAttempt(attemptId, reference, number, id, sub, env.cfg.plans[sub.planId], env.cfg.endpoint))
  {
    hide RefusedBefore, Numbered, WorkingAttempts, NotAhead, Renewing, Counted, Priced, GoodRow, AddCalendarMonths,
         TruthfulAttempts, NoneWith, NextNumber, GoodAttempts;
  }

  lemma EnsurePreparedKeeps(env: Environment, s: Store, id: string, choice: Choice, attemptId: string,
          reference: string)
    requires ChargeInv(env, s, None) && id in s.actions && s.actions[id].kind.Renew? && Claimable(s.actions[id].status)
    requires Chooses(s, id, choice) && EnsurePrepared(s, env.cfg, s.actions[id], choice, attemptId, reference).Success?
    ensures ChargeInv(env, EnsurePrepared(s, env.cfg, s.actions[id], choice, attemptId, reference).value.0, None)
  {
    hide ChargeInv, NewAttempt, NoneWith, NextNumber, FirstWith, MayPrepare;
    if choice.Anew? {
      var sub := s.subs[s.actions[id].ref];
      assert s.actions[id].id == id by { ActionIds(env, s, id); }
      var u := NewAttempt(attemptId, reference, choice.number, id, sub, env.cfg.plans[sub.planId], env.cfg.endpoint);
      assert u.id == attemptId by {
        PreparedUnder(attemptId, reference, choice.number, id, sub, env.cfg.plans[sub.planId], env.cfg.endpoint);
      }
      NextAttemptMayBePrepared(env, s, id, choice.number, attemptId, reference);
      PrepareKeeps(env, s, u);
    }
  }

  lemma PreparedUnder(id: string, reference: string, number: AttemptNumber, actionId: string, sub: Subscription,
          plan: Plan, endpoint: string)
    ensures NewAttempt(id, reference, number, actionId, sub, plan, endpoint).id == id
  {
  }

  lemma ActionIds(env: Environment, s: Store, id: string)
    requires ChargeInv(env, s, None) && id in s.actions
    ensures s.actions[id].id == id
  {
    hide GoodSubs, GoodAttempts, RefusedBefore, Numbered, WorkingAttempts, OnTarget, NotAhead, Renewing, Counted,
         Priced, TruthfulAttempts;
  }

  lemma ClaimChargeKeeps(env: Environment, s: Store, actionId: string, attemptId: string, token: string, now: Instant)
    requires ChargeInv(env, s, None) && attemptId in s.attempts && s.attempts[attemptId].actionId == actionId
    requires ClaimCharge(s, env.cfg, actionId, attemptId, token, now).Success?
    ensures ChargeInv(env, ClaimCharge(s, env.cfg, actionId, attemptId, token, now).value.0, None)
  {
    hide ChargeInv, ClaimAction;
    var claimed := ClaimAction(s, actionId, token, now, Lease(env.cfg)).value;
    ClaimKeeps(env, s, actionId, token, now, Lease(env.cfg));
    ClaimedKind(s, actionId, token, now, Lease(env.cfg));
    var r := ClaimCharge(s, env.cfg, actionId, attemptId, token, now).value;
    WorkingOn(env, s, attemptId);
    assert r.2.id == attemptId && r.0 == claimed.0.(attempts := claimed.0.attempts[attemptId := r.2]);
    assert AttemptMoves(env, claimed.0, r.2, None);
    AttemptKeeps(env, claimed.0, r.2, None);
  }

  /** What the invariants say about an attempt of a claimable action. */
  lemma WorkingOn(env: Environment, s: Store, id: string)
    requires ChargeInv(env, s, None) && id in s.attempts
    ensures var t := s.attempts[id];
            t.id == id && t.actionId in s.actions && Truthful(env, t)
            && (Claimable(s.actions[t.actionId].status) ==> Working(env.cfg, t))
  {
  }
}
