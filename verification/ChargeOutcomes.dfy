/** Settling a charge, by whoever learns its outcome, keeps the charge invariants. */
module ChargeOutcomes {
  import opened Wrappers
  import opened Calendar
  import opened Protocol
  import opened Model
  import opened Transition
  import opened Engine
  import opened Scheduler
  import opened System
  import opened Effects
  import opened ChargeSafety
  import opened ChargeBlocks
  import opened ChargeSteps

  // ---------- authorised ----------

  /** A payment for the month after the current period renews the subscription for exactly that month, unless it has
      expired in the meantime. */
  lemma PaidDecision(sub: Subscription, start: Instant, end: Instant, now: Instant)
    requires GoodRow(sub) && start == sub.periodEnd && ZERO_TIME < start < end
    ensures var r := Decide(sub, PaidPeriod(start, end), now);
            r.Success?
            && (if sub.status == Status.Expired then r.value.Noop? else
                  && r.value.Change? && r.value.event == Renewed && Advances(sub, Renewed, r.value.next, now)
                  && r.value.next.periodStart == start && r.value.next.periodEnd == end
                     && r.value.next.planId == sub.planId
                  && !r.value.next.chargingBlocked)
  {
    var r := Decide(sub, PaidPeriod(start, end), now);
    if sub.status != Status.Expired {
      PaidSuccess(sub, start, end, now);
      hide Decide, GoodRow, Advances;
      DecideAdvances(sub, PaidPeriod(start, end), now);
    }
  }

  lemma PaidSuccess(sub: Subscription, start: Instant, end: Instant, now: Instant)
    requires GoodRow(sub) && start == sub.periodEnd && ZERO_TIME < start < end && sub.status != Status.Expired
    ensures var r := Decide(sub, PaidPeriod(start, end), now);
            && r.Success? && r.value.Change? && r.value.event == Renewed
            && r.value.next.periodStart == start && r.value.next.periodEnd == end && r.value.next.planId == sub.planId
               && !r.value.next.chargingBlocked
  {
  }

  lemma AdvancesAt(sub: Subscription, event: EventType, next: Subscription, now: Instant)
    requires Advances(sub, event, next, now)
    ensures GoodRow(next) && next.stateChangedAt == now && next.ref == sub.ref && next.family == sub.family
            && next.status == StatusAfter(event) && next.shopperRef == sub.shopperRef
  {
    hide GoodRow;
  }

  /** Attempt `t` of action `x`, recorded as authorised, pays for the period after the current one. */
  ghost predicate Earned(env: Environment, s: Store, x: string, t: ChargeAttempt) {
    && t.id in s.attempts && s.attempts[t.id] == t && t.actionId == x && Authorises(env, t) && t.status.Authorized?
    && t.ref in s.subs && s.subs[t.ref].family == Adyen && s.subs[t.ref].periodEnd == t.periodStart
  }

  /** Action `x` may stop being exempt: its subscription is not active, or another renewal is waiting. */
  ghost predicate Relieved(s: Store, x: string, ref: string, newId: string) {
    && x in s.actions && s.actions[x].ref == ref && ref in s.subs && newId != x
    && (s.subs[ref].status != Status.Active || RenewalWaiting(s, ref, newId))
  }

  /** The stored row, or the same row without its charging block. */
  predicate Unblocked(row: Subscription, sub: Subscription) {
    sub == row || sub == row.(chargingBlocked := false, blockReason := None)
  }

  lemma UnblockedRow(row: Subscription, sub: Subscription)
    requires GoodRow(row) && Unblocked(row, sub)
    ensures GoodRow(sub) && sub.periodEnd == row.periodEnd && sub.planId == row.planId && sub.ref == row.ref
            && sub.family == row.family && sub.shopperRef == row.shopperRef
  {
  }

  /** The month that an attempt pays for lies after the zero time, and it is a month. */
  lemma EarnedMonth(env: Environment, s: Store, x: string, t: ChargeAttempt)
    requires ChargeInv(env, s, Some(x)) && Earned(env, s, x, t)
    ensures GoodRow(s.subs[t.ref]) && s.subs[t.ref].ref == t.ref && ZERO_TIME < t.periodStart < t.periodEnd
    ensures t.periodEnd == AddCalendarMonths(t.periodStart, 1)
  {
    hide WorkingAttempts, OnTarget, Renewing, Counted, TruthfulAttempts, RefusedBefore, Numbered, Priced, GoodActions,
         NotAhead, GoodRow, AddCalendarMonths;
    assert Belongs(t, s.actions[t.actionId]);
    OneMonth(t.periodStart);
  }

  lemma EarnedPays(env: Environment, s: Store, x: string, t: ChargeAttempt, sub: Subscription, now: Instant)
    requires ChargeInv(env, s, Some(x)) && Earned(env, s, x, t) && Unblocked(s.subs[t.ref], sub)
    ensures hide *; var r := Decide(sub, PaidPeriod(t.periodStart, t.periodEnd), now);
            && r.Success?
            && (if r.value.Noop? then sub.status == Status.Expired else r.value.event == Renewed && Pays(env, s, x, t,
                r.value.next))
  {
    hide Decide, ChargeInv, GoodRow, Advances, AddCalendarMonths, Unblocked;
    EarnedMonth(env, s, x, t);
    UnblockedRow(s.subs[t.ref], sub);
    PaidDecision(sub, t.periodStart, t.periodEnd, now);
    var r := Decide(sub, PaidPeriod(t.periodStart, t.periodEnd), now);
    if r.value.Change? {
      AdvancesAt(sub, Renewed, r.value.next, now);
    }
  }

  lemma PaidKeeps(env: Environment, s: Store, x: string, t: ChargeAttempt, sub: Subscription, now: Instant, ids: Ids,
          txNow: Instant)
    requires ChargeInv(env, s, Some(x)) && Earned(env, s, x, t) && Unblocked(s.subs[t.ref], sub)
             && ids.action !in s.actions
    requires var r := Decide(sub, PaidPeriod(t.periodStart, t.periodEnd), now);
             r.Success? && Commit(s, r.value, ids, txNow).Success?
    ensures hide *;
            var s' := Commit(s, Decide(sub, PaidPeriod(t.periodStart, t.periodEnd), now).value, ids, txNow).value;
            ChargeInv(env, s', Some(x)) && Relieved(s', x, t.ref, ids.action)
  {
    hide Decide, ChargeInv, Earned, CommitChange, RenewalCommitted, RenewalWaiting, Pays;
    var d := Decide(sub, PaidPeriod(t.periodStart, t.periodEnd), now).value;
    EarnedPays(env, s, x, t, sub, now);
    EarnedAction(env, s, x, t);
    if d.Change? {
      RenewKeeps(env, s, x, t, d.next, ids, txNow);
      var s' := CommitChange(s, false, d.next, Renewed, ids, txNow).value;
      assert d.next.ref == t.ref by { PaysFor(env, s, x, t, d.next); }
      RenewalTables(s, s', Renewed, d.next, ids.action);
      RenewalActions(s, s', Renewed, d.next, ids.action, x);
    }
  }

  lemma PaysFor(env: Environment, s: Store, x: string, t: ChargeAttempt, next: Subscription)
    requires Pays(env, s, x, t, next)
    ensures next.ref == t.ref
  {
  }

  lemma EarnedAction(env: Environment, s: Store, x: string, t: ChargeAttempt)
    requires ChargeInv(env, s, Some(x)) && Earned(env, s, x, t)
    ensures x in s.actions && s.actions[x].ref == t.ref && s.actions[x].kind.Renew? && t.ref in s.subs
  {
    hide GoodSubs, GoodActions, TruthfulAttempts, RefusedBefore, Numbered, Priced, WorkingAttempts, OnTarget, NotAhead,
         Renewing, Counted;
    assert Belongs(t, s.actions[t.actionId]);
  }

  lemma RelievedLift(env: Environment, s: Store, x: string, ref: string, newId: string)
    requires ChargeInv(env, s, Some(x)) && Relieved(s, x, ref, newId) && !Claimable(s.actions[x].status)
    ensures ChargeInv(env, s, None)
  {
    hide ChargeInv, RenewalWaiting;
    LiftExemption(env, s, x);
  }

  /** The attempt is recorded as authorised before anything else happens. */
  lemma EarnKeeps(env: Environment, s: Store, u: ChargeAttempt)
    requires ChargeInv(env, s, None) && u.id in s.attempts && SameAttempt(s.attempts[u.id], u)
             && !s.attempts[u.id].status.Authorized?
    requires u.status.Authorized? && u.claim.token.None? && Authorises(env, u)
    ensures var s1 := s.(attempts := s.attempts[u.id := u]);
            ChargeInv(env, s1, Some(u.actionId)) && Earned(env, s1, u.actionId, u)
  {
    hide ChargeInv, Truthful, Working;
    WorkingOn(env, s, u.id);
    assert Truthful(env, u) by { TruthfulPaid(env, u); }
    PaysForNextPeriod(env, s, None, u.id);
    Exempt(env, s, u.actionId);
    AttemptKeeps(env, s, u, Some(u.actionId));
  }

  lemma TruthfulPaid(env: Environment, u: ChargeAttempt)
    requires u.status.Authorized? && u.claim.token.None? && Authorises(env, u)
    ensures Truthful(env, u)
  {
  }

  /** Finishing an action leaves everything but that action alone. */
  lemma FinishEffect(s: Store, id: string, token: string, fence: int, status: ActionStatus, due: Option<Instant>,
          class_: Option<string>)
    requires FinishAction(s, id, token, fence, status, due, class_).Success?
    ensures var s' := FinishAction(s, id, token, fence, status, due, class_).value;
            && id in s.actions && s.actions[id].status.Running?
            && id in s'.actions && s' == s.(actions := s.actions[id := s'.actions[id]])
            && SameAction(s.actions[id], s'.actions[id]) && s'.actions[id].status == status
  {
  }

  lemma ForceFinishEffect(s: Store, id: string, status: ActionStatus, due: Option<Instant>, class_: Option<string>)
    requires ForceFinishAction(s, id, status, due, class_).Success?
    ensures var s' := ForceFinishAction(s, id, status, due, class_).value;
            && id in s.actions && id in s'.actions && s' == s.(actions := s.actions[id := s'.actions[id]])
            && SameAction(s.actions[id], s'.actions[id])
            && s'.actions[id].status == (if Claimable(s.actions[id].status) then status else s.actions[id].status)
  {
  }

  lemma RelievedStays(s: Store, s': Store, x: string, ref: string, newId: string)
    requires Relieved(s, x, ref, newId) && x in s'.actions && s' == s.(actions := s.actions[x := s'.actions[x]])
             && SameAction(s.actions[x], s'.actions[x])
    ensures Relieved(s', x, ref, newId)
  {
    hide Claimable;
  }

  lemma SettleAuthorised(env: Environment, s: Store, a: ScheduledAction, id: string, token: string, fence: int,
          paymentId: string, now: Instant, ids: Ids, txNow: Instant)
    requires hide *; ChargeInv(env, s, None) && id in s.attempts && s.attempts[id].claim.Owned(token, fence)
    requires a.id == s.attempts[id].actionId && a.ref == s.attempts[id].ref && Authorises(env, s.attempts[id])
             && ids.action !in s.actions
    requires SettleCharge(s, env.cfg, a, id, token, fence, Authorised(paymentId), now, ids, txNow).Success?
    ensures ChargeInv(env, SettleCharge(s, env.cfg, a, id, token, fence, Authorised(paymentId), now, ids, txNow).value,
                      None)
  {
    hide ChargeInv, Decide, Commit, FinishAction, Relieved, Earned;
    var cur := s.attempts[id];
    WorkingOn(env, s, id);
    var u := cur.(status := Authorized, paymentId := Some(paymentId), completedAt := Some(now),
                  claim := cur.claim.Release());
    var s1 := UpdateAttempt(s, u).value;
    EarnKeeps(env, s, u);
    EarnedAction(env, s1, a.id, u);
    assert Earned(env, s1, a.id, u);
    PaidKeeps(env, s1, a.id, u, s1.subs[a.ref], now, ids, txNow) by { EarnedRow(env, s1, a.id, u); }
    var s2 := Observe(s1, a.ref, PaidPeriod(u.periodStart, u.periodEnd), now, ids, txNow).value;
    FinishKeeps(env, s2, a.id, token, fence, ActionStatus.Completed, None, None, Some(a.id));
    FinishEffect(s2, a.id, token, fence, ActionStatus.Completed, None, None);
    var s3 := FinishAction(s2, a.id, token, fence, ActionStatus.Completed, None, None).value;
    RelievedStays(s2, s3, a.id, a.ref, ids.action);
    RelievedLift(env, s3, a.id, a.ref, ids.action);
  }

  lemma EarnedRow(env: Environment, s: Store, x: string, t: ChargeAttempt)
    requires ChargeInv(env, s, Some(x)) && Earned(env, s, x, t)
    ensures t.ref in s.subs && Unblocked(s.subs[t.ref], s.subs[t.ref])
  {
  }

  // ---------- unclear ----------

  lemma SettleUnclear(env: Environment, s: Store, a: ScheduledAction, id: string, token: string, fence: int,
          now: Instant, ids: Ids, txNow: Instant)
    requires hide *; ChargeInv(env, s, None) && id in s.attempts && s.attempts[id].claim.Owned(token, fence)
    requires a.id == s.attempts[id].actionId
    requires SettleCharge(s, env.cfg, a, id, token, fence, Unclear, now, ids, txNow).Success?
    ensures ChargeInv(env, SettleCharge(s, env.cfg, a, id, token, fence, Unclear, now, ids, txNow).value, None)
  {
    hide ChargeInv, FinishAction, RecheckAt;
    var cur := s.attempts[id];
    WorkingOn(env, s, id);
    var u := cur.(status := AttemptStatus.Uncertain, claim := cur.claim.Release());
    assert AttemptMoves(env, s, u, None);
    AttemptKeeps(env, s, u, None);
    FinishKeeps(env, UpdateAttempt(s, u).value, a.id, token, fence, ActionStatus.Uncertain, Some(RecheckAt(cur, now)),
                Some("uncertain"), None);
  }
}
