/** Every transaction balances the books. */
module BookSteps {
  import opened Wrappers
  import opened Calendar
  import opened Protocol
  import opened Model
  import opened Transition
  import opened Engine
  import opened Scheduler
  import opened System
  import opened Effects
  import opened Bindings
  import opened Books
  import opened ChargeSafety
  import opened ChargeBlocks
  import opened ChargeSteps
  import opened ChargeOutcomes
  import opened ChargeRefusals
  import opened ChargeEvents
  import Notify

  // ---------- committing ----------

  /** A decision that may be committed for a stored row. */
  ghost predicate Sound(sub: Subscription, d: Decision) {
    d.Change? ==> Advances(sub, d.event, d.next, d.next.stateChangedAt) && Tiles(sub, d.event, d.next)
  }

  /** An attempt that was earned backs the renewal it pays for. */
  lemma EarnedBacks(env: Environment, s: Store, x: string, t: ChargeAttempt, sub: Subscription, now: Instant)
    requires ChargeInv(env, s, Some(x)) && Earned(env, s, x, t) && Unblocked(s.subs[t.ref], sub)
    ensures hide *; var r := Decide(sub, PaidPeriod(t.periodStart, t.periodEnd), now);
            r.Success? && (r.value.Change? ==> Backed(s.attempts, r.value.next))
  {
    hide Decide, ChargeInv, GoodRow, AddCalendarMonths, Unblocked, Advances;
    EarnedMonth(env, s, x, t);
    UnblockedRow(s.subs[t.ref], sub);
    PaidDecision(sub, t.periodStart, t.periodEnd, now);
    var r := Decide(sub, PaidPeriod(t.periodStart, t.periodEnd), now);
    if r.value.Change? {
      AdvancesAt(sub, Renewed, r.value.next, now);
      assert Books.Pays(s.attempts, t.id, r.value.next);
    }
  }

  lemma CommitTables(s: Store, created: bool, next: Subscription, event: EventType, ids: Ids, now: Instant)
    requires CommitChange(s, created, next, event, ids, now).Success?
    ensures var s' := CommitChange(s, created, next, event, ids, now).value;
            && OneEvent(s.outbound, s'.outbound, ids.event, event, next) && s'.subs == s.subs[next.ref := next]
               && s'.checkouts == s.checkouts
            && s'.attempts == s.attempts
    ensures if created then next.ref !in s.subs && (forall r :: r in s.subs ==> s.subs[r].checkoutId != next.checkoutId)
            else next.ref in s.subs
  {
    hide FollowUp, BuildCallback, ValidateCallback, Followed, Spared, CommitChange;
    CommitEffect(s, created, next, event, ids, now);
  }

  lemma SameTables(s: Store)
    ensures CheckoutsKept(s.checkouts, s.checkouts, None) && RowsKept(s.subs, s.subs, None)
            && EventsKept(s.outbound, s.outbound)
  {
  }

  lemma OneRowWritten(s: Store, next: Subscription)
    ensures OneRow(s.subs, s.subs[next.ref := next], next)
  {
  }

  lemma CommitBooks(s: Store, sub: Subscription, d: Decision, ids: Ids, txNow: Instant)
    requires hide *;
             sub.ref in s.subs && Unblocked(s.subs[sub.ref], sub) && Sound(sub, d) && Commit(s, d, ids, txNow).Success?
    requires d.Change? && d.event == Renewed && d.next.family == Adyen ==> Backed(s.attempts, d.next)
    ensures Balanced(s, Commit(s, d, ids, txNow).value)
  {
    hide CommitChange, OneEvent, OneRow, GoodRow, CheckoutsKept;
    SameTables(s);
    match d
    case Noop => SilentSame(s, s);
    case Change(event, next, _, _, _, _) =>
      CommitTables(s, false, next, event, ids, txNow);
      OneRowWritten(s, next);
      assert Booked(s, CommitChange(s, false, next, event, ids, txNow).value, Event(ids.event, event, next));
  }

  lemma QuietSound(sub: Subscription, obs: Observation, now: Instant)
    requires GoodRow(sub) && QuietObservation(obs) && Decide(sub, obs, now).Success?
    ensures Sound(sub, Decide(sub, obs, now).value)
    ensures Decide(sub, obs, now).value.Change? ==> Decide(sub, obs, now).value.event != Renewed
  {
    hide GoodRow, Advances, Decide;
    if Decide(sub, obs, now).value.Change? {
      DecideAdvances(sub, obs, now);
      QuietDecision(sub, obs, now);
      AdvancesAt(sub, Decide(sub, obs, now).value.event, Decide(sub, obs, now).value.next, now);
    }
  }

  lemma PaidSound(env: Environment, s: Store, x: string, t: ChargeAttempt, sub: Subscription, now: Instant)
    requires ChargeInv(env, s, Some(x)) && Earned(env, s, x, t) && Unblocked(s.subs[t.ref], sub)
    ensures hide *; var r := Decide(sub, PaidPeriod(t.periodStart, t.periodEnd), now); r.Success? && Sound(sub, r.value)
  {
    hide Decide, ChargeInv, GoodRow, AddCalendarMonths, Unblocked, Advances;
    EarnedMonth(env, s, x, t);
    UnblockedRow(s.subs[t.ref], sub);
    PaidDecision(sub, t.periodStart, t.periodEnd, now);
    var r := Decide(sub, PaidPeriod(t.periodStart, t.periodEnd), now);
    if r.value.Change? {
      AdvancesAt(sub, Renewed, r.value.next, now);
    }
  }

  lemma ObserveBooks(s: Store, ref: string, obs: Observation, now: Instant, ids: Ids, txNow: Instant)
    requires GoodSubs(s) && QuietObservation(obs) && Observe(s, ref, obs, now, ids, txNow).Success?
    ensures hide *; Balanced(s, Observe(s, ref, obs, now, ids, txNow).value)
  {
    hide GoodRow, Decide, Commit, QuietObservation, Sound;
    QuietSound(s.subs[ref], obs, now);
    CommitBooks(s, s.subs[ref], Decide(s.subs[ref], obs, now).value, ids, txNow);
  }

  /** An observation in the middle of work on actions and attempts. */
  lemma ObserveBetween(s: Store, s1: Store, ref: string, obs: Observation, now: Instant, ids: Ids, txNow: Instant,
          s3: Store)
    requires hide *; GoodSubs(s) && QuietObservation(obs) && SameBooks(s, s1)
    requires Observe(s1, ref, obs, now, ids, txNow).Success?
             && SameBooks(Observe(s1, ref, obs, now, ids, txNow).value, s3)
    requires s3.attempts == Observe(s1, ref, obs, now, ids, txNow).value.attempts
    ensures Balanced(s, s3)
  {
    hide Observe, QuietObservation, GoodRow;
    ObserveBooks(s1, ref, obs, now, ids, txNow);
    BalancedFrame(s, s1, Observe(s1, ref, obs, now, ids, txNow).value, s3);
  }

  // ---------- the scheduler ----------

  lemma FinishBooks(s: Store, id: string, token: string, fence: int, status: ActionStatus, due: Option<Instant>,
          class_: Option<string>)
    requires FinishAction(s, id, token, fence, status, due, class_).Success?
    ensures SameBooks(s, FinishAction(s, id, token, fence, status, due, class_).value)
            && FinishAction(s, id, token, fence, status, due, class_).value.attempts == s.attempts
  {
  }

  lemma ForceFinishBooks(s: Store, id: string, status: ActionStatus, due: Option<Instant>, class_: Option<string>)
    requires ForceFinishAction(s, id, status, due, class_).Success?
    ensures SameBooks(s, ForceFinishAction(s, id, status, due, class_).value)
            && ForceFinishAction(s, id, status, due, class_).value.attempts == s.attempts
  {
  }

  lemma EnsureBooks(s: Store, a: ScheduledAction)
    ensures SameBooks(s, EnsureAction(s, a)) && EnsureAction(s, a).attempts == s.attempts
  {
  }

  lemma ClaimBooks(s: Store, id: string, token: string, now: Instant, lease: int)
    requires ClaimAction(s, id, token, now, lease).Success?
    ensures SameBooks(s, ClaimAction(s, id, token, now, lease).value.0)
  {
  }

  lemma RunExpireBooks(s: Store, id: string, token: string, cfg: Config, now: Instant, ids: Ids, txNow: Instant)
    requires GoodSubs(s) && RunExpire(s, id, token, cfg, now, ids, txNow).Success?
    ensures hide *; Balanced(s, RunExpire(s, id, token, cfg, now, ids, txNow).value)
  {
    hide ClaimAction, Observe, FinishAction, GoodSubs, Balanced;
    var claimed := ClaimAction(s, id, token, now, Lease(cfg)).value;
    ClaimBooks(s, id, token, now, Lease(cfg));
    var s2 := Observe(claimed.0, claimed.1.ref, Observed(Status.Expired), now, ids, txNow).value;
    FinishBooks(s2, id, token, claimed.1.claim.fence, ActionStatus.Completed, None, None);
    ObserveBetween(s, claimed.0, claimed.1.ref, Observed(Status.Expired), now, ids, txNow,
                   RunExpire(s, id, token, cfg, now, ids, txNow).value);
  }

  lemma SettleAuthorisedBooks(env: Environment, s: Store, a: ScheduledAction, id: string, token: string, fence: int,
          paymentId: string, now: Instant, ids: Ids, txNow: Instant)
    requires hide *; ChargeInv(env, s, None) && id in s.attempts && s.attempts[id].claim.Owned(token, fence)
    requires a.id == s.attempts[id].actionId && a.ref == s.attempts[id].ref && Authorises(env, s.attempts[id])
    requires SettleCharge(s, env.cfg, a, id, token, fence, Authorised(paymentId), now, ids, txNow).Success?
    ensures Balanced(s, SettleCharge(s, env.cfg, a, id, token, fence, Authorised(paymentId), now, ids, txNow).value)
  {
    hide ChargeInv, Decide, Commit, FinishAction, Earned, Sound, Balanced;
    var cur := s.attempts[id];
    WorkingOn(env, s, id);
    var u := cur.(status := Authorized, paymentId := Some(paymentId), completedAt := Some(now),
                  claim := cur.claim.Release());
    var s1 := UpdateAttempt(s, u).value;
    EarnKeeps(env, s, u);
    var row := s1.subs[a.ref];
    EarnedRow(env, s1, a.id, u);
    PaidSound(env, s1, a.id, u, row, now);
    EarnedBacks(env, s1, a.id, u, row, now);
    assert row.ref == a.ref by { Basics(env, s, None); }
    var d := Decide(row, PaidPeriod(u.periodStart, u.periodEnd), now).value;
    CommitBooks(s1, row, d, ids, txNow);
    var s2 := Commit(s1, d, ids, txNow).value;
    FinishBooks(s2, a.id, token, fence, ActionStatus.Completed, None, None);
    BalancedFrame(s, s1, s2, FinishAction(s2, a.id, token, fence, ActionStatus.Completed, None, None).value);
  }

  lemma SettleUnclearBooks(s: Store, cfg: Config, a: ScheduledAction, id: string, token: string, fence: int,
          now: Instant, ids: Ids, txNow: Instant)
    requires hide *; id in s.attempts && s.attempts[id].claim.Owned(token, fence)
    requires SettleCharge(s, cfg, a, id, token, fence, Unclear, now, ids, txNow).Success?
    ensures SameBooks(s, SettleCharge(s, cfg, a, id, token, fence, Unclear, now, ids, txNow).value)
  {
  }

  lemma SettleDeclinedBooks(s: Store, cfg: Config, a: ScheduledAction, id: string, token: string, fence: int,
          paymentId: string, code: string, now: Instant, ids: Ids, txNow: Instant)
    requires hide *; GoodSubs(s) && id in s.attempts && s.attempts[id].claim.Owned(token, fence)
    requires SettleCharge(s, cfg, a, id, token, fence, Reply.Declined(paymentId, code), now, ids, txNow).Success?
    ensures Balanced(s,
                     SettleCharge(s, cfg, a, id, token, fence, Reply.Declined(paymentId, code), now, ids, txNow).value)
  {
    hide Observe, FinishAction, EnsureAction, GoodSubs, IsRetryableRefusal, Balanced;
    var cur := s.attempts[id];
    var s1 := UpdateAttempt(s, DeclinedAttempt(cur, paymentId, code, now)).value;
    var s2 := Observe(s1, a.ref, Observed(Status.PastDue), now, ids, txNow).value;
    if LastRefusal(cfg, cur.number, IsRetryableRefusal(code)) {
      FinishBooks(s2, a.id, token, fence, ActionStatus.Completed, None, Some("refused"));
      EnsureBooks(FinishAction(s2, a.id, token, fence, ActionStatus.Completed, None, Some("refused")).value,
                  NewAction(ids.dunning, a.ref, Expire, now + cfg.dunningTermination));
    } else {
      FinishBooks(s2, a.id, token, fence, ActionStatus.Pending, Some(now + cfg.retryDelays[cur.number - 1]),
                  Some("refused"));
    }
    ObserveBetween(s, s1, a.ref, Observed(Status.PastDue), now, ids, txNow,
                   SettleCharge(s, cfg, a, id, token, fence, Reply.Declined(paymentId, code), now, ids, txNow).value);
  }

  lemma SettleBooks(env: Environment, s: Store, a: ScheduledAction, id: string, token: string, fence: int, reply: Reply,
                    now: Instant, ids: Ids, txNow: Instant)
    requires hide *; ChargeInv(env, s, None)
    requires id in s.attempts ==> a.id == s.attempts[id].actionId && a.ref == s.attempts[id].ref
                                  && TruthfulReply(env, s.attempts[id].request.idempotencyKey, reply)
    requires SettleCharge(s, env.cfg, a, id, token, fence, reply, now, ids, txNow).Success?
    ensures Balanced(s, SettleCharge(s, env.cfg, a, id, token, fence, reply, now, ids, txNow).value)
  {
    hide ChargeInv, SettleCharge, GoodSubs, GoodActions, GoodAttempts, TruthfulAttempts, NotAhead, Balanced;
    Basics(env, s, None);
    SettledAttempt(s, env.cfg, a, id, token, fence, reply, now, ids, txNow);
    if s.attempts[id].claim.Owned(token, fence) {
      match reply
      case Unclear =>
        SettleUnclearBooks(s, env.cfg, a, id, token, fence, now, ids, txNow);
        SilentSame(s, SettleCharge(s, env.cfg, a, id, token, fence, Unclear, now, ids, txNow).value);
      case Authorised(paymentId) => SettleAuthorisedBooks(env, s, a, id, token, fence, paymentId, now, ids, txNow);
      case Declined(paymentId, code) =>
        SettleDeclinedBooks(s, env.cfg, a, id, token, fence, paymentId, code, now, ids, txNow);
    } else {
      SilentSame(s, s);
    }
  }

  lemma BlockBooks(s: Store, s0: Store, sub: Subscription, reason: string, now: Instant, ids: Ids, txNow: Instant)
    requires hide *; SameBooks(s0, s) && GoodSubs(s) && sub.ref in s.subs && s.subs[sub.ref] == sub
             && BlockAutomaticCharging(s, sub, reason, now, ids, txNow).Success?
    ensures Balanced(s0, BlockAutomaticCharging(s, sub, reason, now, ids, txNow).value)
  {
    hide Decide, Commit, GoodRow, Sound, Balanced;
    var d := if sub.status != Status.PastDue then Decide(sub, Observed(Status.PastDue), now).value else Noop;
    if sub.status != Status.PastDue { QuietSound(sub, Observed(Status.PastDue), now); }
    else { assert Sound(sub, d) by { NoopSound(sub); } }
    CommitBooks(s, sub, d, ids, txNow);
    var s1 := Commit(s, d, ids, txNow).value;
    BalancedFrame(s0, s, s1, s1);
    var row := if d.Change? then d.next else sub;
    assert row.ref in s1.subs && s1.subs[row.ref] == row by { CommittedRow(s, d, sub, ids, txNow); }
    BalancedRow(s0, s1, row.(chargingBlocked := true, blockReason := Some(reason)));
  }

  lemma NoopSound(sub: Subscription)
    ensures Sound(sub, Noop)
  {
  }

  lemma CommittedRow(s: Store, d: Decision, sub: Subscription, ids: Ids, txNow: Instant)
    requires sub.ref in s.subs && s.subs[sub.ref] == sub && Commit(s, d, ids, txNow).Success?
    ensures var s1, row := Commit(s, d, ids, txNow).value, if d.Change? then d.next else sub;
            row.ref in s1.subs && s1.subs[row.ref] == row
  {
    hide CommitChange, OneEvent;
    if d.Change? {
      CommitTables(s, false, d.next, d.event, ids, txNow);
    }
  }

  lemma GiveUpBooks(s: Store, a: ScheduledAction, id: string, now: Instant, ids: Ids, txNow: Instant)
    requires GoodSubs(s) && GiveUp(s, a, id, now, ids, txNow).Success?
    ensures hide *; Balanced(s, GiveUp(s, a, id, now, ids, txNow).value)
  {
    hide BlockAutomaticCharging, ForceFinishAction, GoodRow, Balanced;
    var t := s.attempts[id];
    var s1 := UpdateAttempt(s, t.(status := AttemptStatus.ManualReview, claim := t.claim.Release())).value;
    ForceFinishBooks(s1, a.id, ActionStatus.ManualReview, None, Some("resolution_deadline"));
    var s2 := ForceFinishAction(s1, a.id, ActionStatus.ManualReview, None, Some("resolution_deadline")).value;
    BlockBooks(s2, s, s2.subs[a.ref], "resolution_deadline", now, ids, txNow);
  }

  // ---------- outcomes learned from outside ----------

  lemma RecordAuthorisedBooks(env: Environment, s: Store, t: ChargeAttempt, unblock: bool, now: Instant, ids: Ids,
          txNow: Instant)
    requires hide *; ChargeInv(env, s, None) && t.id in s.attempts && SameAttempt(s.attempts[t.id], t)
             && !s.attempts[t.id].status.Authorized?
    requires t.claim.token.None? && Authorises(env, t)
    requires RecordAuthorised(s, t, unblock, now, ids, txNow).Success?
    ensures Balanced(s, RecordAuthorised(s, t, unblock, now, ids, txNow).value)
  {
    hide ChargeInv, Decide, Commit, ForceFinishAction, Earned, Sound, Balanced;
    var u := t.(status := Authorized);
    var s1 := UpdateAttempt(s, u).value;
    RecordedEarned(env, s, u);
    ForceFinishBooks(s1, t.actionId, ActionStatus.Completed, None, None);
    var s2 := ForceFinishAction(s1, t.actionId, ActionStatus.Completed, None, None).value;
    var row := s2.subs[t.ref];
    EarnedRow(env, s2, t.actionId, u);
    assert row.ref == t.ref by { Basics(env, s2, Some(t.actionId)); }
    var sub := if unblock then row.(chargingBlocked := false, blockReason := None) else row;
    PaidSound(env, s2, t.actionId, u, sub, now);
    EarnedBacks(env, s2, t.actionId, u, sub, now);
    var d := Decide(sub, PaidPeriod(t.periodStart, t.periodEnd), now).value;
    if d.Noop? {
      SilentSame(s, s2);
      BalancedRow(s, s2, sub);
    } else {
      CommitBooks(s2, sub, d, ids, txNow);
      BalancedFrame(s, s2, Commit(s2, d, ids, txNow).value, Commit(s2, d, ids, txNow).value);
    }
  }

  lemma RescheduleBooks(s: Store, cfg: Config, t: ChargeAttempt, ref: string, now: Instant, dunningId: string)
    requires RescheduleOrExpire(s, cfg, t, ref, now, dunningId).Success?
    ensures SameBooks(s, RescheduleOrExpire(s, cfg, t, ref, now, dunningId).value)
            && RescheduleOrExpire(s, cfg, t, ref, now, dunningId).value.attempts == s.attempts
  {
    hide RetryableCode, ForceFinishAction, EnsureAction;
    if LastRefusal(cfg, t.number, RetryableCode(t.refusalCode)) {
      ForceFinishBooks(s, t.actionId, ActionStatus.Completed, None, Some("refused"));
      EnsureBooks(ForceFinishAction(s, t.actionId, ActionStatus.Completed, None, Some("refused")).value,
                  NewAction(dunningId, ref, Expire, now + cfg.dunningTermination));
    } else {
      ForceFinishBooks(s, t.actionId, ActionStatus.Pending, Some(now + cfg.retryDelays[t.number - 1]), Some("refused"));
    }
  }

  lemma RecordRefusedBooks(s: Store, cfg: Config, t: ChargeAttempt, now: Instant, ids: Ids, txNow: Instant)
    requires GoodSubs(s) && RecordRefused(s, cfg, t, now, ids, txNow).Success?
    ensures hide *; Balanced(s, RecordRefused(s, cfg, t, now, ids, txNow).value)
  {
    hide Observe, RescheduleOrExpire, GoodSubs, Balanced;
    var s1 := UpdateAttempt(s, t.(status := Refused)).value;
    var s2 := Observe(s1, t.ref, Observed(Status.PastDue), now, ids, txNow).value;
    RescheduleBooks(s2, cfg, t, t.ref, now, ids.dunning);
    ObserveBetween(s, s1, t.ref, Observed(Status.PastDue), now, ids, txNow,
                   RecordRefused(s, cfg, t, now, ids, txNow).value);
  }

  lemma GivenUpBooks(s: Store, t: ChargeAttempt, now: Instant, ids: Ids, txNow: Instant)
    requires hide *; GoodSubs(s)
    requires var s1 := s.(attempts := s.attempts[t.id := t]);
             && ForceFinishAction(s1, t.actionId, ActionStatus.Canceled, None, Some("operator")).Success?
             && Observe(ForceFinishAction(s1, t.actionId, ActionStatus.Canceled, None, Some("operator")).value, t.ref,
                        IMMEDIATE_EXPIRY, now, ids, txNow).Success?
    ensures var s1 := s.(attempts := s.attempts[t.id := t]);
            Balanced(s,
                     Observe(ForceFinishAction(s1, t.actionId, ActionStatus.Canceled, None, Some("operator")).value,
                             t.ref, IMMEDIATE_EXPIRY, now, ids, txNow).value)
  {
    hide Observe, ForceFinishAction, GoodSubs, Balanced;
    var s1 := s.(attempts := s.attempts[t.id := t]);
    ForceFinishBooks(s1, t.actionId, ActionStatus.Canceled, None, Some("operator"));
    var s2 := ForceFinishAction(s1, t.actionId, ActionStatus.Canceled, None, Some("operator")).value;
    ObserveBetween(s, s2, t.ref, IMMEDIATE_EXPIRY, now, ids, txNow,
                   Observe(s2, t.ref, IMMEDIATE_EXPIRY, now, ids, txNow).value);
  }

  lemma ResolveBooks(env: Environment, s: Store, id: string, outcome: Resolution, reason: string, actor: string,
          paymentId: string, now: Instant, ids: Ids, txNow: Instant)
    requires hide *; ChargeInv(env, s, None)
    requires id in s.attempts ==> TruthfulResolution(env, s.attempts[id].request.idempotencyKey, outcome)
    requires ResolveAttempt(s, env.cfg, id, outcome, reason, actor, paymentId, now, ids, txNow).Success?
    ensures Balanced(s, ResolveAttempt(s, env.cfg, id, outcome, reason, actor, paymentId, now, ids, txNow).value)
  {
    hide ChargeInv, Observe, ForceFinishAction, RecordAuthorised, RecordRefused, GoodSubs, Balanced, GoodActions,
         GoodAttempts, TruthfulAttempts, NotAhead;
    var t0 := s.attempts[id];
    WorkingOn(env, s, id);
    var s1 := InsertAudit(s,
                          Audit("resolve-attempt", id, if actor == "" then "cli" else actor,
                                if reason == "" then "operator" else reason));
    AuditKeeps(env, s, s1);
    Basics(env, s1, None);
    var t := t0.(claim := t0.claim.Release(), completedAt := Some(now),
                 paymentId := if paymentId != "" then Some(paymentId) else t0.paymentId);
    match outcome {
      case Paid => RecordAuthorisedBooks(env, s1, t, true, now, ids, txNow);
      case Declined => RecordRefusedBooks(s1, env.cfg, t, now, ids, txNow);
      case GivenUp => GivenUpBooks(s1, t.(status := AttemptStatus.Canceled), now, ids, txNow);
      case Unknown =>
    }
    var s' := ResolveAttempt(s, env.cfg, id, outcome, reason, actor, paymentId, now, ids, txNow).value;
    BalancedFrame(s, s1, s', s');
  }

  // ---------- checkouts and webhooks ----------

  lemma CreateBooks(s: Store, co: Checkout, sub: Subscription, ids: Ids, txNow: Instant)
    requires hide *;
             co.id in s.checkouts && s.checkouts[co.id] == co && CreateSubscription(s, co, sub, ids, txNow).Success?
    requires GoodRow(sub) && sub.version == 1 && sub.checkoutId == co.id && sub.family == co.family
    requires sub.family == Adyen ==>
               sub.status == Status.Active && sub.periodEnd == AddCalendarMonths(sub.periodStart, 1)
    ensures Balanced(s, CreateSubscription(s, co, sub, ids, txNow).value)
  {
    hide CommitChange, OneEvent, OneRow, GoodRow, AddCalendarMonths;
    var s1 := CommitChange(s, true, sub, Activated, ids, txNow).value;
    CommitTables(s, true, sub, Activated, ids, txNow);
    OneRowWritten(s, sub);
    var s' := CreateSubscription(s, co, sub, ids, txNow).value;
    assert Creates(s.subs, s.checkouts, s'.checkouts, Activated, sub);
    assert Booked(s, s', Event(ids.event, Activated, sub));
  }

  lemma ActivateCheckoutBooks(s: Store, id: string, now: Instant, ids: Ids, txNow: Instant)
    requires Bound(s) && ActivateCheckout(s, id, now, ids, txNow).Success?
    ensures hide *; Balanced(s, ActivateCheckout(s, id, now, ids, txNow).value)
  {
    hide GoodRow, CommitChange, AddCalendarMonths, Balanced, Names, Carries;
    var co := s.checkouts[id];
    if co.subscriptionRef.None? {
      CreatedRow(s, co, Status.Active, now, AddCalendarMonths(now, 1), now, None, None, None, co.shopperRef, "", ids,
                 txNow);
      CreateBooks(s, co,
                  FirstActivation(co, ids.subscription, Status.Active, now, AddCalendarMonths(now, 1), now, None, None,
                                  None, co.shopperRef), ids, txNow);
    } else {
      SilentSame(s, s);
    }
  }

  lemma ReplaceBooks(s: Store, ref: string, ev: NormalizedEvent)
    requires GoodSubs(s) && ReplacePaymentMethod(s, ref, ev).Success?
    ensures Balanced(s, ReplacePaymentMethod(s, ref, ev).value.0)
  {
    hide Balanced, GoodRow;
    SilentSame(s, s);
    if ev.paymentMethod != "" && s.subs[ref].status != Status.Expired {
      var sub := WithPaymentMethod(s.subs[ref], ev.paymentMethod).(chargingBlocked := false, blockReason := None);
      BalancedRow(s, s, sub);
      BalancedFrame(s, s, UpdateSubscription(s, sub).value, ReplacePaymentMethod(s, ref, ev).value.0);
    }
  }

  lemma AdyenInitialBooks(s: Store, ev: NormalizedEvent, now: Instant, ids: Ids, txNow: Instant)
    requires GoodSubs(s) && Bound(s) && ApplyAdyenInitial(s, ev, now, ids, txNow).Success?
    ensures hide *; Balanced(s, ApplyAdyenInitial(s, ev, now, ids, txNow).value.0)
  {
    hide GoodSubs, CreateSubscription, CommitChange, AddCalendarMonths, ReplacePaymentMethod, Balanced, Names, Carries,
         GoodRow;
    if ev.success && ev.checkoutId != "" {
      var co := s.checkouts[ev.checkoutId];
      if co.status.Completed? && co.subscriptionRef.Some? {
        ReplaceBooks(s, co.subscriptionRef.value, ev);
      } else {
        var sub := WithPaymentMethod(FirstActivation(co, ids.subscription, Status.Active, now,
                                                     AddCalendarMonths(now, 1), now, None, None,
                                                     NonEmpty(ev.paymentId), co.shopperRef), ev.paymentMethod);
        CreatedCommits(s, co, sub, ids, txNow);
        CreatedRow(s, co, Status.Active, now, AddCalendarMonths(now, 1), now, None, None, NonEmpty(ev.paymentId),
                   co.shopperRef, ev.paymentMethod, ids, txNow);
        CreateBooks(s, co, sub, ids, txNow);
      }
    } else {
      SilentSame(s, s);
    }
  }

  lemma StripeSound(sub: Subscription, obs: Observation, now: Instant)
    requires GoodRow(sub) && sub.family == Stripe && Decide(sub, obs, now).Success?
    ensures Sound(sub, Decide(sub, obs, now).value)
    ensures Decide(sub, obs, now).value.Change? ==> Decide(sub, obs, now).value.next.family == Stripe
  {
    hide GoodRow, Decide, Advances;
    if Decide(sub, obs, now).value.Change? {
      DecideAdvances(sub, obs, now);
      AdvancesAt(sub, Decide(sub, obs, now).value.event, Decide(sub, obs, now).value.next, now);
    }
  }

  lemma StripeCreateBooks(s: Store, co: Checkout, st: SubscriptionState, now: Instant, ids: Ids, txNow: Instant)
    requires hide *; co.id in s.checkouts && s.checkouts[co.id] == co && co.family == Stripe
    requires var sub := FirstActivation(co, ids.subscription, st.status, st.periodStart, st.periodEnd, now,
                                        NonEmpty(st.customerId), NonEmpty(st.subId), None, None);
             CreateSubscription(s, co, sub, ids, txNow).Success?
    ensures var sub := FirstActivation(co, ids.subscription, st.status, st.periodStart, st.periodEnd, now,
                                       NonEmpty(st.customerId), NonEmpty(st.subId), None, None);
            Balanced(s, CreateSubscription(s, co, sub, ids, txNow).value)
  {
    hide GoodRow, CreateSubscription, CommitChange, Balanced;
    var sub := FirstActivation(co, ids.subscription, st.status, st.periodStart, st.periodEnd, now,
                               NonEmpty(st.customerId), NonEmpty(st.subId), None, None);
    CreatedCommits(s, co, sub, ids, txNow);
    CreatedRow(s, co, st.status, st.periodStart, st.periodEnd, now, NonEmpty(st.customerId), NonEmpty(st.subId), None,
               None, "", ids, txNow);
    CreateBooks(s, co, sub, ids, txNow);
  }

  lemma StripeBooks(s: Store, cfg: Config, ev: NormalizedEvent, state: Option<SubscriptionState>, hits: Hits,
          now: Instant, ids: Ids, txNow: Instant)
    requires GoodSubs(s) && Bound(s) && OwnCheckout(s, ev) && HitsAgree(s, ev, state, hits)
             && (ev.kind.StripeCheckout? || ev.kind.StripeSubscription?)
    requires ApplyStripe(s, cfg, ev, state, hits, now, ids, txNow).Success?
    ensures hide *; Balanced(s, ApplyStripe(s, cfg, ev, state, hits, now, ids, txNow).value.0)
  {
    hide Decide, Commit, CreateSubscription, StripeSubject, StripeObservation, HitsAgree, FirstActivation, GoodRow,
         Sound, Balanced, Names, Carries;
    SilentSame(s, s);
    if state.Some? {
      var subject := StripeSubject(ev, state.value, hits);
      if subject.Some? {
        StripeSubjectFamily(s, ev, state.value, hits);
        var sub := s.subs[subject.value];
        var obs := StripeObservation(cfg, sub, state.value).value;
        StripeSound(sub, obs, now);
        CommitBooks(s, sub, Decide(sub, obs, now).value, ids, txNow);
      } else if ev.checkoutId in s.checkouts && (state.value.status.Active? || state.value.status.Trialing?)
           && ev.checkoutId != "" {
        StripeCreateBooks(s, s.checkouts[ev.checkoutId], state.value, now, ids, txNow);
      }
    }
  }

  lemma AdyenRenewalBooks(env: Environment, s: Store, ev: NormalizedEvent, hits: Hits, now: Instant, ids: Ids,
          txNow: Instant)
    requires ChargeInv(env, s, None) && TruthfulEvent(env, ev) && ev.kind.AdyenRenewal?
    requires Finds(s.attempts, HasReference(ev.attemptReference), hits.byReference)
    requires ApplyAdyenRenewal(s, env.cfg, ev, hits, now, ids, txNow).Success?
    ensures hide *; Balanced(s, ApplyAdyenRenewal(s, env.cfg, ev, hits, now, ids, txNow).value.0)
  {
    hide ChargeInv, RecordAuthorised, RecordRefused, GoodSubs, GoodActions, GoodAttempts, TruthfulAttempts, NotAhead,
         TruthfulEvent, HasReference, Balanced;
    var t0 := s.attempts[hits.byReference.value];
    Basics(env, s, None);
    ReferredVerdict(env, s, ev, hits);
    SilentSame(s, s);
    if !(t0.status.Refused? || t0.status.Canceled? || t0.status.ManualReview? || t0.status.Authorized?) {
      var t := t0.(claim := t0.claim.Release(), completedAt := Some(now),
                   paymentId := if ev.paymentId != "" then Some(ev.paymentId) else t0.paymentId);
      if ev.success {
        RecordAuthorisedBooks(env, s, t, false, now, ids, txNow);
      } else {
        RecordRefusedBooks(s, env.cfg,
                           t.(refusalCode := if ev.refusalCode != "" then Some(ev.refusalCode) else t0.refusalCode),
                               now, ids, txNow);
      }
    }
  }

  lemma ObservationBooks(env: Environment, s: Store, ev: NormalizedEvent, state: Option<SubscriptionState>, hits: Hits,
          now: Instant, ids: Ids, txNow: Instant)
    requires ChargeInv(env, s, None) && Bound(s) && OwnCheckout(s, ev) && HitsAgree(s, ev, state, hits)
             && TruthfulEvent(env, ev)
    requires ApplyObservation(s, env.cfg, ev, state, hits, now, ids, txNow).Success?
    ensures hide *; Balanced(s, ApplyObservation(s, env.cfg, ev, state, hits, now, ids, txNow).value.0)
  {
    hide ChargeInv, Bound, OwnCheckout, TruthfulEvent, ApplyStripe, ApplyAdyenInitial, ApplyAdyenRenewal,
         HasProcessorSub, HasCheckout, HasReference, HasInitialPayment, HasPayment, Finds, Observe, Balanced, GoodSubs,
         GoodActions, GoodAttempts, TruthfulAttempts, NotAhead;
    Basics(env, s, None);
    match ev.kind
    case StripeCheckout => StripeBooks(s, env.cfg, ev, state, hits, now, ids, txNow);
    case StripeSubscription => StripeBooks(s, env.cfg, ev, state, hits, now, ids, txNow);
    case AdyenInitial => AdyenInitialBooks(s, ev, now, ids, txNow);
    case AdyenRenewal => AdyenRenewalBooks(env, s, ev, hits, now, ids, txNow);
    case AdyenContract => ObserveBooks(s, ContractSubject(s, hits).value, CANCELLATION, now, ids, txNow);
    case AdyenOperational => SilentSame(s, s);
  }

  lemma CommitEventBooks(env: Environment, s: Store, ev: NormalizedEvent, lease: EventLease,
          state: Option<SubscriptionState>, hits: Hits, now: Instant, ids: Ids, txNow: Instant)
    requires ChargeInv(env, s, None) && Bound(s) && OwnCheckout(s, ev) && HitsAgree(s, ev, state, hits)
             && TruthfulEvent(env, ev)
    requires CommitEvent(s, env.cfg, ev, lease, state, hits, now, ids, txNow).Success?
    ensures hide *; Balanced(s, CommitEvent(s, env.cfg, ev, lease, state, hits, now, ids, txNow).value)
  {
    hide ChargeInv, Bound, OwnCheckout, TruthfulEvent, HitsAgree, ApplyObservation, CloseEvent, StripeSubject, Balanced;
    SilentSame(s, s);
    if StillOwned(s, ev, lease) {
      var s' := CommitEvent(s, env.cfg, ev, lease, state, hits, now, ids, txNow).value;
      match ApplyObservation(s, env.cfg, ev, state, hits, now, ids, txNow) {
        case Success((s1, ref)) =>
          ObservationBooks(env, s, ev, state, hits, now, ids, txNow);
          CloseSame(s1, ev, lease, Processed, ref, now);
          BalancedFrame(s, s, s1, s');
        case Failure(e) =>
          if e == UnknownStripePrice && state.Some? {
            CloseSame(s, ev, lease, Quarantined, StripeSubject(ev, state.value, hits), now);
          } else {
            CloseSame(s, ev, lease, ProcessingState.ManualReview, None, now);
          }
          SilentSame(s, s');
      }
    }
  }

  // ---------- checkouts and deliveries ----------

  lemma CheckoutBooks(s: Store, s': Store)
    requires s' == s.(checkouts := s'.checkouts) && CheckoutsKept(s.checkouts, s'.checkouts, None)
    ensures Balanced(s, s')
  {
    hide CheckoutsKept;
    SameTables(s);
    assert Booked(s, s', Nothing);
  }

  lemma DeliveryBooks(s: Store, s': Store)
    requires s'.subs == s.subs && s'.checkouts == s.checkouts && EventsKept(s.outbound, s'.outbound)
             && s'.outbound.Keys == s.outbound.Keys
    ensures Balanced(s, s')
  {
    hide EventsKept;
    SameTables(s);
    assert Booked(s, s', Nothing);
  }

  lemma StartBooks(s: Store, c: Checkout)
    requires StartCheckout(s, c).Success?
    ensures Balanced(s, StartCheckout(s, c).value)
  {
    hide SameCheckout, Balanced;
    StartKeeps(s, c);
    CheckoutBooks(s, StartCheckout(s, c).value);
  }

  lemma StartKeeps(s: Store, c: Checkout)
    requires StartCheckout(s, c).Success?
    ensures var s' := StartCheckout(s, c).value;
            s' == s.(checkouts := s'.checkouts) && CheckoutsKept(s.checkouts, s'.checkouts, None)
  {
  }

  lemma AcceptedBooks(s: Store, id: string, processorCheckoutId: string, expiresAt: Instant)
    requires Bound(s) && CheckoutAccepted(s, id, processorCheckoutId, expiresAt).Success?
    ensures Balanced(s, CheckoutAccepted(s, id, processorCheckoutId, expiresAt).value)
  {
    hide Names, Carries;
    CheckoutBooks(s, CheckoutAccepted(s, id, processorCheckoutId, expiresAt).value);
  }

  lemma SweepBooks(s: Store, now: Instant)
    ensures Balanced(s, ExpireDueCheckouts(s, now))
  {
    CheckoutBooks(s, ExpireDueCheckouts(s, now));
  }

  lemma CompleteBooks(s: Store, id: string, token: string, fence: int, now: Instant)
    requires CompleteOutbound(s, id, token, fence, now).Success?
    ensures Balanced(s, CompleteOutbound(s, id, token, fence, now).value)
  {
    DeliveryBooks(s, CompleteOutbound(s, id, token, fence, now).value);
  }

  lemma RetryBooks(s: Store, id: string, token: string, fence: int, next: Instant, class_: string)
    requires RetryOutbound(s, id, token, fence, next, class_).Success?
    ensures Balanced(s, RetryOutbound(s, id, token, fence, next, class_).value)
  {
    DeliveryBooks(s, RetryOutbound(s, id, token, fence, next, class_).value);
  }

  lemma DeadLetterBooks(s: Store, id: string, token: string, fence: int, now: Instant, class_: string)
    requires DeadLetterOutbound(s, id, token, fence, now, class_).Success?
    ensures Balanced(s, DeadLetterOutbound(s, id, token, fence, now, class_).value)
  {
    DeliveryBooks(s, DeadLetterOutbound(s, id, token, fence, now, class_).value);
  }

  lemma ResponseBooks(s: Store, e: OutboundEvent, token: string, response: Notify.Response, now: Instant, next: Instant)
    requires Notify.RecordResponse(s, e, token, response, now, next).Success?
    ensures Balanced(s, Notify.RecordResponse(s, e, token, response, now, next).value)
  {
    hide CompleteOutbound, RetryOutbound, DeadLetterOutbound, Balanced;
    SilentSame(s, s);
    var fence := e.claim.fence;
    if response.Code? && 200 <= response.code <= 299 {
      CompleteBooks(s, e.id, token, fence, now);
    } else if response.Code? && !Notify.Retried(response.code) && 400 <= response.code <= 499 {
      DeadLetterBooks(s, e.id, token, fence, now, Notify.StatusClass(response.code));
    } else {
      var class_ := if response.NetworkError? then "network" else Notify.StatusClass(response.code);
      if RetryOutbound(s, e.id, token, fence, next, class_).Success? {
        RetryBooks(s, e.id, token, fence, next, class_);
      }
    }
  }

  lemma TakeBooks(s: Store, id: string, token: string, now: Instant, lease: int)
    requires id in s.outbound
    ensures Balanced(s, s.(outbound := s.outbound[id := ClaimOutbound(s.outbound[id], token, now, lease)]))
  {
    DeliveryBooks(s, s.(outbound := s.outbound[id := ClaimOutbound(s.outbound[id], token, now, lease)]));
  }

  lemma AbandonBooks(s: Store, id: string, reason: string, actor: string, now: Instant)
    requires AbandonOutbound(s, id, reason, actor, now).Success?
    ensures Balanced(s, AbandonOutbound(s, id, reason, actor, now).value)
  {
    DeliveryBooks(s, AbandonOutbound(s, id, reason, actor, now).value);
  }

  lemma RequeueBooks(s: Store, id: string, reason: string, actor: string, now: Instant)
    requires RequeueOutbound(s, id, reason, actor, now).Success?
    ensures Balanced(s, RequeueOutbound(s, id, reason, actor, now).value)
  {
    DeliveryBooks(s, RequeueOutbound(s, id, reason, actor, now).value);
  }

  lemma ReplayBooks(s: Store, id: string, reason: string, actor: string, now: Instant)
    requires ReplayLatest(s, id, reason, actor, now).Success?
    ensures Balanced(s, ReplayLatest(s, id, reason, actor, now).value)
  {
    hide RequeueOutbound, Balanced;
    SilentSame(s, s);
    if !s.outbound[id].state.Pending? {
      RequeueBooks(s, id, if reason == "" then "mock-replay" else reason, if actor == "" then "mock" else actor, now);
    }
  }
}
