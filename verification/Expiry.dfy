/**
 * What becomes of a pending expiry: it stays until it has ended its subscription, or until the subscription is renewed
 * or canceled for another period end. So a subscription keeps its expiry for as long as it stays as it is.
 */
module Expiry {
  import opened Wrappers
  import opened Calendar
  import opened Protocol
  import opened Model
  import opened Transition
  import opened Engine
  import opened Scheduler
  import opened System
  import opened Effects
  import opened Books
  import opened ChargeSafety
  import opened ChargeSteps
  import opened ChargeOutcomes
  import opened BookSteps
  import opened ChargeRefusals
  import opened ChargeEvents
  import opened StepSafety
  import opened Runs
  import opened Guarantees
  import opened Promises

  /** Expiry `id` of subscription `ref` is pending. */
  ghost predicate Ending(s: Store, ref: string, id: string) {
    ref in s.subs && ExpiryWaits(s, ref, id)
  }

  /** Why a pending expiry may be canceled: an Adyen subscription was renewed, or a subscription was canceled for
      another end. */
  predicate Withdraws(before: Subscription, after: Subscription, target: Instant) {
    && after.version > before.version
    && ((after.family == Adyen && after.status == Status.Active)
        || (after.status == Status.Canceled && after.periodEnd != target))
  }

  /** What becomes of a pending expiry: nothing, or it is withdrawn, or it has ended the subscription. */
  predicate Fate(a: ScheduledAction, b: ScheduledAction, before: Subscription, after: Subscription) {
    || b == a
    || (b.status.Canceled? && Withdraws(before, after, a.target))
    || ((b.status.Canceled? || b.status.Completed?) && after.status == Status.Expired)
  }

  ghost predicate Spares(s: Store, s': Store, ref: string, id: string)
    requires ref in s.subs && id in s.actions
  {
    && ref in s'.subs && s.subs[ref].version <= s'.subs[ref].version
    && (s'.subs[ref].version == s.subs[ref].version ==> s'.subs[ref].status == s.subs[ref].status)
    && id in s'.actions && Fate(s.actions[id], s'.actions[id], s.subs[ref], s'.subs[ref])
  }

  predicate SameWork(s: Store, s': Store) {
    s'.subs == s.subs && s'.actions == s.actions
  }

  // ---------- building blocks ----------

  lemma ChangeSpares(s: Store, created: bool, next: Subscription, event: EventType, ids: Ids, now: Instant, ref: string,
          id: string)
    requires Ending(s, ref, id) && CommitChange(s, created, next, event, ids, now).Success?
    requires next.ref == ref && !created ==> next.version > s.subs[ref].version && next.status == StatusAfter(event)
    ensures Spares(s, CommitChange(s, created, next, event, ids, now).value, ref, id)
  {
    hide CommitChange, FollowUp, BuildCallback, ValidateCallback, NewEvent, Added;
    CommitEffect(s, created, next, event, ids, now);
  }

  lemma DecisionSpares(s: Store, sub: Subscription, obs: Observation, at: Instant, ids: Ids, now: Instant, ref: string,
          id: string)
    requires Ending(s, ref, id) && sub.ref in s.subs && sub.version == s.subs[sub.ref].version && GoodRow(sub)
    requires Decide(sub, obs, at).Success? && Commit(s, Decide(sub, obs, at).value, ids, now).Success?
    ensures var d := Decide(sub, obs, at).value; Spares(s, Commit(s, d, ids, now).value, ref, id)
  {
    hide CommitChange, GoodRow, Decide;
    var d := Decide(sub, obs, at).value;
    if d.Change? {
      DecideAdvances(sub, obs, at);
      VersionRises(sub, d.event, d.next, at);
      ChangeSpares(s, false, d.next, d.event, ids, now, ref, id);
    }
  }

  lemma VersionRises(sub: Subscription, event: EventType, next: Subscription, at: Instant)
    requires Advances(sub, event, next, at)
    ensures next.version == sub.version + 1 && next.ref == sub.ref && next.status == StatusAfter(event)
  {
    hide GoodRow;
  }

  lemma ObserveSpares(s: Store, r: string, obs: Observation, now: Instant, ids: Ids, txNow: Instant, ref: string,
          id: string)
    requires Ending(s, ref, id) && GoodSubs(s) && Observe(s, r, obs, now, ids, txNow).Success?
    ensures Spares(s, Observe(s, r, obs, now, ids, txNow).value, ref, id)
  {
    hide Commit, GoodRow, Decide, Spares;
    DecisionSpares(s, s.subs[r], obs, now, ids, txNow, ref, id);
  }

  /** Work on attempts comes before, work on running or new actions after. */
  lemma SparesBefore(s: Store, s1: Store, s2: Store, ref: string, id: string)
    requires Ending(s, ref, id) && SameWork(s, s1) && Spares(s1, s2, ref, id)
    ensures Spares(s, s2, ref, id)
  {
  }

  lemma SparesAfter(s: Store, s1: Store, s2: Store, ref: string, id: string)
    requires Ending(s, ref, id) && Spares(s, s1, ref, id) && SameWork(s1, s2)
    ensures Spares(s, s2, ref, id)
  {
  }

  lemma FinishSpares(s: Store, s1: Store, ref: string, id: string, x: string, token: string, fence: int,
          status: ActionStatus, due: Option<Instant>, class_: Option<string>)
    requires Ending(s, ref, id) && Spares(s, s1, ref, id)
             && FinishAction(s1, x, token, fence, status, due, class_).Success?
    ensures Spares(s, FinishAction(s1, x, token, fence, status, due, class_).value, ref, id)
  {
  }

  lemma ForceFinishSpares(s: Store, s1: Store, ref: string, id: string, x: string, status: ActionStatus,
          due: Option<Instant>, class_: Option<string>)
    requires Ending(s, ref, id) && Spares(s, s1, ref, id) && ForceFinishAction(s1, x, status, due, class_).Success?
             && x != id
    ensures Spares(s, ForceFinishAction(s1, x, status, due, class_).value, ref, id)
  {
    hide Claimable;
  }

  lemma EnsureSpares(s: Store, s1: Store, ref: string, id: string, a: ScheduledAction)
    requires Ending(s, ref, id) && Spares(s, s1, ref, id)
    ensures Spares(s, EnsureAction(s1, a), ref, id)
  {
    hide EnsureAction, NoSuchKey;
    EnsureEffect(s1, a);
  }

  /** The action of an attempt is a renewal, never an expiry. */
  lemma OtherAction(env: Environment, s: Store, t: string, ref: string, id: string)
    requires ChargeInv(env, s, None) && Ending(s, ref, id) && t in s.attempts
    ensures s.attempts[t].actionId != id
  {
    hide GoodSubs, GoodActions, TruthfulAttempts, RefusedBefore, Numbered, Priced, WorkingAttempts, OnTarget, NotAhead,
         Renewing, Counted;
    assert Belongs(s.attempts[t], s.actions[s.attempts[t].actionId]);
  }

  // ---------- the scheduler ----------

  /** Running the expiry itself moves the subscription on. */
  lemma RunExpireSpares(s: Store, x: string, token: string, cfg: Config, now: Instant, ids: Ids, txNow: Instant,
          ref: string, id: string)
    requires Ending(s, ref, id) && GoodSubs(s) && RunExpire(s, x, token, cfg, now, ids, txNow).Success?
    ensures Spares(s, RunExpire(s, x, token, cfg, now, ids, txNow).value, ref, id)
  {
    hide GoodRow, ClaimAction, Observe, FinishAction;
    var claimed := ClaimAction(s, x, token, now, Lease(cfg)).value;
    ClaimedKind(s, x, token, now, Lease(cfg));
    ClaimedRest(s, x, token, now, Lease(cfg));
    var s2 := Observe(claimed.0, claimed.1.ref, Observed(Status.Expired), now, ids, txNow).value;
    var s' := RunExpire(s, x, token, cfg, now, ids, txNow).value;
    FinishEffect(s2, x, token, claimed.1.claim.fence, ActionStatus.Completed, None, None);
    if x == id {
      ExpiryMovesOn(claimed.0, ref, now, ids, txNow);
    } else {
      ObserveSpares(claimed.0, claimed.1.ref, Observed(Status.Expired), now, ids, txNow, ref, id);
    }
  }

  lemma ClaimedRest(s: Store, x: string, token: string, now: Instant, lease: int)
    requires ClaimAction(s, x, token, now, lease).Success?
    ensures var s' := ClaimAction(s, x, token, now, lease).value.0;
            s'.subs == s.subs && s'.actions.Keys == s.actions.Keys && forall id :: id in s.actions && id != x ==>
              s'.actions[id] == s.actions[id]
  {
    hide Blocked;
  }

  lemma ExpiryMovesOn(s: Store, ref: string, now: Instant, ids: Ids, txNow: Instant)
    requires ref in s.subs && GoodSubs(s) && Observe(s, ref, Observed(Status.Expired), now, ids, txNow).Success?
    ensures var s' := Observe(s, ref, Observed(Status.Expired), now, ids, txNow).value;
            && ref in s'.subs && s'.subs[ref].status == Status.Expired
            && (s'.subs[ref] == s.subs[ref] || s'.subs[ref].version > s.subs[ref].version)
  {
    hide CommitChange, FollowUp, BuildCallback, ValidateCallback, NewEvent, Added, OneEvent;
    var d := Decide(s.subs[ref], Observed(Status.Expired), now).value;
    if d.Change? {
      CommitTables(s, false, d.next, d.event, ids, txNow);
    }
  }

  lemma PreparedSpares(env: Environment, s: Store, a: string, choice: Choice, attemptId: string, reference: string,
          ref: string, id: string)
    requires Ending(s, ref, id) && a in s.actions
             && EnsurePrepared(s, env.cfg, s.actions[a], choice, attemptId, reference).Success?
    ensures Spares(s, EnsurePrepared(s, env.cfg, s.actions[a], choice, attemptId, reference).value.0, ref, id)
  {
    hide NewAttempt, ResolvePlan;
  }

  lemma ClaimChargeSpares(env: Environment, s: Store, x: string, t: string, token: string, now: Instant, ref: string,
          id: string)
    requires ChargeInv(env, s, None) && Ending(s, ref, id) && t in s.attempts && s.attempts[t].actionId == x
    requires ClaimCharge(s, env.cfg, x, t, token, now).Success?
    ensures Spares(s, ClaimCharge(s, env.cfg, x, t, token, now).value.0, ref, id)
  {
    hide ChargeInv, ClaimAction;
    OtherAction(env, s, t, ref, id);
    ClaimedRest(s, x, token, now, Lease(env.cfg));
  }

  lemma BlockSpares(s: Store, s1: Store, sub: Subscription, reason: string, now: Instant, ids: Ids, txNow: Instant,
          ref: string, id: string)
    requires Ending(s, ref, id) && s1.subs == s.subs && id in s1.actions && s1.actions[id] == s.actions[id]
             && GoodSubs(s1)
    requires sub.ref in s1.subs && s1.subs[sub.ref] == sub
             && BlockAutomaticCharging(s1, sub, reason, now, ids, txNow).Success?
    ensures Spares(s, BlockAutomaticCharging(s1, sub, reason, now, ids, txNow).value, ref, id)
  {
    hide Decide, Commit, GoodRow;
    var d := if sub.status != Status.PastDue then Decide(sub, Observed(Status.PastDue), now).value else Noop;
    if sub.status != Status.PastDue {
      DecisionSpares(s1, sub, Observed(Status.PastDue), now, ids, txNow, ref, id);
    }
    CommitNoop(s1, d, ids, txNow);
    assert d.Change? || d == Noop;
    CommittedRow(s1, d, sub, ids, txNow);
  }

  lemma GiveUpSpares(env: Environment, s: Store, a: ScheduledAction, t: string, now: Instant, ids: Ids, txNow: Instant,
          ref: string, id: string)
    requires ChargeInv(env, s, None) && Ending(s, ref, id) && t in s.attempts && s.attempts[t].actionId == a.id
             && GiveUp(s, a, t, now, ids, txNow).Success?
    ensures hide *; Spares(s, GiveUp(s, a, t, now, ids, txNow).value, ref, id)
  {
    hide ChargeInv, BlockAutomaticCharging, ForceFinishAction, GoodRow, GoodActions, GoodAttempts, TruthfulAttempts,
         NotAhead, Claimable, Spares;
    OtherAction(env, s, t, ref, id);
    var att := s.attempts[t];
    var s1 := UpdateAttempt(s, att.(status := AttemptStatus.ManualReview, claim := att.claim.Release())).value;
    ForceFinishEffect(s1, a.id, ActionStatus.ManualReview, None, Some("resolution_deadline"));
    var s2 := ForceFinishAction(s1, a.id, ActionStatus.ManualReview, None, Some("resolution_deadline")).value;
    Basics(env, s, None);
    assert GoodSubs(s2);
    BlockSpares(s, s2, s2.subs[a.ref], "resolution_deadline", now, ids, txNow, ref, id);
  }

  lemma SettleSpares(env: Environment, s: Store, a: ScheduledAction, t: string, token: string, fence: int, reply: Reply,
        now: Instant, ids: Ids, txNow: Instant, ref: string, id: string)
    requires ChargeInv(env, s, None) && Ending(s, ref, id)
             && SettleCharge(s, env.cfg, a, t, token, fence, reply, now, ids, txNow).Success?
    ensures hide ChargeInv, SettleCharge;
            Spares(s, SettleCharge(s, env.cfg, a, t, token, fence, reply, now, ids, txNow).value, ref, id)
  {
    hide ChargeInv, Observe, FinishAction, EnsureAction, IsRetryableRefusal, GoodSubs, GoodActions, GoodAttempts,
         TruthfulAttempts, NotAhead, Spares;
    Basics(env, s, None);
    SparesItself(s, ref, id);
    var cur := s.attempts[t];
    if cur.claim.Owned(token, fence) {
      match reply
      case Unclear =>
        var s1 := UpdateAttempt(s, cur.(status := AttemptStatus.Uncertain, claim := cur.claim.Release())).value;
        SparesAfter(s, s, s1, ref, id);
        FinishSpares(s, s1, ref, id, a.id, token, fence, ActionStatus.Uncertain, Some(RecheckAt(cur, now)),
                     Some("uncertain"));
      case Authorised(paymentId) =>
        var u := cur.(status := Authorized, paymentId := Some(paymentId), completedAt := Some(now),
                      claim := cur.claim.Release());
        var s1 := UpdateAttempt(s, u).value;
        SettledObservation(s, s1, a.ref, PaidPeriod(cur.periodStart, cur.periodEnd), now, ids, txNow, ref, id);
        FinishSpares(s, Observe(s1, a.ref, PaidPeriod(cur.periodStart, cur.periodEnd), now, ids, txNow).value, ref, id,
                     a.id, token, fence,
                     ActionStatus.Completed, None, None);
      case Declined(paymentId, code) =>
        var s1 := UpdateAttempt(s, DeclinedAttempt(cur, paymentId, code, now)).value;
        SettledObservation(s, s1, a.ref, Observed(Status.PastDue), now, ids, txNow, ref, id);
        DeclinedSpares(env.cfg, s, s1, a, cur.number, code, token, fence, now, ids, txNow, ref, id);
    }
  }

  lemma SparesItself(s: Store, ref: string, id: string)
    requires Ending(s, ref, id)
    ensures Spares(s, s, ref, id)
  {
  }

  lemma SettledObservation(s: Store, s1: Store, r: string, obs: Observation, now: Instant, ids: Ids, txNow: Instant,
          ref: string, id: string)
    requires Ending(s, ref, id) && GoodSubs(s) && SameWork(s, s1) && Observe(s1, r, obs, now, ids, txNow).Success?
    ensures Spares(s, Observe(s1, r, obs, now, ids, txNow).value, ref, id)
  {
    hide Observe, GoodRow;
    ObserveSpares(s1, r, obs, now, ids, txNow, ref, id);
    SparesBefore(s, s1, Observe(s1, r, obs, now, ids, txNow).value, ref, id);
  }

  lemma DeclinedSpares(cfg: Config, s: Store, s1: Store, a: ScheduledAction, number: AttemptNumber, code: string,
          token: string, fence: int, now: Instant, ids: Ids, txNow: Instant, ref: string, id: string)
    requires Ending(s, ref, id) && Observe(s1, a.ref, Observed(Status.PastDue), now, ids, txNow).Success?
    requires Spares(s, Observe(s1, a.ref, Observed(Status.PastDue), now, ids, txNow).value, ref, id)
    ensures hide *; var s2, last := Observe(s1, a.ref, Observed(Status.PastDue), now, ids, txNow).value,
            LastRefusal(cfg, number, IsRetryableRefusal(code));
            var r := FinishAction(s2, a.id, token, fence, if last then ActionStatus.Completed else ActionStatus.Pending,
                                  if last then None else Some(now + cfg.retryDelays[number - 1]), Some("refused"));
            r.Success? ==>
              Spares(s,
                     if last
                       then EnsureAction(r.value, NewAction(ids.dunning, a.ref, Expire, now + cfg.dunningTermination))
                       else r.value, ref, id)
  {
    hide Observe, FinishAction, EnsureAction, IsRetryableRefusal, Spares;
    var s2, last := Observe(s1, a.ref, Observed(Status.PastDue), now, ids, txNow).value,
        LastRefusal(cfg, number, IsRetryableRefusal(code));
    var status := if last then ActionStatus.Completed else ActionStatus.Pending;
    var due := if last then None else Some(now + cfg.retryDelays[number - 1]);
    var r := FinishAction(s2, a.id, token, fence, status, due, Some("refused"));
    if r.Success? {
      FinishSpares(s, s2, ref, id, a.id, token, fence, status, due, Some("refused"));
      EnsureSpares(s, r.value, ref, id, NewAction(ids.dunning, a.ref, Expire, now + cfg.dunningTermination));
    }
  }

  // ---------- outcomes learned from outside ----------

  lemma RecordAuthorisedSpares(s: Store, t: ChargeAttempt, unblock: bool, now: Instant, ids: Ids, txNow: Instant,
          ref: string, id: string)
    requires Ending(s, ref, id) && GoodSubs(s) && t.actionId != id
             && RecordAuthorised(s, t, unblock, now, ids, txNow).Success?
    ensures Spares(s, RecordAuthorised(s, t, unblock, now, ids, txNow).value, ref, id)
  {
    hide Decide, Commit, ForceFinishAction, GoodRow;
    var s1 := UpdateAttempt(s, t.(status := Authorized)).value;
    ForceFinishEffect(s1, t.actionId, ActionStatus.Completed, None, None);
    var s2 := ForceFinishAction(s1, t.actionId, ActionStatus.Completed, None, None).value;
    var row := s2.subs[t.ref];
    var sub := if unblock then row.(chargingBlocked := false, blockReason := None) else row;
    assert GoodRow(sub) by { UnblockedRow(row, sub); }
    var d := Decide(sub, PaidPeriod(t.periodStart, t.periodEnd), now).value;
    CommitNoop(s2, d, ids, txNow);
    DecisionSpares(s2, sub, PaidPeriod(t.periodStart, t.periodEnd), now, ids, txNow, ref, id);
  }

  lemma RecordRefusedSpares(s: Store, cfg: Config, t: ChargeAttempt, now: Instant, ids: Ids, txNow: Instant,
          ref: string, id: string)
    requires Ending(s, ref, id) && GoodSubs(s) && t.actionId != id && RecordRefused(s, cfg, t, now, ids, txNow).Success?
    ensures Spares(s, RecordRefused(s, cfg, t, now, ids, txNow).value, ref, id)
  {
    hide Observe, ForceFinishAction, EnsureAction, RetryableCode, GoodRow, Spares, GoodSubs;
    var s1 := UpdateAttempt(s, t.(status := Refused)).value;
    SettledObservation(s, s1, t.ref, Observed(Status.PastDue), now, ids, txNow, ref, id);
    var s2 := Observe(s1, t.ref, Observed(Status.PastDue), now, ids, txNow).value;
    var last := LastRefusal(cfg, t.number, RetryableCode(t.refusalCode));
    var status := if last then ActionStatus.Completed else ActionStatus.Pending;
    var due := if last then None else Some(now + cfg.retryDelays[t.number - 1]);
    ForceFinishSpares(s, s2, ref, id, t.actionId, status, due, Some("refused"));
    EnsureSpares(s, ForceFinishAction(s2, t.actionId, status, due, Some("refused")).value, ref, id,
                 NewAction(ids.dunning, t.ref, Expire, now + cfg.dunningTermination));
  }

  lemma GivenUpSpares(s: Store, t: ChargeAttempt, now: Instant, ids: Ids, txNow: Instant, ref: string, id: string)
    requires Ending(s, ref, id) && GoodSubs(s) && t.actionId != id
    requires var s1 := s.(attempts := s.attempts[t.id := t]);
             && ForceFinishAction(s1, t.actionId, ActionStatus.Canceled, None, Some("operator")).Success?
             && Observe(ForceFinishAction(s1, t.actionId, ActionStatus.Canceled, None, Some("operator")).value, t.ref,
                        IMMEDIATE_EXPIRY, now, ids, txNow).Success?
    ensures hide *; var s1 := s.(attempts := s.attempts[t.id := t]);
            Spares(s,
                   Observe(ForceFinishAction(s1, t.actionId, ActionStatus.Canceled, None, Some("operator")).value,
                           t.ref, IMMEDIATE_EXPIRY, now,
                              ids, txNow).value, ref, id)
  {
    hide Observe, ForceFinishAction, GoodRow;
    var s1 := s.(attempts := s.attempts[t.id := t]);
    ForceFinishEffect(s1, t.actionId, ActionStatus.Canceled, None, Some("operator"));
    var s2 := ForceFinishAction(s1, t.actionId, ActionStatus.Canceled, None, Some("operator")).value;
    ObserveSpares(s2, t.ref, IMMEDIATE_EXPIRY, now, ids, txNow, ref, id);
  }

  lemma ResolveSpares(env: Environment, s: Store, t: string, outcome: Resolution, reason: string, actor: string,
          paymentId: string, now: Instant, ids: Ids, txNow: Instant, ref: string, id: string)
    requires ChargeInv(env, s, None) && Ending(s, ref, id)
             && ResolveAttempt(s, env.cfg, t, outcome, reason, actor, paymentId, now, ids, txNow).Success?
    ensures hide ChargeInv, ResolveAttempt;
            Spares(s, ResolveAttempt(s, env.cfg, t, outcome, reason, actor, paymentId, now, ids, txNow).value, ref, id)
  {
    hide ChargeInv, Observe, ForceFinishAction, RecordAuthorised, RecordRefused, GoodSubs, GoodActions, GoodAttempts,
         TruthfulAttempts, NotAhead, Spares;
    Basics(env, s, None);
    WorkingOn(env, s, t);
    OtherAction(env, s, t, ref, id);
    var t0 := s.attempts[t];
    var s1 := InsertAudit(s,
                          Audit("resolve-attempt", t, if actor == "" then "cli" else actor,
                                if reason == "" then "operator" else reason));
    var u := t0.(claim := t0.claim.Release(), completedAt := Some(now),
                 paymentId := if paymentId != "" then Some(paymentId) else t0.paymentId);
    assert GoodSubs(s1) by { SameGoodSubs(s, s1); }
    match outcome {
      case Paid => RecordAuthorisedSpares(s1, u, true, now, ids, txNow, ref, id);
      case Declined => RecordRefusedSpares(s1, env.cfg, u, now, ids, txNow, ref, id);
      case GivenUp => GivenUpSpares(s1, u.(status := AttemptStatus.Canceled), now, ids, txNow, ref, id);
      case Unknown =>
    }
    SparesBefore(s, s1, ResolveAttempt(s, env.cfg, t, outcome, reason, actor, paymentId, now, ids, txNow).value, ref,
                 id);
  }

  lemma SameGoodSubs(s: Store, s1: Store)
    requires GoodSubs(s) && s1.subs == s.subs
    ensures GoodSubs(s1)
  {
    hide GoodRow;
  }

  // ---------- checkouts and webhooks ----------

  lemma CreateSpares(s: Store, co: Checkout, sub: Subscription, ids: Ids, txNow: Instant, ref: string, id: string)
    requires Ending(s, ref, id) && CreateSubscription(s, co, sub, ids, txNow).Success?
    ensures Spares(s, CreateSubscription(s, co, sub, ids, txNow).value, ref, id)
  {
    hide CommitChange;
    CreatedCommits(s, co, sub, ids, txNow);
    CreatedFresh(s, sub, ids, txNow);
    ChangeSpares(s, true, sub, Activated, ids, txNow, ref, id);
  }

  lemma ActivateCheckoutSpares(s: Store, c: string, now: Instant, ids: Ids, txNow: Instant, ref: string, id: string)
    requires Ending(s, ref, id) && ActivateCheckout(s, c, now, ids, txNow).Success?
    ensures Spares(s, ActivateCheckout(s, c, now, ids, txNow).value, ref, id)
  {
    hide CreateSubscription, AddCalendarMonths, Spares;
    SparesItself(s, ref, id);
    var co := s.checkouts[c];
    if co.subscriptionRef.None? {
      CreateSpares(s, co,
                   FirstActivation(co, ids.subscription, Status.Active, now, AddCalendarMonths(now, 1), now, None, None,
                                   None, co.shopperRef), ids,
                   txNow, ref, id);
    }
  }

  lemma AdyenInitialSpares(s: Store, ev: NormalizedEvent, now: Instant, ids: Ids, txNow: Instant, ref: string,
          id: string)
    requires Ending(s, ref, id) && GoodSubs(s) && ApplyAdyenInitial(s, ev, now, ids, txNow).Success?
    ensures Spares(s, ApplyAdyenInitial(s, ev, now, ids, txNow).value.0, ref, id)
  {
    hide CreateSubscription, AddCalendarMonths, Spares, ReplacePaymentMethod, GoodSubs;
    SparesItself(s, ref, id);
    if ev.success && ev.checkoutId != "" {
      var co := s.checkouts[ev.checkoutId];
      if co.status.Completed? && co.subscriptionRef.Some? {
        ReplaceSpares(s, co.subscriptionRef.value, ev, ref, id);
      } else {
        var sub := FirstActivation(co, ids.subscription, Status.Active, now, AddCalendarMonths(now, 1), now, None, None,
                                   NonEmpty(ev.paymentId), co.shopperRef);
        CreateSpares(s, co, WithPaymentMethod(sub, ev.paymentMethod), ids, txNow, ref, id);
      }
    }
  }

  lemma ReplaceSpares(s: Store, r: string, ev: NormalizedEvent, ref: string, id: string)
    requires Ending(s, ref, id) && GoodSubs(s) && ReplacePaymentMethod(s, r, ev).Success?
    ensures Spares(s, ReplacePaymentMethod(s, r, ev).value.0, ref, id)
  {
    hide GoodRow, GoodSubs, ReplacePaymentMethod, Withdraws;
    if r in s.subs {
      NamedRow(s, r);
    }
    PaymentMethodTables(s, r, ev);
  }

  lemma PaymentMethodTables(s: Store, r: string, ev: NormalizedEvent)
    requires r in s.subs ==> s.subs[r].ref == r
    requires ReplacePaymentMethod(s, r, ev).Success?
    ensures var s' := ReplacePaymentMethod(s, r, ev).value.0;
            && s'.actions == s.actions
            && (s'.subs == s.subs
                || (&& r in s.subs && r in s'.subs && s'.subs == s.subs[r := s'.subs[r]]
                    && s'.subs[r].version == s.subs[r].version && s'.subs[r].status == s.subs[r].status))
  {
  }

  lemma NamedRow(s: Store, ref: string)
    requires GoodSubs(s) && ref in s.subs
    ensures s.subs[ref].ref == ref
  {
    hide GoodRow;
  }

  lemma StripeSpares(s: Store, cfg: Config, ev: NormalizedEvent, state: Option<SubscriptionState>, hits: Hits,
          now: Instant, ids: Ids, txNow: Instant, ref: string, id: string)
    requires Ending(s, ref, id) && GoodSubs(s) && ApplyStripe(s, cfg, ev, state, hits, now, ids, txNow).Success?
    ensures hide ApplyStripe; Spares(s, ApplyStripe(s, cfg, ev, state, hits, now, ids, txNow).value.0, ref, id)
  {
    hide Decide, Commit, CreateSubscription, StripeSubject, StripeObservation, FirstActivation, GoodRow, Spares;
    SparesItself(s, ref, id);
    if state.Some? {
      var st := state.value;
      var subject := StripeSubject(ev, st, hits);
      if subject.Some? {
        var sub := s.subs[subject.value];
        DecisionSpares(s, sub, StripeObservation(cfg, sub, st).value, now, ids, txNow, ref, id);
      } else if ev.checkoutId in s.checkouts && (st.status.Active? || st.status.Trialing?) && ev.checkoutId != "" {
        CreateSpares(s, s.checkouts[ev.checkoutId],
                     FirstActivation(s.checkouts[ev.checkoutId], ids.subscription, st.status, st.periodStart,
                                     st.periodEnd, now,
                                     NonEmpty(st.customerId), NonEmpty(st.subId), None, None), ids, txNow, ref, id);
      }
    }
  }

  lemma AdyenRenewalSpares(env: Environment, s: Store, ev: NormalizedEvent, hits: Hits, now: Instant, ids: Ids,
          txNow: Instant, ref: string, id: string)
    requires ChargeInv(env, s, None) && Ending(s, ref, id)
             && ApplyAdyenRenewal(s, env.cfg, ev, hits, now, ids, txNow).Success?
    ensures hide ChargeInv; Spares(s, ApplyAdyenRenewal(s, env.cfg, ev, hits, now, ids, txNow).value.0, ref, id)
  {
    hide ChargeInv, RecordAuthorised, RecordRefused, GoodSubs, GoodActions, GoodAttempts, TruthfulAttempts, NotAhead,
         Spares;
    Basics(env, s, None);
    SparesItself(s, ref, id);
    var t0 := s.attempts[hits.byReference.value];
    OtherAction(env, s, hits.byReference.value, ref, id);
    if !(t0.status.Refused? || t0.status.Canceled? || t0.status.ManualReview? || t0.status.Authorized?) {
      var t := t0.(claim := t0.claim.Release(), completedAt := Some(now),
                   paymentId := if ev.paymentId != "" then Some(ev.paymentId) else t0.paymentId);
      if ev.success {
        RecordAuthorisedSpares(s, t, false, now, ids, txNow, ref, id);
      } else {
        RecordRefusedSpares(s, env.cfg,
                            t.(refusalCode := if ev.refusalCode != "" then Some(ev.refusalCode) else t0.refusalCode),
                                now, ids, txNow, ref, id);
      }
    }
  }

  lemma ObservationSpares(env: Environment, s: Store, ev: NormalizedEvent, state: Option<SubscriptionState>, hits: Hits,
          now: Instant, ids: Ids, txNow: Instant, ref: string, id: string)
    requires ChargeInv(env, s, None) && Ending(s, ref, id)
             && ApplyObservation(s, env.cfg, ev, state, hits, now, ids, txNow).Success?
    ensures hide ChargeInv; Spares(s, ApplyObservation(s, env.cfg, ev, state, hits, now, ids, txNow).value.0, ref, id)
  {
    hide ChargeInv, ApplyStripe, ApplyAdyenInitial, ApplyAdyenRenewal, Observe, Spares, GoodSubs, GoodActions,
         GoodAttempts, TruthfulAttempts, NotAhead;
    Basics(env, s, None);
    match ev.kind
    case StripeCheckout => StripeSpares(s, env.cfg, ev, state, hits, now, ids, txNow, ref, id);
    case StripeSubscription => StripeSpares(s, env.cfg, ev, state, hits, now, ids, txNow, ref, id);
    case AdyenInitial => AdyenInitialSpares(s, ev, now, ids, txNow, ref, id);
    case AdyenRenewal => AdyenRenewalSpares(env, s, ev, hits, now, ids, txNow, ref, id);
    case AdyenContract => ObserveSpares(s, ContractSubject(s, hits).value, CANCELLATION, now, ids, txNow, ref, id);
    case AdyenOperational => SparesItself(s, ref, id);
  }

  lemma CommitEventSpares(env: Environment, s: Store, ev: NormalizedEvent, lease: EventLease,
          state: Option<SubscriptionState>, hits: Hits, now: Instant, ids: Ids, txNow: Instant, ref: string, id: string)
    requires ChargeInv(env, s, None) && Ending(s, ref, id)
             && CommitEvent(s, env.cfg, ev, lease, state, hits, now, ids, txNow).Success?
    ensures hide ChargeInv, CommitEvent;
            Spares(s, CommitEvent(s, env.cfg, ev, lease, state, hits, now, ids, txNow).value, ref, id)
  {
    hide ChargeInv, ApplyObservation, CloseEvent, StripeSubject, Spares;
    SparesItself(s, ref, id);
    if StillOwned(s, ev, lease) {
      var s' := CommitEvent(s, env.cfg, ev, lease, state, hits, now, ids, txNow).value;
      match ApplyObservation(s, env.cfg, ev, state, hits, now, ids, txNow) {
        case Success((s1, r)) =>
          ObservationSpares(env, s, ev, state, hits, now, ids, txNow, ref, id);
          CloseSame(s1, ev, lease, Processed, r, now);
          SparesAfter(s, s1, s', ref, id);
        case Failure(e) =>
          if e == UnknownStripePrice && state.Some? {
            CloseSame(s, ev, lease, Quarantined, StripeSubject(ev, state.value, hits), now);
          } else {
            CloseSame(s, ev, lease, ProcessingState.ManualReview, None, now);
          }
          SparesAfter(s, s, s', ref, id);
      }
    }
  }

  // ---------- steps and runs ----------

  lemma ChargingStartStepSpares(env: Environment, sys: System, step: Step, ref: string, id: string)
    requires Safe(env, sys) && Enabled(env, sys, step)
             && (step.PrepareStep? || step.PickUncertainStep? || step.ClaimStep?) && Ending(sys.db, ref, id)
    ensures hide Safe, Enabled, DbAfter; Spares(sys.db, DbAfter(env, sys, step), ref, id)
  {
    hide ChargeInv, Bindings.Bound, Ledger.LedgerInv, EnsurePrepared, GiveUp, ClaimCharge, SettleCharge, RunExpire,
         ResolveAttempt, TruthfulReply, TruthfulEvent, TruthfulResolution, SameEvent, EarliestAction, FirstWith,
         Chooses, SameAttempt, GoodSubs, GoodActions, GoodAttempts, TruthfulAttempts, NotAhead, Spares, Ending;
    var s := sys.db;
    Basics(env, s, None);
    SparesItself(s, ref, id);
    match step
    case PrepareStep(_, a, choice, attemptId, reference, now) =>
      PickedAction(s, now, ActionStatus.Pending, Renew, a);
      if EnsurePrepared(s, env.cfg, s.actions[a], choice, attemptId, reference).Success? {
        PreparedSpares(env, s, a, choice, attemptId, reference, ref, id);
      }
    case PickUncertainStep(_, a, attemptId, now, ids, txNow) =>
      InFlightOpen(s, a, attemptId);
      AttemptOf(env, s, attemptId);
      if PastDeadline(s.attempts[attemptId], now) && GiveUp(s, s.actions[a], attemptId, now, ids, txNow).Success? {
        GiveUpSpares(env, s, s.actions[a], attemptId, now, ids, txNow, ref, id);
      }
    case ClaimStep(w, token, now) =>
      assert Remembers(env, s, sys.workers[w]);
      if ClaimCharge(s, env.cfg, sys.workers[w].actionId, sys.workers[w].attemptId, token, now).Success? {
        ClaimChargeSpares(env, s, sys.workers[w].actionId, sys.workers[w].attemptId, token, now, ref, id);
      }
  }

  lemma ChargingEndStepSpares(env: Environment, sys: System, step: Step, ref: string, id: string)
    requires Safe(env, sys) && Enabled(env, sys, step) && (step.SettleStep? || step.ExpireStep? || step.ResolveStep?)
             && Ending(sys.db, ref, id)
    ensures hide Safe, Enabled, DbAfter; Spares(sys.db, DbAfter(env, sys, step), ref, id)
  {
    hide ChargeInv, Bindings.Bound, Ledger.LedgerInv, EnsurePrepared, GiveUp, ClaimCharge, SettleCharge, RunExpire,
         ResolveAttempt, TruthfulReply, TruthfulEvent, TruthfulResolution, SameEvent, EarliestAction, FirstWith,
         Chooses, SameAttempt, GoodSubs, GoodActions, GoodAttempts, TruthfulAttempts, NotAhead, Spares, Ending;
    var s := sys.db;
    Basics(env, s, None);
    SparesItself(s, ref, id);
    match step
    case SettleStep(w, ids, txNow) =>
      var k := sys.workers[w];
      if SettleCharge(s, env.cfg, k.action, k.attempt.id, k.token, k.action.claim.fence, k.reply, k.now, ids,
                      txNow).Success? {
        SettleSpares(env, s, k.action, k.attempt.id, k.token, k.action.claim.fence, k.reply, k.now, ids, txNow, ref,
                     id);
      }
    case ExpireStep(a, token, now, ids, txNow) =>
      if RunExpire(s, a, token, env.cfg, now, ids, txNow).Success? {
        RunExpireSpares(s, a, token, env.cfg, now, ids, txNow, ref, id);
      }
    case ResolveStep(t, outcome, reason, actor, paymentId, now, ids, txNow) =>
      if ResolveAttempt(s, env.cfg, t, outcome, reason, actor, paymentId, now, ids, txNow).Success? {
        ResolveSpares(env, s, t, outcome, reason, actor, paymentId, now, ids, txNow, ref, id);
      }
  }

  lemma EngineStepSpares(env: Environment, sys: System, step: Step, ref: string, id: string)
    requires Safe(env, sys) && Enabled(env, sys, step)
             && (step.ActivateStep? || step.CommitEventStep? || step.CancelStep? || step.ExpireNowStep?)
    requires Ending(sys.db, ref, id)
    ensures hide Safe, Enabled, DbAfter; Spares(sys.db, DbAfter(env, sys, step), ref, id)
  {
    hide ChargeInv, Bindings.Bound, Ledger.LedgerInv, ActivateCheckout, CommitEvent, Observe, TruthfulEvent, HitsAgree,
         OwnCheckout, SameEvent, SameAttempt, TruthfulReply, GoodSubs, GoodActions, GoodAttempts, TruthfulAttempts,
         NotAhead, Spares, Ending;
    var s := sys.db;
    Basics(env, s, None);
    SparesItself(s, ref, id);
    match step
    case ActivateStep(c, now, ids, txNow) =>
      if ActivateCheckout(s, c, now, ids, txNow).Success? { ActivateCheckoutSpares(s, c, now, ids, txNow, ref, id); }
    case CommitEventStep(w, hits, now, ids, txNow) =>
      var k := sys.workers[w];
      if CommitEvent(s, env.cfg, k.ev, k.lease, k.state, hits, now, ids, txNow).Success? {
        CommitEventSpares(env, s, k.ev, k.lease, k.state, hits, now, ids, txNow, ref, id);
      }
    case CancelStep(r, now, ids, txNow) =>
      if Observe(s, r, CANCELLATION, now, ids, txNow).Success? {
        ObserveSpares(s, r, CANCELLATION, now, ids, txNow, ref, id);
      }
    case ExpireNowStep(r, now, ids, txNow) =>
      if Observe(s, r, IMMEDIATE_EXPIRY, now, ids, txNow).Success? {
        ObserveSpares(s, r, IMMEDIATE_EXPIRY, now, ids, txNow, ref, id);
      }
  }

  lemma StepSpares(env: Environment, sys: System, step: Step, ref: string, id: string)
    requires Safe(env, sys) && Enabled(env, sys, step) && Ending(sys.db, ref, id)
    ensures hide Safe, Enabled, DbAfter; Spares(sys.db, DbAfter(env, sys, step), ref, id)
  {
    hide Safe, Enabled, DbAfter, Spares, Ending;
    if Charges(step) {
      if step.PrepareStep? || step.PickUncertainStep? || step.ClaimStep? {
        ChargingStartStepSpares(env, sys, step, ref, id);
      } else {
        ChargingEndStepSpares(env, sys, step, ref, id);
      }
    } else if Aside(step) {
      AsideTables(env, sys, step);
      SparesItself(sys.db, ref, id);
      SparesAfter(sys.db, sys.db, DbAfter(env, sys, step), ref, id);
    } else {
      EngineStepSpares(env, sys, step, ref, id);
    }
  }

  /** Unless the subscription has moved on, its status and its expiry are as they were. */
  ghost predicate StillEnding(s: Store, s': Store, ref: string, id: string)
    requires ref in s.subs && id in s.actions
  {
    && ref in s'.subs && s.subs[ref].version <= s'.subs[ref].version
    && (s'.subs[ref].version == s.subs[ref].version ==>
          s'.subs[ref].status == s.subs[ref].status && id in s'.actions && s'.actions[id] == s.actions[id])
  }

  /** A subscription whose expiry is pending keeps that expiry, unchanged, through any number of steps, until an event
      moves the subscription on. */
  lemma {:induction false} PendingExpiryStays(env: Environment, states: seq<System>, steps: seq<Step>, m: nat, n: nat,
          ref: string, id: string)
    requires hide Leads; Run(env, states, steps) && m <= n < |states| && Ending(states[m].db, ref, id)
             && states[m].db.subs[ref].status != Status.Expired
    ensures StillEnding(states[m].db, states[n].db, ref, id)
    decreases n
  {
    hide Enabled, DbAfter, WorkersAfter, ReadsAfter, SentAfter, Safe, Reads.ReadsInv, Payments.RenewalsPaid,
         Payments.SentInv, Growth.UniqueKeys, Growth.ClaimsRun, Growth.DeliveriesFenced, Arrivals.Arrived, GoodRow;
    if m < n {
      PendingExpiryStays(env, states, steps, m, n - 1, ref, id);
      RunStep(env, states, steps, n - 1);
      RunInv(env, states, steps, n - 1);
      VersionTellsChange(env, states, steps, n - 1, ref);
      if Ending(states[n - 1].db, ref, id) {
        StepSpares(env, states[n - 1], steps[n - 1], ref, id);
      }
    }
  }
}
