/** Refusals, operator decisions and missed deadlines keep the charge invariants. */
module ChargeRefusals {
  import opened Wrappers
  import opened Calendar
  import opened Protocol
  import opened Model
  import opened Transition
  import opened Engine
  import opened Scheduler
  import opened System
  import opened Effects
  import opened ChargeSafety
  import opened ChargeBlocks
  import opened ChargeSteps
  import opened ChargeOutcomes

  /** The subscription of action `x` is not active. */
  ghost predicate Dropped(s: Store, x: string, ref: string) {
    x in s.actions && s.actions[x].ref == ref && ref in s.subs && s.subs[ref].status != Status.Active
  }

  lemma DroppedLift(env: Environment, s: Store, x: string, ref: string)
    requires ChargeInv(env, s, Some(x)) && Dropped(s, x, ref) && !Claimable(s.actions[x].status)
    ensures ChargeInv(env, s, None)
  {
    hide ChargeInv, RenewalWaiting;
    LiftExemption(env, s, x);
  }

  lemma LeftDrops(s: Store, s': Store, x: string, ref: string, newId: string)
    requires Left(s, s', ref, newId) && x in s.actions && s.actions[x].ref == ref
    ensures Dropped(s', x, ref)
  {
  }

  /** An attempt is closed without a payment while its action is exempt. */
  lemma CloseKeeps(env: Environment, s: Store, u: ChargeAttempt)
    requires ChargeInv(env, s, None) && u.id in s.attempts && SameAttempt(s.attempts[u.id], u)
             && !s.attempts[u.id].status.Authorized?
    requires !u.status.Authorized? && (u.status.Refused? ==> !Authorises(env, u)) && u.claim.token.None?
    ensures ChargeInv(env, s.(attempts := s.attempts[u.id := u]), Some(u.actionId))
    ensures u.actionId in s.actions && s.actions[u.actionId].ref == u.ref && s.actions[u.actionId].kind.Renew?
  {
    hide GoodSubs, GoodActions, TruthfulAttempts, RefusedBefore, Numbered, Priced, WorkingAttempts, OnTarget, NotAhead,
         Renewing, Counted;
    Exempt(env, s, u.actionId);
    assert Belongs(s.attempts[u.id], s.actions[s.attempts[u.id].actionId]);
    AttemptKeeps(env, s, u, Some(u.actionId));
  }

  /** An attempt is refused while dunning goes on. */
  lemma RefuseKeeps(env: Environment, s: Store, u: ChargeAttempt)
    requires ChargeInv(env, s, None) && u.id in s.attempts && SameAttempt(s.attempts[u.id], u)
             && !s.attempts[u.id].status.Authorized?
    requires u.status.Refused? && !Authorises(env, u) && u.claim.token.None? && u.number < |env.cfg.retryDelays|
             && RetryableCode(u.refusalCode)
    ensures ChargeInv(env, s.(attempts := s.attempts[u.id := u]), None)
    ensures u.actionId in s.actions && s.actions[u.actionId].ref == u.ref
  {
    hide GoodSubs, GoodActions, TruthfulAttempts, RefusedBefore, Numbered, Priced, WorkingAttempts, OnTarget, NotAhead,
         Renewing, Counted, RetryableCode;
    assert Belongs(s.attempts[u.id], s.actions[s.attempts[u.id].actionId]);
    AttemptKeeps(env, s, u, None);
  }

  /** After a non-payment the exempt action is dropped. */
  lemma ObserveDrops(env: Environment, s: Store, x: string, ref: string, obs: Observation, now: Instant, ids: Ids,
          txNow: Instant)
    requires hide *; ChargeInv(env, s, Some(x)) && Observe(s, ref, obs, now, ids, txNow).Success? && x in s.actions
             && s.actions[x].ref == ref
    requires QuietObservation(obs)
             && (obs.status == Status.PastDue || obs.status == Status.Canceled || obs.status == Status.Expired)
    ensures var s' := Observe(s, ref, obs, now, ids, txNow).value;
            ChargeInv(env, s', Some(x)) && Dropped(s', x, ref)
  {
    hide ChargeInv, Observe, QuietObservation;
    ObserveKeeps(env, s, ref, obs, now, ids, txNow, Some(x));
    Basics(env, s, Some(x));
    ObserveLeaves(s, ref, obs, now, ids, txNow);
    LeftDrops(s, Observe(s, ref, obs, now, ids, txNow).value, x, ref, ids.action);
  }

  // ---------- refused, as the charging worker learns it ----------

  lemma DeclinedFinal(env: Environment, s: Store, a: ScheduledAction, u: ChargeAttempt, token: string, fence: int,
          now: Instant, ids: Ids, txNow: Instant)
    requires hide *; ChargeInv(env, s, Some(a.id)) && a.id in s.actions && s.actions[a.id].ref == a.ref
    requires Observe(s, a.ref, Observed(Status.PastDue), now, ids, txNow).Success?
    requires var s2 := Observe(s, a.ref, Observed(Status.PastDue), now, ids, txNow).value;
             FinishAction(s2, a.id, token, fence, ActionStatus.Completed, None, Some("refused")).Success?
    ensures var s2 := Observe(s, a.ref, Observed(Status.PastDue), now, ids, txNow).value;
            var s3 := FinishAction(s2, a.id, token, fence, ActionStatus.Completed, None, Some("refused")).value;
            ChargeInv(env, EnsureAction(s3, NewAction(ids.dunning, a.ref, Expire, now + env.cfg.dunningTermination)),
                      None)
  {
    hide ChargeInv, Observe, FinishAction, EnsureAction;
    ObserveDrops(env, s, a.id, a.ref, Observed(Status.PastDue), now, ids, txNow);
    var s2 := Observe(s, a.ref, Observed(Status.PastDue), now, ids, txNow).value;
    FinishKeeps(env, s2, a.id, token, fence, ActionStatus.Completed, None, Some("refused"), Some(a.id));
    FinishEffect(s2, a.id, token, fence, ActionStatus.Completed, None, Some("refused"));
    var s3 := FinishAction(s2, a.id, token, fence, ActionStatus.Completed, None, Some("refused")).value;
    DroppedLift(env, s3, a.id, a.ref);
    EnsureExpiryKeeps(env, s3, ids.dunning, a.ref, now + env.cfg.dunningTermination, None);
  }

  /** The action of a settled attempt was running all along. */
  lemma RunningBefore(env: Environment, s: Store, x: string, ref: string, token: string, fence: int,
          status: ActionStatus, due: Option<Instant>, class_: Option<string>, now: Instant, ids: Ids, txNow: Instant)
    requires GoodSubs(s) && x in s.actions && Observe(s, ref, Observed(Status.PastDue), now, ids, txNow).Success?
    requires FinishAction(Observe(s, ref, Observed(Status.PastDue), now, ids, txNow).value, x, token, fence, status,
                          due, class_).Success?
    ensures s.actions[x].status.Running?
  {
    hide Observe, FinishAction, GoodSubs;
    var s2 := Observe(s, ref, Observed(Status.PastDue), now, ids, txNow).value;
    ObserveLeaves(s, ref, Observed(Status.PastDue), now, ids, txNow);
    FinishEffect(s2, x, token, fence, status, due, class_);
  }

  lemma SettleDeclined(env: Environment, s: Store, a: ScheduledAction, id: string, token: string, fence: int,
          paymentId: string, code: string, now: Instant, ids: Ids, txNow: Instant)
    requires hide *; ChargeInv(env, s, None) && id in s.attempts && s.attempts[id].claim.Owned(token, fence)
    requires a.id == s.attempts[id].actionId && a.ref == s.attempts[id].ref && !Authorises(env, s.attempts[id])
    requires SettleCharge(s, env.cfg, a, id, token, fence, Reply.Declined(paymentId, code), now, ids, txNow).Success?
    ensures ChargeInv(env,
                      SettleCharge(s, env.cfg, a, id, token, fence, Reply.Declined(paymentId, code), now, ids,
                                   txNow).value, None)
  {
    hide ChargeInv, Observe, FinishAction, EnsureAction, IsRetryableRefusal;
    var cur := s.attempts[id];
    WorkingOn(env, s, id);
    var u := DeclinedAttempt(cur, paymentId, code, now);
    var s1 := UpdateAttempt(s, u).value;
    if LastRefusal(env.cfg, cur.number, IsRetryableRefusal(code)) {
      CloseKeeps(env, s, u);
      DeclinedFinal(env, s1, a, u, token, fence, now, ids, txNow);
    } else {
      RunningUntouched(env, s, s1, a, token, fence, code, u, now, ids, txNow);
      RefuseKeeps(env, s, u);
      RetryTail(env, s1, a, u.number, token, fence, now, ids, txNow);
    }
  }

  /** A settled attempt whose dunning goes on was being worked on, so its older refusal code was retryable as well. */
  lemma RunningUntouched(env: Environment, s: Store, s1: Store, a: ScheduledAction, token: string, fence: int,
          code: string, u: ChargeAttempt, now: Instant, ids: Ids, txNow: Instant)
    requires hide *; ChargeInv(env, s, None) && u.id in s.attempts && s.attempts[u.id].actionId == a.id
    requires u.refusalCode == (if code != "" then Some(code) else s.attempts[u.id].refusalCode)
             && IsRetryableRefusal(code)
    requires s1.subs == s.subs && s1.actions == s.actions && 1 <= u.number <= |env.cfg.retryDelays|
    requires Observe(s1, a.ref, Observed(Status.PastDue), now, ids, txNow).Success?
    requires FinishAction(Observe(s1, a.ref, Observed(Status.PastDue), now, ids, txNow).value, a.id, token, fence,
                          ActionStatus.Pending,
                          Some(now + env.cfg.retryDelays[u.number - 1]), Some("refused")).Success?
    ensures RetryableCode(u.refusalCode)
  {
    hide ChargeInv, Observe, FinishAction, IsRetryableRefusal, GoodActions, GoodAttempts, TruthfulAttempts, NotAhead;
    Basics(env, s, None);
    WorkingOn(env, s, u.id);
    assert GoodSubs(s1);
    RunningBefore(env, s1, a.id, a.ref, token, fence, ActionStatus.Pending,
                  Some(now + env.cfg.retryDelays[u.number - 1]), Some("refused"), now, ids, txNow);
  }

  lemma RetryTail(env: Environment, s1: Store, a: ScheduledAction, number: AttemptNumber, token: string, fence: int,
          now: Instant, ids: Ids, txNow: Instant)
    requires hide *; ChargeInv(env, s1, None) && number <= |env.cfg.retryDelays|
    requires Observe(s1, a.ref, Observed(Status.PastDue), now, ids, txNow).Success?
    requires FinishAction(Observe(s1, a.ref, Observed(Status.PastDue), now, ids, txNow).value, a.id, token, fence,
                          ActionStatus.Pending,
                          Some(now + env.cfg.retryDelays[number - 1]), Some("refused")).Success?
    ensures ChargeInv(env,
                      FinishAction(Observe(s1, a.ref, Observed(Status.PastDue), now, ids, txNow).value, a.id, token,
                                   fence, ActionStatus.Pending,
                                        Some(now + env.cfg.retryDelays[number - 1]), Some("refused")).value, None)
  {
    hide ChargeInv, Observe, FinishAction;
    ObserveKeeps(env, s1, a.ref, Observed(Status.PastDue), now, ids, txNow, None);
    FinishKeeps(env, Observe(s1, a.ref, Observed(Status.PastDue), now, ids, txNow).value, a.id, token, fence,
                ActionStatus.Pending,
                Some(now + env.cfg.retryDelays[number - 1]), Some("refused"), None);
  }

  /** Recording the provider's answer keeps the invariants, whatever happened since the charge was sent. */
  lemma SettleKeeps(env: Environment, s: Store, a: ScheduledAction, id: string, token: string, fence: int, reply: Reply,
                    now: Instant, ids: Ids, txNow: Instant)
    requires hide *; ChargeInv(env, s, None) && ids.action !in s.actions
    requires id in s.attempts ==> a.id == s.attempts[id].actionId && a.ref == s.attempts[id].ref
                                  && TruthfulReply(env, s.attempts[id].request.idempotencyKey, reply)
    requires SettleCharge(s, env.cfg, a, id, token, fence, reply, now, ids, txNow).Success?
    ensures ChargeInv(env, SettleCharge(s, env.cfg, a, id, token, fence, reply, now, ids, txNow).value, None)
  {
    hide ChargeInv, SettleCharge;
    SettledAttempt(s, env.cfg, a, id, token, fence, reply, now, ids, txNow);
    if s.attempts[id].claim.Owned(token, fence) {
      match reply
      case Unclear => SettleUnclear(env, s, a, id, token, fence, now, ids, txNow);
      case Authorised(paymentId) => SettleAuthorised(env, s, a, id, token, fence, paymentId, now, ids, txNow);
      case Declined(paymentId, code) => SettleDeclined(env, s, a, id, token, fence, paymentId, code, now, ids, txNow);
    }
  }

  /** A worker that has lost its claim settles nothing. */
  lemma SettledAttempt(s: Store, cfg: Config, a: ScheduledAction, id: string, token: string, fence: int, reply: Reply,
          now: Instant, ids: Ids, txNow: Instant)
    requires SettleCharge(s, cfg, a, id, token, fence, reply, now, ids, txNow).Success?
    ensures id in s.attempts
    ensures !s.attempts[id].claim.Owned(token, fence) ==>
              SettleCharge(s, cfg, a, id, token, fence, reply, now, ids, txNow) == Success(s)
  {
    hide Observe, FinishAction, EnsureAction, IsRetryableRefusal;
  }

  // ---------- outcomes learned from outside ----------

  /** The first half: the attempt and its action. */
  lemma RecordedEarned(env: Environment, s: Store, u: ChargeAttempt)
    requires ChargeInv(env, s, None) && u.id in s.attempts && SameAttempt(s.attempts[u.id], u)
             && !s.attempts[u.id].status.Authorized?
    requires u.status.Authorized? && u.claim.token.None? && Authorises(env, u)
    requires ForceFinishAction(s.(attempts := s.attempts[u.id := u]), u.actionId, ActionStatus.Completed, None,
                               None).Success?
    ensures var x, s2 := u.actionId,
            ForceFinishAction(s.(attempts := s.attempts[u.id := u]), u.actionId, ActionStatus.Completed, None,
                              None).value;
            && ChargeInv(env, s2, Some(x)) && Earned(env, s2, x, u)
            && x in s2.actions && !Claimable(s2.actions[x].status) && s2.actions.Keys == s.actions.Keys
  {
    hide ChargeInv, ForceFinishAction;
    var x := u.actionId;
    var s1 := s.(attempts := s.attempts[u.id := u]);
    EarnKeeps(env, s, u);
    EarnedAction(env, s1, x, u);
    ForceFinishKeeps(env, s1, x, ActionStatus.Completed, None, None, Some(x));
    ForceFinishEffect(s1, x, ActionStatus.Completed, None, None);
  }

  lemma RecordAuthorisedKeeps(env: Environment, s: Store, t: ChargeAttempt, unblock: bool, now: Instant, ids: Ids,
          txNow: Instant)
    requires hide *; ChargeInv(env, s, None) && t.id in s.attempts && SameAttempt(s.attempts[t.id], t)
             && !s.attempts[t.id].status.Authorized?
    requires t.claim.token.None? && Authorises(env, t) && ids.action !in s.actions
    requires RecordAuthorised(s, t, unblock, now, ids, txNow).Success?
    ensures ChargeInv(env, RecordAuthorised(s, t, unblock, now, ids, txNow).value, None)
  {
    hide ChargeInv, Decide, Commit, ForceFinishAction, Relieved, Earned;
    var u := t.(status := Authorized);
    RecordedEarned(env, s, u);
    var s2 := ForceFinishAction(UpdateAttempt(s, u).value, t.actionId, ActionStatus.Completed, None, None).value;
    var row := s2.subs[t.ref];
    var sub := if unblock then row.(chargingBlocked := false, blockReason := None) else row;
    var d := Decide(sub, PaidPeriod(t.periodStart, t.periodEnd), now).value;
    CommitNoop(s2, d, ids, txNow);
    PaidKeeps(env, s2, t.actionId, u, sub, now, ids, txNow);
    RecordedLift(env, s2, Commit(s2, d, ids, txNow).value, t.actionId, t.ref, ids, txNow, d);
    if d.Noop? && unblock {
      UnblockKeeps(env, s2, t.ref);
    }
  }

  lemma UnblockKeeps(env: Environment, s: Store, ref: string)
    requires ChargeInv(env, s, None) && ref in s.subs
    ensures var sub := s.subs[ref].(chargingBlocked := false, blockReason := None);
            && UpdateSubscription(s, sub).Success? && ChargeInv(env, UpdateSubscription(s, sub).value, None)
  {
    hide ChargeInv, GoodActions, GoodAttempts, TruthfulAttempts, NotAhead;
    Basics(env, s, None);
    SubKeeps(env, s, s.subs[ref].(chargingBlocked := false, blockReason := None), None);
  }

  lemma CommitNoop(s: Store, d: Decision, ids: Ids, txNow: Instant)
    ensures d.Noop? ==> Commit(s, d, ids, txNow) == Success(s)
  {
  }

  lemma RecordedLift(env: Environment, s2: Store, s3: Store, x: string, ref: string, ids: Ids, txNow: Instant,
          d: Decision)
    requires hide *; Commit(s2, d, ids, txNow) == Success(s3)
    requires ChargeInv(env, s3, Some(x)) && Relieved(s3, x, ref, ids.action) && x in s2.actions
             && !Claimable(s2.actions[x].status)
    ensures ChargeInv(env, s3, None)
  {
    hide ChargeInv, Relieved, CommitChange;
    assert x in s3.actions && !Claimable(s3.actions[x].status) by {
      if d.Change? {
        hide FollowUp, BuildCallback, ValidateCallback, NewEvent, Spared, Added;
        CommitEffect(s2, false, d.next, d.event, ids, txNow);
      }
    }
    RelievedLift(env, s3, x, ref, ids.action);
  }

  lemma RescheduleKeeps(env: Environment, s: Store, t: ChargeAttempt, ref: string, now: Instant, dunningId: string)
    requires t.actionId in s.actions && RescheduleOrExpire(s, env.cfg, t, ref, now, dunningId).Success?
    requires if LastRefusal(env.cfg, t.number, RetryableCode(t.refusalCode))
             then ChargeInv(env, s, Some(t.actionId)) && Dropped(s, t.actionId, ref) else ChargeInv(env, s, None)
    ensures ChargeInv(env, RescheduleOrExpire(s, env.cfg, t, ref, now, dunningId).value, None)
  {
    hide ChargeInv, ForceFinishAction, EnsureAction, RetryableCode;
    if LastRefusal(env.cfg, t.number, RetryableCode(t.refusalCode)) {
      var x := t.actionId;
      ForceFinishKeeps(env, s, x, ActionStatus.Completed, None, Some("refused"), Some(x));
      ForceFinishEffect(s, x, ActionStatus.Completed, None, Some("refused"));
      var s1 := ForceFinishAction(s, x, ActionStatus.Completed, None, Some("refused")).value;
      DroppedLift(env, s1, x, ref);
      EnsureExpiryKeeps(env, s1, dunningId, ref, now + env.cfg.dunningTermination, None);
    } else {
      ForceFinishKeeps(env, s, t.actionId, ActionStatus.Pending, Some(now + env.cfg.retryDelays[t.number - 1]),
                       Some("refused"), None);
    }
  }

  lemma RecordRefusedKeeps(env: Environment, s: Store, t: ChargeAttempt, now: Instant, ids: Ids, txNow: Instant)
    requires hide *; ChargeInv(env, s, None) && t.id in s.attempts && SameAttempt(s.attempts[t.id], t)
             && !s.attempts[t.id].status.Authorized?
    requires t.claim.token.None? && !Authorises(env, t)
    requires RecordRefused(s, env.cfg, t, now, ids, txNow).Success?
    ensures ChargeInv(env, RecordRefused(s, env.cfg, t, now, ids, txNow).value, None)
  {
    hide ChargeInv, Observe, RescheduleOrExpire, RetryableCode;
    var u := t.(status := Refused);
    var s1 := UpdateAttempt(s, u).value;
    var s2 := Observe(s1, t.ref, Observed(Status.PastDue), now, ids, txNow).value;
    if LastRefusal(env.cfg, t.number, RetryableCode(t.refusalCode)) {
      CloseKeeps(env, s, u);
      ObserveDrops(env, s1, t.actionId, t.ref, Observed(Status.PastDue), now, ids, txNow);
    } else {
      RefuseKeeps(env, s, u);
      ObserveKeeps(env, s1, t.ref, Observed(Status.PastDue), now, ids, txNow, None);
      Basics(env, s1, None);
      ObserveLeaves(s1, t.ref, Observed(Status.PastDue), now, ids, txNow);
    }
    RescheduleKeeps(env, s2, t, t.ref, now, ids.dunning);
  }

  /** The operator gives the subscription up. */
  lemma GivenUpKeeps(env: Environment, s: Store, t: ChargeAttempt, now: Instant, ids: Ids, txNow: Instant)
    requires hide *; ChargeInv(env, s, None) && t.id in s.attempts && SameAttempt(s.attempts[t.id], t)
             && !s.attempts[t.id].status.Authorized?
    requires t.claim.token.None? && t.status.Canceled?
    requires var s1 := s.(attempts := s.attempts[t.id := t]);
             && ForceFinishAction(s1, t.actionId, ActionStatus.Canceled, None, Some("operator")).Success?
             && Observe(ForceFinishAction(s1, t.actionId, ActionStatus.Canceled, None, Some("operator")).value, t.ref,
                        IMMEDIATE_EXPIRY, now, ids, txNow).Success?
    ensures var s1 := s.(attempts := s.attempts[t.id := t]);
            ChargeInv(env,
                      Observe(ForceFinishAction(s1, t.actionId, ActionStatus.Canceled, None, Some("operator")).value,
                              t.ref, IMMEDIATE_EXPIRY, now, ids, txNow).value, None)
  {
    hide ChargeInv, Observe, ForceFinishAction;
    var s1 := s.(attempts := s.attempts[t.id := t]);
    var x := t.actionId;
    CloseKeeps(env, s, t);
    ForceFinishKeeps(env, s1, x, ActionStatus.Canceled, None, Some("operator"), Some(x));
    ForceFinishEffect(s1, x, ActionStatus.Canceled, None, Some("operator"));
    var s2 := ForceFinishAction(s1, x, ActionStatus.Canceled, None, Some("operator")).value;
    ObserveDrops(env, s2, x, t.ref, IMMEDIATE_EXPIRY, now, ids, txNow);
    Basics(env, s2, Some(x));
    ObserveLeaves(s2, t.ref, IMMEDIATE_EXPIRY, now, ids, txNow);
    DroppedLift(env, Observe(s2, t.ref, IMMEDIATE_EXPIRY, now, ids, txNow).value, x, t.ref);
  }

  lemma ResolveKeeps(env: Environment, s: Store, id: string, outcome: Resolution, reason: string, actor: string,
          paymentId: string, now: Instant, ids: Ids, txNow: Instant)
    requires hide *; ChargeInv(env, s, None) && ids.action !in s.actions
    requires id in s.attempts ==> TruthfulResolution(env, s.attempts[id].request.idempotencyKey, outcome)
    requires ResolveAttempt(s, env.cfg, id, outcome, reason, actor, paymentId, now, ids, txNow).Success?
    ensures ChargeInv(env, ResolveAttempt(s, env.cfg, id, outcome, reason, actor, paymentId, now, ids, txNow).value,
                      None)
  {
    hide ChargeInv, Observe, ForceFinishAction, RecordAuthorised, RecordRefused;
    var t0 := s.attempts[id];
    WorkingOn(env, s, id);
    var s1 := InsertAudit(s,
                          Audit("resolve-attempt", id, if actor == "" then "cli" else actor,
                                if reason == "" then "operator" else reason));
    AuditKeeps(env, s, s1);
    var t := t0.(claim := t0.claim.Release(), completedAt := Some(now),
                 paymentId := if paymentId != "" then Some(paymentId) else t0.paymentId);
    match outcome
    case Paid => RecordAuthorisedKeeps(env, s1, t, true, now, ids, txNow);
    case Declined => RecordRefusedKeeps(env, s1, t, now, ids, txNow);
    case GivenUp => GivenUpKeeps(env, s1, t.(status := AttemptStatus.Canceled), now, ids, txNow);
    case Unknown =>
  }

  /** The invariants speak of three tables only. */
  lemma AuditKeeps(env: Environment, s: Store, s': Store)
    requires ChargeInv(env, s, None) && s'.subs == s.subs && s'.actions == s.actions && s'.attempts == s.attempts
    ensures ChargeInv(env, s', None)
  {
    hide GoodSubs, GoodActions, GoodAttempts, TruthfulAttempts, RefusedBefore, Numbered, Priced, WorkingAttempts,
         OnTarget, NotAhead, Renewing, Counted;
    assert Quiet(s, s', None) by { Untouched(s, s'); }
    QuietKeeps(env, s, s', None);
  }

  lemma Untouched(s: Store, s': Store)
    requires GoodSubs(s) && GoodActions(s) && s'.subs == s.subs && s'.actions == s.actions && s'.attempts == s.attempts
    ensures Quiet(s, s', None)
  {
    hide GoodRow;
  }

  // ---------- the deadline ----------

  lemma BlockCommit(env: Environment, s: Store, x: string, sub: Subscription, d: Decision, now: Instant, ids: Ids,
          txNow: Instant)
    requires hide *; ChargeInv(env, s, Some(x)) && x in s.actions && sub.ref in s.subs && s.subs[sub.ref] == sub
    requires if sub.status != Status.PastDue then Decide(sub, Observed(Status.PastDue), now) == Success(d)
             else d == Noop
    requires Commit(s, d, ids, txNow).Success?
    ensures var s1, row := Commit(s, d, ids, txNow).value, if d.Change? then d.next else sub;
            && ChargeInv(env, s1, Some(x)) && sub.ref in s1.subs && s1.subs[sub.ref] == row
            && x in s1.actions && SameAction(s.actions[x], s1.actions[x])
               && (!Claimable(s.actions[x].status) ==> !Claimable(s1.actions[x].status))
  {
    hide ChargeInv, Decide, GoodRow, CommitChange, GoodActions, GoodAttempts, TruthfulAttempts, NotAhead, FollowUp,
         BuildCallback, ValidateCallback, NewEvent, Spared, Added;
    if d.Change? {
      Basics(env, s, Some(x));
      QuietDecision(sub, Observed(Status.PastDue), now);
      CommitKeeps(env, s, false, d.next, d.event, ids, txNow, Some(x));
      CommitEffect(s, false, d.next, d.event, ids, txNow);
    }
  }

  lemma BlockKeeps(env: Environment, s: Store, x: string, sub: Subscription, reason: string, now: Instant, ids: Ids,
          txNow: Instant)
    requires ChargeInv(env, s, Some(x)) && x in s.actions && sub.ref in s.subs && s.subs[sub.ref] == sub
             && s.actions[x].ref == sub.ref
    requires BlockAutomaticCharging(s, sub, reason, now, ids, txNow).Success?
    ensures hide *; var s' := BlockAutomaticCharging(s, sub, reason, now, ids, txNow).value;
            ChargeInv(env, s', Some(x)) && Dropped(s', x, sub.ref)
            && (!Claimable(s.actions[x].status) ==> !Claimable(s'.actions[x].status))
  {
    hide ChargeInv, Decide, GoodRow, Commit, GoodActions, GoodAttempts, TruthfulAttempts, NotAhead;
    var d := if sub.status != Status.PastDue then Decide(sub, Observed(Status.PastDue), now).value else Noop;
    BlockCommit(env, s, x, sub, d, now, ids, txNow);
    var s1 := Commit(s, d, ids, txNow).value;
    var row := if d.Change? then d.next else sub;
    assert GoodRow(sub) by { Basics(env, s, Some(x)); }
    BlockedRow(sub, d, now, reason);
    SubKeeps(env, s1, row.(chargingBlocked := true, blockReason := Some(reason)), Some(x));
  }

  lemma BlockedRow(sub: Subscription, d: Decision, now: Instant, reason: string)
    requires GoodRow(sub)
    requires if sub.status != Status.PastDue then Decide(sub, Observed(Status.PastDue), now) == Success(d)
             else d == Noop
    ensures var row := if d.Change? then d.next else sub;
            && GoodRow(row.(chargingBlocked := true, blockReason := Some(reason)))
            && row.ref == sub.ref && row.family == sub.family && row.periodEnd == sub.periodEnd
            && (row.status == Status.PastDue || (row.status == Status.Expired && row == sub))
  {
  }

  lemma GiveUpKeeps(env: Environment, s: Store, a: ScheduledAction, id: string, now: Instant, ids: Ids, txNow: Instant)
    requires hide *; ChargeInv(env, s, None) && id in s.attempts && s.attempts[id].actionId == a.id
             && a.ref == s.attempts[id].ref
    requires !s.attempts[id].status.Authorized? && GiveUp(s, a, id, now, ids, txNow).Success?
    ensures ChargeInv(env, GiveUp(s, a, id, now, ids, txNow).value, None)
  {
    hide ChargeInv, BlockAutomaticCharging, ForceFinishAction;
    var t := s.attempts[id];
    WorkingOn(env, s, id);
    var u := t.(status := AttemptStatus.ManualReview, claim := t.claim.Release());
    var s1 := UpdateAttempt(s, u).value;
    CloseKeeps(env, s, u);
    ForceFinishKeeps(env, s1, a.id, ActionStatus.ManualReview, None, Some("resolution_deadline"), Some(a.id));
    ForceFinishEffect(s1, a.id, ActionStatus.ManualReview, None, Some("resolution_deadline"));
    var s2 := ForceFinishAction(s1, a.id, ActionStatus.ManualReview, None, Some("resolution_deadline")).value;
    Basics(env, s2, Some(a.id));
    BlockKeeps(env, s2, a.id, s2.subs[a.ref], "resolution_deadline", now, ids, txNow);
    DroppedLift(env, BlockAutomaticCharging(s2, s2.subs[a.ref], "resolution_deadline", now, ids, txNow).value, a.id,
                a.ref);
  }

  // ---------- what becomes of the attempt ----------

  /** An attempt that is handed over is in manual review, and its subscription is blocked and past due unless it has
      expired. */
  lemma GiveUpBlocks(s: Store, a: ScheduledAction, id: string, now: Instant, ids: Ids, txNow: Instant)
    requires hide *;
             GoodSubs(s) && id in s.attempts && s.attempts[id].id == id && GiveUp(s, a, id, now, ids, txNow).Success?
    ensures var s' := GiveUp(s, a, id, now, ids, txNow).value;
            && id in s'.attempts && s'.attempts[id].status.ManualReview? && s'.attempts[id].claim.token.None?
            && a.ref in s'.subs && s'.subs[a.ref].chargingBlocked
               && (s'.subs[a.ref].status == Status.PastDue || s'.subs[a.ref].status == Status.Expired)
  {
    hide GoodRow, ForceFinishAction, Decide, CommitChange;
    var u := s.attempts[id].(status := AttemptStatus.ManualReview, claim := s.attempts[id].claim.Release());
    var s1 := UpdateAttempt(s, u).value;
    ForceFinishEffect(s1, a.id, ActionStatus.ManualReview, None, Some("resolution_deadline"));
    var s2 := ForceFinishAction(s1, a.id, ActionStatus.ManualReview, None, Some("resolution_deadline")).value;
    var sub := s2.subs[a.ref];
    var d := if sub.status != Status.PastDue then Decide(sub, Observed(Status.PastDue), now).value else Noop;
    BlockedRow(sub, d, now, "resolution_deadline");
    if d.Change? { ChangedTables(s2, d.next, d.event, ids, txNow); }
  }

  lemma ChangedTables(s: Store, next: Subscription, event: EventType, ids: Ids, now: Instant)
    requires CommitChange(s, false, next, event, ids, now).Success?
    ensures var s' := CommitChange(s, false, next, event, ids, now).value;
            s'.attempts == s.attempts && s'.subs == s.subs[next.ref := next]
  {
    hide CommitChange, FollowUp, BuildCallback, ValidateCallback, NewEvent, Spared, Followed;
    CommitEffect(s, false, next, event, ids, now);
  }

  /** A blocked subscription's renewals cannot be claimed. */
  lemma BlockedNotClaimed(s: Store, id: string, token: string, now: Instant, lease: int)
    requires id in s.actions && s.actions[id].kind.Renew? && s.actions[id].ref in s.subs
             && s.subs[s.actions[id].ref].chargingBlocked
    ensures ClaimAction(s, id, token, now, lease).Failure?
  {
  }

  /** A charge with an unclear outcome leaves attempt and action uncertain and unclaimed, to be looked at again within a
      minute and not after the deadline of the attempt; nobody is told anything. */
  lemma UnclearAwaits(s: Store, cfg: Config, a: ScheduledAction, id: string, token: string, fence: int, now: Instant,
          ids: Ids, txNow: Instant)
    requires hide *; id in s.attempts && s.attempts[id].id == id && s.attempts[id].claim.Owned(token, fence)
    requires SettleCharge(s, cfg, a, id, token, fence, Unclear, now, ids, txNow).Success?
    ensures var s' := SettleCharge(s, cfg, a, id, token, fence, Unclear, now, ids, txNow).value;
            && s' == s.(attempts := s'.attempts, actions := s'.actions)
            && id in s'.attempts && s'.attempts[id].status.Uncertain? && s'.attempts[id].claim.token.None?
            && SameAttempt(s.attempts[id], s'.attempts[id])
            && a.id in s'.actions && s'.actions[a.id].status.Uncertain? && s'.actions[a.id].claim.token.None?
            && s'.actions[a.id].dueAt <= now + 60
            && (var deadline := s.attempts[id].resolutionDeadline;
                deadline.Some? ==> s'.actions[a.id].dueAt <= deadline.value)
  {
    var cur := s.attempts[id];
    var s1 := UpdateAttempt(s, cur.(status := AttemptStatus.Uncertain, claim := cur.claim.Release())).value;
    FinishEffect(s1, a.id, token, fence, ActionStatus.Uncertain, Some(RecheckAt(cur, now)), Some("uncertain"));
  }
}
