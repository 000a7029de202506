/**
 * Who cancels a subscription, and where expiries come from: only a cancellation observed on the stored row makes a
 * subscription canceled, and every expiry is the follow-up work of a cancellation or the end of a dunning.
 */
module Cancellations {
  import opened Wrappers
  import opened Calendar
  import opened Protocol
  import opened Model
  import opened Transition
  import opened Engine
  import opened Scheduler
  import opened System
  import opened Effects
  import opened Books
  import opened Promises
  import opened ChargeSafety
  import opened ChargeSteps
  import opened ChargeOutcomes
  import opened ChargeRefusals
  import opened ChargeEvents
  import opened BookSteps
  import opened StepSafety
  import opened Expiry
  import Dunning

  // ---------- transactions that cancel nobody ----------

  /** An expiry is pending until its target. */
  ghost predicate WaitsForEnd(s: Store, id: string)
    requires id in s.actions
  {
    Ending(s, s.actions[id].ref, id) && s.actions[id].dueAt == s.actions[id].target
  }

  ghost predicate NobodyCanceled(rows: Rows, rows': Rows) {
    forall ref :: ref in rows' && rows'[ref].status == Status.Canceled ==>
      ref in rows && rows[ref].status == Status.Canceled
  }

  /** The expiry that a transaction schedules when a dunning ends, if it does: its identifier and when it is due. */
  type Due = Option<(string, Instant)>

  /** Actions stay; the only new expiry is the one given, and it waits for its target. */
  ghost predicate OneExpiry(s: Store, s': Store, due: Due) {
    && (forall id :: id in s.actions ==> id in s'.actions && SameAction(s.actions[id], s'.actions[id]))
    && (forall id :: id in s'.actions && id !in s.actions && s'.actions[id].kind.Expire? ==>
          due == Some((id, s'.actions[id].target)) && WaitsForEnd(s', id))
  }

  ghost predicate Plain(s: Store, s': Store, due: Due) {
    NobodyCanceled(s.subs, s'.subs) && OneExpiry(s, s', due)
  }

  lemma PlainSame(s: Store, s': Store)
    requires SameWork(s, s')
    ensures Plain(s, s', None)
  {
  }

  lemma PlainOn(s: Store, t: Store, u: Store, due: Due)
    requires Plain(s, t, None) && Plain(t, u, due)
    ensures Plain(s, u, due)
  {
  }

  lemma PlainFor(s: Store, s': Store, due: Due)
    requires Plain(s, s', None)
    ensures Plain(s, s', due)
  {
  }

  lemma PlainRow(s: Store, s': Store, row: Subscription)
    requires s' == s.(subs := s.subs[row.ref := row]) && row.ref in s.subs && row.status == s.subs[row.ref].status
    ensures Plain(s, s', None)
  {
  }

  lemma ChangePlain(s: Store, created: bool, next: Subscription, event: EventType, ids: Ids, now: Instant)
    requires CommitChange(s, created, next, event, ids, now).Success? && next.status != Status.Canceled
             && event != WasCanceled
    ensures Plain(s, CommitChange(s, created, next, event, ids, now).value, None)
  {
    hide CommitChange, FollowUp, BuildCallback, ValidateCallback, NewEvent, Spared;
    CommitEffect(s, created, next, event, ids, now);
  }

  /** An observation that asks for no cancellation brings none about. */
  lemma NoCancellation(sub: Subscription, obs: Observation, at: Instant)
    requires obs.status != Status.Canceled && !obs.cancelAtPeriodEnd
    ensures var d := Decide(sub, obs, at);
            d.Success? && d.value.Change? ==>
              d.value.event != WasCanceled && d.value.next.status != Status.Canceled && d.value.next.ref == sub.ref
  {
  }

  lemma DecisionPlain(s: Store, sub: Subscription, obs: Observation, at: Instant, ids: Ids, now: Instant)
    requires obs.status != Status.Canceled && !obs.cancelAtPeriodEnd
    requires Decide(sub, obs, at).Success? && Commit(s, Decide(sub, obs, at).value, ids, now).Success?
    ensures Plain(s, Commit(s, Decide(sub, obs, at).value, ids, now).value, None)
  {
    hide CommitChange, Decide, Plain;
    NoCancellation(sub, obs, at);
    PlainSame(s, s);
    var d := Decide(sub, obs, at).value;
    if d.Change? { ChangePlain(s, false, d.next, d.event, ids, now); }
  }

  lemma ObservePlain(s: Store, ref: string, obs: Observation, at: Instant, ids: Ids, now: Instant)
    requires obs.status != Status.Canceled && !obs.cancelAtPeriodEnd && Observe(s, ref, obs, at, ids, now).Success?
    ensures Plain(s, Observe(s, ref, obs, at, ids, now).value, None)
  {
    hide Commit, Decide, Plain;
    DecisionPlain(s, s.subs[ref], obs, at, ids, now);
  }

  lemma FinishPlain(s: Store, id: string, token: string, fence: int, status: ActionStatus, due: Option<Instant>,
          class_: Option<string>)
    requires FinishAction(s, id, token, fence, status, due, class_).Success?
    ensures Plain(s, FinishAction(s, id, token, fence, status, due, class_).value, None)
  {
  }

  lemma ForceFinishPlain(s: Store, id: string, status: ActionStatus, due: Option<Instant>, class_: Option<string>)
    requires ForceFinishAction(s, id, status, due, class_).Success?
    ensures Plain(s, ForceFinishAction(s, id, status, due, class_).value, None)
  {
    hide Claimable;
  }

  lemma EnsurePlain(s: Store, ref: string, x: string, target: Instant)
    requires ref in s.subs
    ensures Plain(s, EnsureAction(s, NewAction(x, ref, Expire, target)), Some((x, target)))
  {
    hide EnsureAction, NoSuchKey;
    EnsureEffect(s, NewAction(x, ref, Expire, target));
  }

  lemma ClaimPlain(s: Store, id: string, token: string, now: Instant, lease: int)
    requires ClaimAction(s, id, token, now, lease).Success?
    ensures Plain(s, ClaimAction(s, id, token, now, lease).value.0, None)
  {
    hide Blocked;
  }

  // ---------- the scheduler ----------

  lemma RunExpirePlain(s: Store, id: string, token: string, cfg: Config, now: Instant, ids: Ids, txNow: Instant)
    requires RunExpire(s, id, token, cfg, now, ids, txNow).Success?
    ensures hide *; Plain(s, RunExpire(s, id, token, cfg, now, ids, txNow).value, None)
  {
    hide ClaimAction, Observe, FinishAction, Plain;
    var claimed := ClaimAction(s, id, token, now, Lease(cfg)).value;
    ClaimPlain(s, id, token, now, Lease(cfg));
    ObservePlain(claimed.0, claimed.1.ref, Observed(Status.Expired), now, ids, txNow);
    var s2 := Observe(claimed.0, claimed.1.ref, Observed(Status.Expired), now, ids, txNow).value;
    FinishPlain(s2, id, token, claimed.1.claim.fence, ActionStatus.Completed, None, None);
    PlainOn(s, claimed.0, s2, None);
    PlainOn(s, s2, RunExpire(s, id, token, cfg, now, ids, txNow).value, None);
  }

  lemma ClaimChargePlain(s: Store, cfg: Config, actionId: string, attemptId: string, token: string, now: Instant)
    requires ClaimCharge(s, cfg, actionId, attemptId, token, now).Success?
    ensures Plain(s, ClaimCharge(s, cfg, actionId, attemptId, token, now).value.0, None)
  {
    hide ClaimAction, Plain;
    var s1 := ClaimAction(s, actionId, token, now, Lease(cfg)).value.0;
    ClaimPlain(s, actionId, token, now, Lease(cfg));
    var s2 := ClaimCharge(s, cfg, actionId, attemptId, token, now).value.0;
    PlainSame(s1, s2);
    PlainOn(s, s1, s2, None);
  }

  lemma BlockPlain(s: Store, sub: Subscription, reason: string, now: Instant, ids: Ids, txNow: Instant)
    requires sub.ref in s.subs && s.subs[sub.ref] == sub
             && BlockAutomaticCharging(s, sub, reason, now, ids, txNow).Success?
    ensures Plain(s, BlockAutomaticCharging(s, sub, reason, now, ids, txNow).value, None)
  {
    hide Decide, Commit, Plain;
    var d := if sub.status != Status.PastDue then Decide(sub, Observed(Status.PastDue), now).value else Noop;
    var s1 := Commit(s, d, ids, txNow).value;
    CommitNoop(s, d, ids, txNow);
    PlainSame(s, s);
    if sub.status != Status.PastDue { DecisionPlain(s, sub, Observed(Status.PastDue), now, ids, txNow); }
    assert d.Change? || d == Noop;
    CommittedRow(s, d, sub, ids, txNow);
    var s' := BlockAutomaticCharging(s, sub, reason, now, ids, txNow).value;
    PlainRow(s1, s', (if d.Change? then d.next else sub).(chargingBlocked := true, blockReason := Some(reason)));
    PlainOn(s, s1, s', None);
  }

  lemma GiveUpPlain(s: Store, a: ScheduledAction, id: string, now: Instant, ids: Ids, txNow: Instant)
    requires GoodSubs(s) && GiveUp(s, a, id, now, ids, txNow).Success?
    ensures hide *; Plain(s, GiveUp(s, a, id, now, ids, txNow).value, None)
  {
    hide BlockAutomaticCharging, ForceFinishAction, GoodRow, Plain;
    var t := s.attempts[id];
    var s1 := UpdateAttempt(s, t.(status := AttemptStatus.ManualReview, claim := t.claim.Release())).value;
    PlainSame(s, s1);
    ForceFinishPlain(s1, a.id, ActionStatus.ManualReview, None, Some("resolution_deadline"));
    ForceFinishEffect(s1, a.id, ActionStatus.ManualReview, None, Some("resolution_deadline"));
    var s2 := ForceFinishAction(s1, a.id, ActionStatus.ManualReview, None, Some("resolution_deadline")).value;
    PlainOn(s, s1, s2, None);
    BlockPlain(s2, s2.subs[a.ref], "resolution_deadline", now, ids, txNow);
    PlainOn(s, s2, GiveUp(s, a, id, now, ids, txNow).value, None);
  }

  lemma ObserveFinishPlain(s: Store, ref: string, obs: Observation, now: Instant, ids: Ids, txNow: Instant,
        id: string, token: string, fence: int, status: ActionStatus, due: Option<Instant>, class_: Option<string>)
    requires obs.status != Status.Canceled && !obs.cancelAtPeriodEnd && Observe(s, ref, obs, now, ids, txNow).Success?
    requires FinishAction(Observe(s, ref, obs, now, ids, txNow).value, id, token, fence, status, due, class_).Success?
    ensures Plain(s,
                  FinishAction(Observe(s, ref, obs, now, ids, txNow).value, id, token, fence, status, due,
                               class_).value, None)
  {
    hide Observe, FinishAction, Plain;
    var s2 := Observe(s, ref, obs, now, ids, txNow).value;
    ObservePlain(s, ref, obs, now, ids, txNow);
    FinishPlain(s2, id, token, fence, status, due, class_);
    PlainOn(s, s2, FinishAction(s2, id, token, fence, status, due, class_).value, None);
  }

  /** The expiry at the end of a dunning. */
  function LastDue(cfg: Config, ids: Ids, now: Instant): Due {
    Some((ids.dunning, now + cfg.dunningTermination))
  }

  lemma ObservedRow(s: Store, ref: string, obs: Observation, now: Instant, ids: Ids, txNow: Instant)
    requires Observe(s, ref, obs, now, ids, txNow).Success?
    ensures ref in s.subs && ref in Observe(s, ref, obs, now, ids, txNow).value.subs
  {
    hide CommitChange, Decide, OneEvent;
    var d := Decide(s.subs[ref], obs, now).value;
    if d.Change? { CommitTables(s, false, d.next, d.event, ids, txNow); }
  }

  lemma DeclinedPlain(cfg: Config, s: Store, a: ScheduledAction, number: AttemptNumber, retryable: bool, token: string,
          fence: int, now: Instant, ids: Ids, txNow: Instant)
    requires Observe(s, a.ref, Observed(Status.PastDue), now, ids, txNow).Success?
    ensures var s2, last := Observe(s, a.ref, Observed(Status.PastDue), now, ids, txNow).value,
            LastRefusal(cfg, number, retryable);
            var r := FinishAction(s2, a.id, token, fence, if last then ActionStatus.Completed else ActionStatus.Pending,
                                  if last then None else Some(now + cfg.retryDelays[number - 1]), Some("refused"));
            r.Success? ==>
              Plain(s,
                    if last
                      then EnsureAction(r.value, NewAction(ids.dunning, a.ref, Expire, now + cfg.dunningTermination))
                      else r.value,
                    LastDue(cfg, ids, now))
  {
    hide Observe, FinishAction, EnsureAction, Plain;
    var s2, last := Observe(s, a.ref, Observed(Status.PastDue), now, ids, txNow).value,
        LastRefusal(cfg, number, retryable);
    var status := if last then ActionStatus.Completed else ActionStatus.Pending;
    var due := if last then None else Some(now + cfg.retryDelays[number - 1]);
    var r := FinishAction(s2, a.id, token, fence, status, due, Some("refused"));
    if r.Success? {
      ObserveFinishPlain(s, a.ref, Observed(Status.PastDue), now, ids, txNow, a.id, token, fence, status, due,
                         Some("refused"));
      PlainFor(s, r.value, LastDue(cfg, ids, now));
      ObservedRow(s, a.ref, Observed(Status.PastDue), now, ids, txNow);
      FinishEffect(s2, a.id, token, fence, status, due, Some("refused"));
      EnsurePlain(r.value, a.ref, ids.dunning, now + cfg.dunningTermination);
      PlainOn(s, r.value, EnsureAction(r.value, NewAction(ids.dunning, a.ref, Expire, now + cfg.dunningTermination)),
              LastDue(cfg, ids, now));
    }
  }

  lemma SettlePlain(s: Store, cfg: Config, a: ScheduledAction, id: string, token: string, fence: int, reply: Reply,
          now: Instant, ids: Ids, txNow: Instant)
    requires hide *; SettleCharge(s, cfg, a, id, token, fence, reply, now, ids, txNow).Success?
             && (id in s.attempts ==> s.attempts[id].id == id)
    ensures Plain(s, SettleCharge(s, cfg, a, id, token, fence, reply, now, ids, txNow).value, LastDue(cfg, ids, now))
  {
    hide Observe, FinishAction, EnsureAction, IsRetryableRefusal, Plain, LastDue;
    var cur, due := s.attempts[id], LastDue(cfg, ids, now);
    var s' := SettleCharge(s, cfg, a, id, token, fence, reply, now, ids, txNow).value;
    PlainSame(s, s);
    if !cur.claim.Owned(token, fence) {
      PlainFor(s, s', due);
    } else {
      match reply
      case Unclear =>
        var s1 := UpdateAttempt(s, cur.(status := AttemptStatus.Uncertain, claim := cur.claim.Release())).value;
        PlainSame(s, s1);
        FinishPlain(s1, a.id, token, fence, ActionStatus.Uncertain, Some(RecheckAt(cur, now)), Some("uncertain"));
        PlainOn(s, s1, s', None);
        PlainFor(s, s', due);
      case Authorised(paymentId) =>
        var s1 := UpdateAttempt(s,
                                cur.(status := Authorized, paymentId := Some(paymentId), completedAt := Some(now),
                                     claim := cur.claim.Release())).value;
        PlainSame(s, s1);
        ObserveFinishPlain(s1, a.ref, PaidPeriod(cur.periodStart, cur.periodEnd), now, ids, txNow, a.id, token, fence,
                           ActionStatus.Completed,
                           None, None);
        PlainOn(s, s1, s', None);
        PlainFor(s, s', due);
      case Declined(paymentId, code) =>
        var s1 := UpdateAttempt(s, DeclinedAttempt(cur, paymentId, code, now)).value;
        PlainSame(s, s1);
        DeclinedPlain(cfg, s1, a, cur.number, IsRetryableRefusal(code), token, fence, now, ids, txNow);
        PlainOn(s, s1, s', due);
    }
  }

  // ---------- outcomes learned from outside ----------

  lemma RecordAuthorisedPlain(s: Store, t: ChargeAttempt, unblock: bool, now: Instant, ids: Ids, txNow: Instant)
    requires GoodSubs(s) && RecordAuthorised(s, t, unblock, now, ids, txNow).Success?
    ensures hide *; Plain(s, RecordAuthorised(s, t, unblock, now, ids, txNow).value, None)
  {
    hide Decide, Commit, ForceFinishAction, GoodRow, Plain;
    var s1 := UpdateAttempt(s, t.(status := Authorized)).value;
    PlainSame(s, s1);
    ForceFinishPlain(s1, t.actionId, ActionStatus.Completed, None, None);
    ForceFinishEffect(s1, t.actionId, ActionStatus.Completed, None, None);
    var s2 := ForceFinishAction(s1, t.actionId, ActionStatus.Completed, None, None).value;
    PlainOn(s, s1, s2, None);
    var row := s2.subs[t.ref];
    var sub := if unblock then row.(chargingBlocked := false, blockReason := None) else row;
    var s' := RecordAuthorised(s, t, unblock, now, ids, txNow).value;
    var d := Decide(sub, PaidPeriod(t.periodStart, t.periodEnd), now).value;
    if d.Noop? {
      PlainSame(s2, s2);
      if unblock { PlainRow(s2, s', sub); }
    } else {
      DecisionPlain(s2, sub, PaidPeriod(t.periodStart, t.periodEnd), now, ids, txNow);
    }
    PlainOn(s, s2, s', None);
  }

  lemma RecordRefusedPlain(s: Store, cfg: Config, t: ChargeAttempt, now: Instant, ids: Ids, txNow: Instant)
    requires RecordRefused(s, cfg, t, now, ids, txNow).Success?
    ensures hide *; Plain(s, RecordRefused(s, cfg, t, now, ids, txNow).value, LastDue(cfg, ids, now))
  {
    hide Observe, ForceFinishAction, EnsureAction, RetryableCode, Plain;
    var s1 := UpdateAttempt(s, t.(status := Refused)).value;
    PlainSame(s, s1);
    ObservePlain(s1, t.ref, Observed(Status.PastDue), now, ids, txNow);
    ObservedRow(s1, t.ref, Observed(Status.PastDue), now, ids, txNow);
    var s2 := Observe(s1, t.ref, Observed(Status.PastDue), now, ids, txNow).value;
    PlainOn(s, s1, s2, None);
    var last := LastRefusal(cfg, t.number, RetryableCode(t.refusalCode));
    var status := if last then ActionStatus.Completed else ActionStatus.Pending;
    var due := if last then None else Some(now + cfg.retryDelays[t.number - 1]);
    ForceFinishPlain(s2, t.actionId, status, due, Some("refused"));
    ForceFinishEffect(s2, t.actionId, status, due, Some("refused"));
    var s3 := ForceFinishAction(s2, t.actionId, status, due, Some("refused")).value;
    PlainOn(s, s2, s3, None);
    PlainFor(s, s3, LastDue(cfg, ids, now));
    EnsurePlain(s3, t.ref, ids.dunning, now + cfg.dunningTermination);
    PlainOn(s, s3, EnsureAction(s3, NewAction(ids.dunning, t.ref, Expire, now + cfg.dunningTermination)),
            LastDue(cfg, ids, now));
  }

  lemma GivenUpPlain(s: Store, t: ChargeAttempt, now: Instant, ids: Ids, txNow: Instant)
    requires hide *; var s1 := s.(attempts := s.attempts[t.id := t]);
             var r := ForceFinishAction(s1, t.actionId, ActionStatus.Canceled, None, Some("operator"));
             r.Success? && Observe(r.value, t.ref, IMMEDIATE_EXPIRY, now, ids, txNow).Success?
    ensures var s1 := s.(attempts := s.attempts[t.id := t]);
            var s2 := ForceFinishAction(s1, t.actionId, ActionStatus.Canceled, None, Some("operator")).value;
            Plain(s, Observe(s2, t.ref, IMMEDIATE_EXPIRY, now, ids, txNow).value, None)
  {
    hide Observe, ForceFinishAction, Plain;
    var s1 := s.(attempts := s.attempts[t.id := t]);
    PlainSame(s, s1);
    ForceFinishPlain(s1, t.actionId, ActionStatus.Canceled, None, Some("operator"));
    var s2 := ForceFinishAction(s1, t.actionId, ActionStatus.Canceled, None, Some("operator")).value;
    PlainOn(s, s1, s2, None);
    ObservePlain(s2, t.ref, IMMEDIATE_EXPIRY, now, ids, txNow);
    PlainOn(s, s2, Observe(s2, t.ref, IMMEDIATE_EXPIRY, now, ids, txNow).value, None);
  }

  lemma ResolvePlain(env: Environment, s: Store, id: string, outcome: Resolution, reason: string, actor: string,
          paymentId: string, now: Instant, ids: Ids, txNow: Instant)
    requires GoodSubs(s) && ResolveAttempt(s, env.cfg, id, outcome, reason, actor, paymentId, now, ids, txNow).Success?
    ensures hide *; Plain(s, ResolveAttempt(s, env.cfg, id, outcome, reason, actor, paymentId, now, ids, txNow).value,
                  LastDue(env.cfg, ids, now))
  {
    hide GoodSubs, Observe, ForceFinishAction, RecordAuthorised, RecordRefused, Plain, LastDue;
    var t0 := s.attempts[id];
    var s1 := InsertAudit(s,
                          Audit("resolve-attempt", id, if actor == "" then "cli" else actor,
                                if reason == "" then "operator" else reason));
    PlainSame(s, s1);
    var u := t0.(claim := t0.claim.Release(), completedAt := Some(now),
                 paymentId := if paymentId != "" then Some(paymentId) else t0.paymentId);
    assert GoodSubs(s1) by { SameGoodSubs(s, s1); }
    var s' := ResolveAttempt(s, env.cfg, id, outcome, reason, actor, paymentId, now, ids, txNow).value;
    match outcome {
      case Paid =>
        RecordAuthorisedPlain(s1, u, true, now, ids, txNow);
        PlainFor(s1, s', LastDue(env.cfg, ids, now));
      case Declined => RecordRefusedPlain(s1, env.cfg, u, now, ids, txNow);
      case GivenUp =>
        GivenUpPlain(s1, u.(status := AttemptStatus.Canceled), now, ids, txNow);
        PlainFor(s1, s', LastDue(env.cfg, ids, now));
      case Unknown =>
    }
    PlainOn(s, s1, s', LastDue(env.cfg, ids, now));
  }

  // ---------- transactions that may cancel ----------

  /** Subscription `ref` becomes canceled. */
  ghost predicate Cancels(s: Store, s': Store, ref: string) {
    && ref in s'.subs && s'.subs[ref].status == Status.Canceled
    && !(ref in s.subs && s.subs[ref].status == Status.Canceled)
  }

  /** No renewal of the subscription waits to be charged. */
  ghost predicate NoRenewalWaits(s: Store, ref: string) {
    forall id :: id in s.actions && s.actions[id].ref == ref && s.actions[id].kind.Renew? ==>
      !s.actions[id].status.Pending? && !s.actions[id].status.Uncertain?
  }

  /** A subscription that becomes canceled has no renewal waiting any more, and gets its expiry if and only if the key
      is free or its action is still waiting. */
  ghost predicate CanceledRightly(s: Store, s': Store, ref: string) {
    Cancels(s, s', ref) ==>
      NoRenewalWaits(s', ref)
      && (ExpiryScheduled(s', ref, s'.subs[ref].periodEnd) <==> KeyIsFreeOrWaiting(s,
          KeyOf(ref, Expire, s'.subs[ref].periodEnd)))
  }

  /** A new expiry ends the period of a canceled subscription, or a dunning. */
  ghost predicate Accounted(s: Store, s': Store, id: string, due: Due) {
    id in s'.actions && id !in s.actions && s'.actions[id].kind.Expire? ==>
      WaitsForEnd(s', id)
      && (due == Some((id, s'.actions[id].target)) || EndsPeriod(s'.subs[s'.actions[id].ref], s'.actions[id].target))
  }

  predicate EndsPeriod(sub: Subscription, target: Instant) {
    sub.status == Status.Canceled && sub.periodEnd == target
  }

  ghost predicate Lawful(s: Store, s': Store, due: Due) {
    (forall ref :: CanceledRightly(s, s', ref)) && (forall id :: Accounted(s, s', id, due))
  }

  lemma PlainLawful(s: Store, s': Store, due: Due)
    requires Plain(s, s', None) || Plain(s, s', due)
    ensures Lawful(s, s', due)
  {
    hide ExpiryScheduled, KeyIsFreeOrWaiting, EndsPeriod, SameAction;
  }

  lemma LawfulAfter(s: Store, s1: Store, s2: Store, due: Due)
    requires Lawful(s, s1, due) && SameWork(s1, s2)
    ensures Lawful(s, s2, due)
  {
    forall ref ensures CanceledRightly(s, s2, ref) {
      assert CanceledRightly(s, s1, ref);
    }
    forall id ensures Accounted(s, s2, id, due) {
      assert Accounted(s, s1, id, due);
    }
  }

  /** Whether an expiry is scheduled, or its key free, depends on the actions only. */
  lemma SameActionsSame(s: Store, t: Store, ref: string, end: Instant)
    requires s.actions == t.actions
    ensures ExpiryScheduled(s, ref, end) <==> ExpiryScheduled(t, ref, end)
    ensures KeyIsFreeOrWaiting(s, KeyOf(ref, Expire, end)) <==> KeyIsFreeOrWaiting(t, KeyOf(ref, Expire, end))
  {
  }

  lemma CancellationLawful(s: Store, next: Subscription, ids: Ids, now: Instant, due: Due)
    requires GoodActions(s) && CommitChange(s, false, next, WasCanceled, ids, now).Success? && ids.action !in s.actions
             && next.status == Status.Canceled
    ensures Lawful(s, CommitChange(s, false, next, WasCanceled, ids, now).value, due)
  {
    hide GoodActions, CommitChange, FollowUp, BuildCallback, ValidateCallback, NewEvent, Spared, ExpiryScheduled,
         KeyIsFreeOrWaiting;
    CommitEffect(s, false, next, WasCanceled, ids, now);
    var s' := CommitChange(s, false, next, WasCanceled, ids, now).value;
    var s2 := s.(subs := s'.subs, outbound := s'.outbound);
    CancellationSchedulesExpiry(s2, next, ids.action);
    SameActionsSame(s, s2, next.ref, next.periodEnd);
    SameActionsSame(FollowUp(s2, WasCanceled, next, ids.action), s', next.ref, next.periodEnd);
    assert GoodActions(s2) by { Dunning.SameActionsGood(s, s2); }
    CancellationStops(s2, next, ids.action);
    SameWaiting(FollowUp(s2, WasCanceled, next, ids.action), s', next.ref);
  }

  /** The follow-up work of a cancellation leaves no renewal waiting; that of an expiry leaves no action waiting. */
  lemma CancellationStops(s: Store, next: Subscription, newId: string)
    requires GoodActions(s)
    ensures NoRenewalWaits(FollowUp(s, WasCanceled, next, newId), next.ref)
    ensures var s' := FollowUp(s, WasExpired, next, newId);
            forall id :: id in s'.actions && s'.actions[id].ref == next.ref ==>
              !s'.actions[id].status.Pending? && !s'.actions[id].status.Uncertain?
  {
    hide FollowUp, NoSuchKey;
    FollowUpShape(s, WasCanceled, next, newId);
    FollowUpShape(s, WasExpired, next, newId);
    forall id | id in s.actions && s.actions[id].key == KeyOf(next.ref, Expire, next.periodEnd)
                && s.actions[id].kind.Renew?
      ensures FollowUp(s, WasCanceled, next, newId).actions[id] == s.actions[id]
    {
    }
  }

  lemma SameWaiting(s: Store, s': Store, ref: string)
    requires NoRenewalWaits(s, ref) && s'.actions == s.actions
    ensures NoRenewalWaits(s', ref)
  {
  }

  lemma Cancellation(sub: Subscription, obs: Observation, at: Instant)
    requires GoodRow(sub)
    ensures var d := Decide(sub, obs, at);
            d.Success? && d.value.Change? ==> (d.value.next.status == Status.Canceled <==> d.value.event == WasCanceled)
  {
    hide Decide, GoodRow;
    if Decide(sub, obs, at).Success? && Decide(sub, obs, at).value.Change? { DecideAdvances(sub, obs, at); }
  }

  lemma DecisionLawful(s: Store, sub: Subscription, obs: Observation, at: Instant, ids: Ids, now: Instant, due: Due)
    requires GoodActions(s) && GoodRow(sub) && ids.action !in s.actions
    requires Decide(sub, obs, at).Success? && Commit(s, Decide(sub, obs, at).value, ids, now).Success?
    ensures Lawful(s, Commit(s, Decide(sub, obs, at).value, ids, now).value, due)
  {
    hide GoodActions, CommitChange, Decide, Plain, GoodRow, Lawful;
    Cancellation(sub, obs, at);
    var d := Decide(sub, obs, at).value;
    if d.Noop? {
      PlainSame(s, s);
      PlainLawful(s, s, due);
    } else if d.event == WasCanceled {
      CancellationLawful(s, d.next, ids, now, due);
    } else {
      ChangePlain(s, false, d.next, d.event, ids, now);
      PlainLawful(s, CommitChange(s, false, d.next, d.event, ids, now).value, due);
    }
  }

  lemma ObserveLawful(s: Store, ref: string, obs: Observation, at: Instant, ids: Ids, now: Instant, due: Due)
    requires GoodActions(s) && GoodSubs(s) && ids.action !in s.actions && Observe(s, ref, obs, at, ids, now).Success?
    ensures Lawful(s, Observe(s, ref, obs, at, ids, now).value, due)
  {
    hide GoodActions, Commit, Decide, Lawful, GoodRow;
    DecisionLawful(s, s.subs[ref], obs, at, ids, now, due);
  }

  lemma CreatePlain(s: Store, co: Checkout, sub: Subscription, ids: Ids, txNow: Instant)
    requires CreateSubscription(s, co, sub, ids, txNow).Success? && sub.status != Status.Canceled
    ensures Plain(s, CreateSubscription(s, co, sub, ids, txNow).value, None)
  {
    hide CommitChange, Plain;
    CreatedCommits(s, co, sub, ids, txNow);
    var s1, s' := CommitChange(s, true, sub, Activated, ids, txNow).value,
        CreateSubscription(s, co, sub, ids, txNow).value;
    ChangePlain(s, true, sub, Activated, ids, txNow);
    PlainSame(s1, s');
    PlainOn(s, s1, s', None);
  }

  lemma ActivatePlain(s: Store, id: string, now: Instant, ids: Ids, txNow: Instant)
    requires ActivateCheckout(s, id, now, ids, txNow).Success?
    ensures Plain(s, ActivateCheckout(s, id, now, ids, txNow).value, None)
  {
    hide CreateSubscription, AddCalendarMonths, Plain;
    PlainSame(s, s);
    var co := s.checkouts[id];
    if co.subscriptionRef.None? {
      CreatePlain(s, co,
                  FirstActivation(co, ids.subscription, Status.Active, now, AddCalendarMonths(now, 1), now, None, None,
                                  None, co.shopperRef), ids,
                  txNow);
    }
  }

  lemma ReplacePlain(s: Store, ref: string, ev: NormalizedEvent)
    requires GoodSubs(s) && ReplacePaymentMethod(s, ref, ev).Success?
    ensures Plain(s, ReplacePaymentMethod(s, ref, ev).value.0, None)
  {
    hide GoodRow, Plain;
    PlainSame(s, s);
    if ev.paymentMethod != "" && s.subs[ref].status != Status.Expired {
      var sub := WithPaymentMethod(s.subs[ref], ev.paymentMethod).(chargingBlocked := false, blockReason := None);
      var s1 := UpdateSubscription(s, sub).value;
      PlainRow(s, s1, sub);
      var s' := ReplacePaymentMethod(s, ref, ev).value.0;
      PlainSame(s1, s');
      PlainOn(s, s1, s', None);
    }
  }

  lemma AdyenInitialPlain(s: Store, ev: NormalizedEvent, now: Instant, ids: Ids, txNow: Instant)
    requires GoodSubs(s) && ApplyAdyenInitial(s, ev, now, ids, txNow).Success?
    ensures hide *; Plain(s, ApplyAdyenInitial(s, ev, now, ids, txNow).value.0, None)
  {
    hide CreateSubscription, AddCalendarMonths, Plain, ReplacePaymentMethod, GoodSubs;
    PlainSame(s, s);
    if ev.success && ev.checkoutId != "" {
      var co := s.checkouts[ev.checkoutId];
      if co.status.Completed? && co.subscriptionRef.Some? {
        ReplacePlain(s, co.subscriptionRef.value, ev);
      } else {
        var sub := FirstActivation(co, ids.subscription, Status.Active, now, AddCalendarMonths(now, 1), now, None, None,
                                   NonEmpty(ev.paymentId), co.shopperRef);
        CreatePlain(s, co, WithPaymentMethod(sub, ev.paymentMethod), ids, txNow);
      }
    }
  }

  lemma StripeLawful(s: Store, cfg: Config, ev: NormalizedEvent, state: Option<SubscriptionState>, hits: Hits,
          now: Instant, ids: Ids, txNow: Instant, due: Due)
    requires GoodActions(s) && GoodSubs(s) && ids.action !in s.actions
             && ApplyStripe(s, cfg, ev, state, hits, now, ids, txNow).Success?
    ensures hide *; Lawful(s, ApplyStripe(s, cfg, ev, state, hits, now, ids, txNow).value.0, due)
  {
    hide GoodActions, Decide, Commit, CreateSubscription, StripeSubject, StripeObservation, GoodRow, Lawful, Plain;
    PlainSame(s, s);
    PlainLawful(s, s, due);
    if state.Some? {
      var st := state.value;
      var subject := StripeSubject(ev, st, hits);
      if subject.Some? {
        var sub := s.subs[subject.value];
        DecisionLawful(s, sub, StripeObservation(cfg, sub, st).value, now, ids, txNow, due);
      } else if ev.checkoutId in s.checkouts && (st.status.Active? || st.status.Trialing?) && ev.checkoutId != "" {
        var co := s.checkouts[ev.checkoutId];
        var sub := FirstActivation(co, ids.subscription, st.status, st.periodStart, st.periodEnd, now,
                                   NonEmpty(st.customerId), NonEmpty(st.subId), None, None);
        CreatePlain(s, co, sub, ids, txNow);
        PlainLawful(s, CreateSubscription(s, co, sub, ids, txNow).value, due);
      }
    }
  }

  lemma AdyenRenewalPlain(s: Store, cfg: Config, ev: NormalizedEvent, hits: Hits, now: Instant, ids: Ids,
          txNow: Instant)
    requires GoodSubs(s) && ApplyAdyenRenewal(s, cfg, ev, hits, now, ids, txNow).Success?
    ensures hide *; Plain(s, ApplyAdyenRenewal(s, cfg, ev, hits, now, ids, txNow).value.0, LastDue(cfg, ids, now))
  {
    hide RecordAuthorised, RecordRefused, GoodSubs, Plain, LastDue;
    var due, s' := LastDue(cfg, ids, now), ApplyAdyenRenewal(s, cfg, ev, hits, now, ids, txNow).value.0;
    PlainSame(s, s);
    var t0 := s.attempts[hits.byReference.value];
    if t0.status.Refused? || t0.status.Canceled? || t0.status.ManualReview? || t0.status.Authorized? {
      PlainFor(s, s', due);
    } else {
      var t := t0.(claim := t0.claim.Release(), completedAt := Some(now),
                   paymentId := if ev.paymentId != "" then Some(ev.paymentId) else t0.paymentId);
      if ev.success {
        RecordAuthorisedPlain(s, t, false, now, ids, txNow);
        PlainFor(s, s', due);
      } else {
        RecordRefusedPlain(s, cfg,
                           t.(refusalCode := if ev.refusalCode != "" then Some(ev.refusalCode) else t0.refusalCode),
                               now, ids, txNow);
      }
    }
  }

  lemma ObservationLawful(s: Store, cfg: Config, ev: NormalizedEvent, state: Option<SubscriptionState>, hits: Hits,
          now: Instant, ids: Ids, txNow: Instant)
    requires GoodActions(s) && GoodSubs(s) && ids.action !in s.actions
             && ApplyObservation(s, cfg, ev, state, hits, now, ids, txNow).Success?
    ensures hide *;
            Lawful(s, ApplyObservation(s, cfg, ev, state, hits, now, ids, txNow).value.0, LastDue(cfg, ids, now))
  {
    hide GoodActions, ApplyStripe, ApplyAdyenInitial, ApplyAdyenRenewal, Observe, GoodSubs, Lawful, Plain;
    var due, s' := LastDue(cfg, ids, now), ApplyObservation(s, cfg, ev, state, hits, now, ids, txNow).value.0;
    match ev.kind
    case StripeCheckout => StripeLawful(s, cfg, ev, state, hits, now, ids, txNow, due);
    case StripeSubscription => StripeLawful(s, cfg, ev, state, hits, now, ids, txNow, due);
    case AdyenInitial =>
      AdyenInitialPlain(s, ev, now, ids, txNow);
      PlainLawful(s, s', due);
    case AdyenRenewal =>
      AdyenRenewalPlain(s, cfg, ev, hits, now, ids, txNow);
      PlainLawful(s, s', due);
    case AdyenContract => ObserveLawful(s, ContractSubject(s, hits).value, CANCELLATION, now, ids, txNow, due);
    case AdyenOperational =>
      PlainSame(s, s);
      PlainLawful(s, s, due);
  }

  lemma CommitEventLawful(s: Store, cfg: Config, ev: NormalizedEvent, lease: EventLease,
          state: Option<SubscriptionState>, hits: Hits, now: Instant, ids: Ids, txNow: Instant)
    requires GoodActions(s) && GoodSubs(s) && ids.action !in s.actions
             && CommitEvent(s, cfg, ev, lease, state, hits, now, ids, txNow).Success?
    ensures hide *;
            Lawful(s, CommitEvent(s, cfg, ev, lease, state, hits, now, ids, txNow).value, LastDue(cfg, ids, now))
  {
    hide GoodActions, ApplyObservation, CloseEvent, StripeSubject, GoodSubs, Lawful, Plain;
    var due := LastDue(cfg, ids, now);
    PlainSame(s, s);
    PlainLawful(s, s, due);
    if StillOwned(s, ev, lease) {
      var s' := CommitEvent(s, cfg, ev, lease, state, hits, now, ids, txNow).value;
      match ApplyObservation(s, cfg, ev, state, hits, now, ids, txNow) {
        case Success((s1, r)) =>
          ObservationLawful(s, cfg, ev, state, hits, now, ids, txNow);
          CloseSame(s1, ev, lease, Processed, r, now);
          LawfulAfter(s, s1, s', due);
        case Failure(e) =>
          if e == UnknownStripePrice && state.Some? {
            CloseSame(s, ev, lease, Quarantined, StripeSubject(ev, state.value, hits), now);
          } else {
            CloseSame(s, ev, lease, ProcessingState.ManualReview, None, now);
          }
          LawfulAfter(s, s, s', due);
      }
    }
  }

  // ---------- steps ----------

  /** The expiry that a step schedules when a dunning ends, if it schedules one. */
  function DunningExpiry(env: Environment, sys: System, step: Step): Due {
    match step
    case SettleStep(w, ids, _) =>
      if w in sys.workers && sys.workers[w].Answered? then LastDue(env.cfg, ids, sys.workers[w].now) else None
    case ResolveStep(_, _, _, _, _, now, ids, _) => LastDue(env.cfg, ids, now)
    case CommitEventStep(_, _, now, ids, _) => LastDue(env.cfg, ids, now)
    case _ => None
  }

  lemma SettleStepPlain(env: Environment, sys: System, step: Step)
    requires GoodAttempts(sys.db) && Enabled(env, sys, step) && step.SettleStep?
    ensures hide *; Plain(sys.db, DbAfter(env, sys, step), DunningExpiry(env, sys, step))
  {
    hide SettleCharge, Plain, Belongs;
    var s, k := sys.db, sys.workers[step.w];
    PlainSame(s, s);
    PlainFor(s, s, DunningExpiry(env, sys, step));
    if SettleCharge(s, env.cfg, k.action, k.attempt.id, k.token, k.action.claim.fence, k.reply, k.now, step.ids,
                    step.txNow).Success? {
      SettlePlain(s, env.cfg, k.action, k.attempt.id, k.token, k.action.claim.fence, k.reply, k.now, step.ids,
                  step.txNow);
    }
  }

  lemma ResolveStepPlain(env: Environment, sys: System, step: Step)
    requires GoodSubs(sys.db) && Enabled(env, sys, step) && step.ResolveStep?
    ensures hide *; Plain(sys.db, DbAfter(env, sys, step), DunningExpiry(env, sys, step))
  {
    hide ResolveAttempt, Plain, GoodSubs;
    var s := sys.db;
    PlainSame(s, s);
    PlainFor(s, s, DunningExpiry(env, sys, step));
    if ResolveAttempt(s, env.cfg, step.id, step.outcome, step.reason, step.actor, step.paymentId, step.now, step.ids,
                      step.txNow).Success? {
      ResolvePlain(env, s, step.id, step.outcome, step.reason, step.actor, step.paymentId, step.now, step.ids,
                   step.txNow);
    }
  }

  lemma PickUncertainStepPlain(env: Environment, sys: System, step: Step)
    requires GoodSubs(sys.db) && Enabled(env, sys, step) && step.PickUncertainStep?
    ensures hide *; Plain(sys.db, DbAfter(env, sys, step), None)
  {
    hide GiveUp, EarliestAction, FirstWith, Plain, GoodSubs;
    var s := sys.db;
    PlainSame(s, s);
    PickedAction(s, step.now, ActionStatus.Uncertain, Renew, step.id);
    InFlightOpen(s, step.id, step.attemptId);
    if PastDeadline(s.attempts[step.attemptId], step.now)
         && GiveUp(s, s.actions[step.id], step.attemptId, step.now, step.ids, step.txNow).Success? {
      GiveUpPlain(s, s.actions[step.id], step.attemptId, step.now, step.ids, step.txNow);
    }
  }

  lemma PrepareTables(s: Store, cfg: Config, a: ScheduledAction, choice: Choice, attemptId: string, reference: string)
    ensures var r := EnsurePrepared(s, cfg, a, choice, attemptId, reference); r.Success? ==> SameWork(s, r.value.0)
  {
    hide NewAttempt, ResolvePlan;
  }

  lemma PrepareStepPlain(env: Environment, sys: System, step: Step)
    requires Enabled(env, sys, step) && step.PrepareStep?
    ensures hide *; Plain(sys.db, DbAfter(env, sys, step), None)
  {
    hide EnsurePrepared, EarliestAction, Chooses, Plain;
    PickedAction(sys.db, step.now, ActionStatus.Pending, Renew, step.id);
    PrepareTables(sys.db, env.cfg, sys.db.actions[step.id], step.choice, step.attemptId, step.reference);
    PlainSame(sys.db, DbAfter(env, sys, step));
  }

  lemma ClaimStepPlain(env: Environment, sys: System, step: Step)
    requires Enabled(env, sys, step) && step.ClaimStep?
    ensures hide *; Plain(sys.db, DbAfter(env, sys, step), None)
  {
    hide ClaimCharge, Plain;
    var s, k := sys.db, sys.workers[step.w];
    PlainSame(s, s);
    if ClaimCharge(s, env.cfg, k.actionId, k.attemptId, step.token, step.now).Success? {
      ClaimChargePlain(s, env.cfg, k.actionId, k.attemptId, step.token, step.now);
    }
  }

  lemma ExpireStepPlain(env: Environment, sys: System, step: Step)
    requires Enabled(env, sys, step) && step.ExpireStep?
    ensures hide *; Plain(sys.db, DbAfter(env, sys, step), None)
  {
    hide RunExpire, EarliestAction, Plain;
    PlainSame(sys.db, sys.db);
    if RunExpire(sys.db, step.id, step.token, env.cfg, step.now, step.ids, step.txNow).Success? {
      RunExpirePlain(sys.db, step.id, step.token, env.cfg, step.now, step.ids, step.txNow);
    }
  }

  lemma ChargingStepPlain(env: Environment, sys: System, step: Step)
    requires GoodSubs(sys.db) && GoodAttempts(sys.db) && Enabled(env, sys, step) && Charges(step)
    ensures hide *; Plain(sys.db, DbAfter(env, sys, step), DunningExpiry(env, sys, step))
  {
    hide Enabled, DbAfter, Plain, GoodSubs, GoodAttempts, DunningExpiry;
    var due := DunningExpiry(env, sys, step);
    if step.SettleStep? {
      SettleStepPlain(env, sys, step);
    } else if step.ResolveStep? {
      ResolveStepPlain(env, sys, step);
    } else if step.PickUncertainStep? {
      PickUncertainStepPlain(env, sys, step);
      PlainFor(sys.db, DbAfter(env, sys, step), due);
    } else if step.PrepareStep? {
      PrepareStepPlain(env, sys, step);
      PlainFor(sys.db, DbAfter(env, sys, step), due);
    } else if step.ClaimStep? {
      ClaimStepPlain(env, sys, step);
      PlainFor(sys.db, DbAfter(env, sys, step), due);
    } else {
      ExpireStepPlain(env, sys, step);
      PlainFor(sys.db, DbAfter(env, sys, step), due);
    }
  }

  lemma CommitEventStepLawful(env: Environment, sys: System, step: Step)
    requires GoodActions(sys.db) && GoodSubs(sys.db) && Enabled(env, sys, step) && step.CommitEventStep?
    ensures hide *; Lawful(sys.db, DbAfter(env, sys, step), DunningExpiry(env, sys, step))
  {
    hide GoodActions, CommitEvent, HitsAgree, OwnCheckout, Lawful, Plain, GoodSubs;
    var s, k := sys.db, sys.workers[step.w];
    PlainSame(s, s);
    PlainLawful(s, s, DunningExpiry(env, sys, step));
    if CommitEvent(s, env.cfg, k.ev, k.lease, k.state, step.hits, step.now, step.ids, step.txNow).Success? {
      CommitEventLawful(s, env.cfg, k.ev, k.lease, k.state, step.hits, step.now, step.ids, step.txNow);
    }
  }

  lemma ActivateStepPlain(env: Environment, sys: System, step: Step)
    requires Enabled(env, sys, step) && step.ActivateStep?
    ensures hide *; Plain(sys.db, DbAfter(env, sys, step), None)
  {
    hide ActivateCheckout, Plain;
    PlainSame(sys.db, sys.db);
    if ActivateCheckout(sys.db, step.id, step.now, step.ids, step.txNow).Success? {
      ActivatePlain(sys.db, step.id, step.now, step.ids, step.txNow);
    }
  }

  lemma KeptLawful(s: Store, ref: string, obs: Observation, at: Instant, ids: Ids, now: Instant, due: Due)
    requires GoodActions(s) && GoodSubs(s) && ids.action !in s.actions
    ensures Lawful(s, KeptStore(s, Observe(s, ref, obs, at, ids, now)), due)
  {
    hide GoodActions, Observe, Lawful, Plain, GoodSubs;
    PlainSame(s, s);
    PlainLawful(s, s, due);
    if Observe(s, ref, obs, at, ids, now).Success? { ObserveLawful(s, ref, obs, at, ids, now, due); }
  }

  lemma OperatorStepLawful(env: Environment, sys: System, step: Step, due: Due)
    requires GoodActions(sys.db) && GoodSubs(sys.db) && Enabled(env, sys, step)
             && (step.CancelStep? || step.ExpireNowStep?)
    ensures hide *; Lawful(sys.db, DbAfter(env, sys, step), due)
  {
    hide GoodActions, Observe, Lawful, GoodSubs;
    if step.CancelStep? {
      KeptLawful(sys.db, step.ref, CANCELLATION, step.now, step.ids, step.txNow, due);
    } else {
      KeptLawful(sys.db, step.ref, IMMEDIATE_EXPIRY, step.now, step.ids, step.txNow, due);
    }
  }

  /** Every step: a subscription that becomes canceled gets its expiry unless the key is taken, and a new expiry ends
      the period of a canceled subscription or the dunning that the step gave up. */
  lemma StepLawful(env: Environment, sys: System, step: Step)
    requires Safe(env, sys) && Enabled(env, sys, step)
    ensures hide *; Lawful(sys.db, DbAfter(env, sys, step), DunningExpiry(env, sys, step))
  {
    hide ChargeInv, Bindings.Bound, Ledger.LedgerInv, WorkersAgree, Enabled, DbAfter, Plain, Lawful, GoodSubs,
         GoodActions, GoodAttempts, TruthfulAttempts, NotAhead, DunningExpiry;
    var due := DunningExpiry(env, sys, step);
    Basics(env, sys.db, None);
    if Charges(step) {
      ChargingStepPlain(env, sys, step);
      PlainLawful(sys.db, DbAfter(env, sys, step), due);
    } else if Aside(step) {
      AsideTables(env, sys, step);
      PlainSame(sys.db, DbAfter(env, sys, step));
      PlainLawful(sys.db, DbAfter(env, sys, step), due);
    } else if step.CommitEventStep? {
      CommitEventStepLawful(env, sys, step);
    } else if step.ActivateStep? {
      ActivateStepPlain(env, sys, step);
      PlainLawful(sys.db, DbAfter(env, sys, step), due);
    } else {
      OperatorStepLawful(env, sys, step, due);
    }
  }
}
