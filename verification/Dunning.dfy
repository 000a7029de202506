/**
 * What a refused charge leaves behind. Whoever learns of a refusal, the charging worker, a webhook or an operator, the
 * action waits for its next attempt, or, after the last refusal, it is finished and the subscription gets an expiry,
 * unless an action that is done or withdrawn has taken the key of that expiry.
 */
module Dunning {
  import opened Wrappers
  import opened Calendar
  import opened Protocol
  import opened Model
  import opened Transition
  import opened Engine
  import opened Scheduler
  import opened System
  import opened Effects
  import opened Promises
  import opened ChargeSafety
  import opened ChargeSteps
  import opened ChargeOutcomes
  import opened ChargeRefusals
  import opened ChargeEvents
  import opened StepSafety
  import BookSteps
  import Bindings
  import Ledger

  // ---------- what is to be shown ----------

  /** Between two stores attempt `t` is refused. */
  predicate Refuses(s: Store, s': Store, t: string) {
    t in s.attempts && t in s'.attempts && !s.attempts[t].status.Refused? && s'.attempts[t].status.Refused?
  }

  /** Whether a refused attempt ends the dunning. */
  predicate IsLast(cfg: Config, t: ChargeAttempt) {
    LastRefusal(cfg, t.number, RetryableCode(t.refusalCode))
  }

  /** When the subscription is to expire after the last refusal. */
  function DunningEnd(cfg: Config, t: ChargeAttempt): Instant
    requires t.completedAt.Some?
  {
    t.completedAt.value + cfg.dunningTermination
  }

  /** The action waits for the next attempt, unless it was finished before. */
  predicate DunningGoesOn(a: ScheduledAction, b: ScheduledAction, due: Instant) {
    if Claimable(a.status) then b.status.Pending? && b.dueAt == due && b.claim.token.None? && SameAction(a, b)
    else b == a
  }

  /** The action is finished, and the expiry is pending if and only if its key was free or its action pending. */
  ghost predicate DunningEnds(s: Store, s': Store, actionId: string, ref: string, end: Instant) {
    && actionId in s'.actions && !Claimable(s'.actions[actionId].status)
    && (ExpiryScheduled(s', ref, end) <==> KeyIsFreeOrWaiting(s, KeyOf(ref, Expire, end)))
  }

  /** What is done about a refused attempt. */
  ghost predicate Handled(cfg: Config, s: Store, s': Store, t: string)
    requires t in s'.attempts
  {
    var u := s'.attempts[t];
    && u.completedAt.Some? && u.actionId in s.actions && u.actionId in s'.actions
    && if IsLast(cfg, u) then DunningEnds(s, s', u.actionId, u.ref, DunningEnd(cfg, u))
       else DunningGoesOn(s.actions[u.actionId], s'.actions[u.actionId],
                          u.completedAt.value + cfg.retryDelays[u.number - 1])
  }

  /** A renewal that can be claimed. */
  predicate Renewable(s: Store, id: string) {
    id in s.actions && s.actions[id].kind.Renew? && Claimable(s.actions[id].status)
  }

  predicate InArrears(s: Store, ref: string) {
    ref in s.subs && s.subs[ref].status == Status.PastDue
  }

  /** A renewal can still be claimed, or was handed over, or its last attempt was refused. */
  ghost predicate Remains(cfg: Config, s: Store, s': Store, id: string) {
    && id in s'.actions
    && (|| Claimable(s'.actions[id].status) || s'.actions[id].status.ManualReview?
        || exists t :: Refuses(s, s', t) && IsLast(cfg, s'.attempts[t]) && s'.attempts[t].actionId == id)
  }

  /** Every refusal is handled, and no renewal of a subscription that is past due is dropped for another reason. */
  ghost predicate Dealt(cfg: Config, s: Store, s': Store) {
    && (forall t :: Refuses(s, s', t) ==> Handled(cfg, s, s', t))
    && (forall id :: Renewable(s, id) && InArrears(s', s.actions[id].ref) ==> Remains(cfg, s, s', id))
  }

  /** A waiting renewal is left alone or finished, no other one comes to wait, and a finished one stays finished. */
  predicate StillWaits(a: ScheduledAction, b: ScheduledAction) {
    && SameAction(a, b) && (a.status.Pending? ==> b == a || !Claimable(b.status)) && (b.status.Pending? ==> b == a)
    && (!Claimable(a.status) ==> !Claimable(b.status))
  }

  /** A renewal waits until its period begins, or is finished. */
  predicate AtTarget(a: ScheduledAction) {
    (a.status.Pending? && a.dueAt == a.target) || !Claimable(a.status)
  }

  /** When an attempt was first submitted, and until when its outcome may stay open. */
  predicate SameTimes(t: ChargeAttempt, u: ChargeAttempt) {
    u.firstSubmittedAt == t.firstSubmittedAt && u.resolutionDeadline == t.resolutionDeadline
  }

  /** The attempts are the same, and none is submitted. */
  ghost predicate SameAttempts(s: Store, s': Store) {
    s'.attempts.Keys == s.attempts.Keys && forall t :: t in s.attempts ==> SameTimes(s.attempts[t], s'.attempts[t])
  }

  ghost predicate RefusalOf(s: Store, s': Store, id: string) {
    exists t :: Refuses(s, s', t) && s'.attempts[t].actionId == id
  }

  /** No attempt is added or submitted; a waiting renewal is left alone or finished, unless an attempt of it is refused;
      a new one waits until its period begins. */
  ghost predicate Kept(s: Store, s': Store) {
    && SameAttempts(s, s')
    && (forall id :: id in s.actions && s.actions[id].kind.Renew? ==>
          id in s'.actions && SameAction(s.actions[id], s'.actions[id])
          && (StillWaits(s.actions[id], s'.actions[id]) || RefusalOf(s, s', id)))
    && (forall id :: id in s'.actions && s'.actions[id].kind.Renew? && id !in s.actions ==> AtTarget(s'.actions[id]))
  }

  ghost predicate Dunned(cfg: Config, s: Store, s': Store) {
    Dealt(cfg, s, s') && Kept(s, s')
  }

  // ---------- transactions that learn of no refusal ----------

  /** No attempt is added or submitted, and waiting renewals are left alone or finished. */
  ghost predicate Calm(s: Store, s': Store) {
    && SameAttempts(s, s')
    && (forall id :: id in s.actions ==> id in s'.actions && SameAction(s.actions[id], s'.actions[id])
                                         && (s.actions[id].kind.Renew? ==> StillWaits(s.actions[id], s'.actions[id])))
    && (forall id :: id in s'.actions && s'.actions[id].kind.Renew? && id !in s.actions ==> AtTarget(s'.actions[id]))
  }

  lemma CalmOn(s: Store, t: Store, u: Store)
    requires Calm(s, t) && Calm(t, u)
    ensures Calm(s, u)
  {
    hide Claimable;
  }

  /** No attempt is refused. */
  ghost predicate Unrefused(s: Store, s': Store) {
    forall t :: t in s.attempts ==>
      t in s'.attempts && (s'.attempts[t].status.Refused? ==> s.attempts[t].status.Refused?)
  }

  ghost predicate NobodyRefused(s: Store, s': Store) {
    Calm(s, s') && Unrefused(s, s')
  }

  lemma NobodyRefusedOn(s: Store, t: Store, u: Store)
    requires NobodyRefused(s, t) && NobodyRefused(t, u)
    ensures NobodyRefused(s, u)
  {
    hide Calm;
    CalmOn(s, t, u);
  }

  /** Nobody is refused and renewals that can be claimed can still be. */
  ghost predicate Easy(s: Store, s': Store) {
    NobodyRefused(s, s') && forall id :: Renewable(s, id) ==> Renewable(s', id)
  }

  /** Nobody is refused, and renewals of subscriptions that are past due afterwards can still be claimed, or were handed
      over. */
  ghost predicate Mild(s: Store, s': Store) {
    && NobodyRefused(s, s')
    && forall id :: Renewable(s, id) && InArrears(s', s.actions[id].ref) ==>
         id in s'.actions && (Claimable(s'.actions[id].status) || s'.actions[id].status.ManualReview?)
  }

  lemma MildDunned(cfg: Config, s: Store, s': Store)
    requires Mild(s, s')
    ensures Dunned(cfg, s, s')
  {
    hide Handled, IsLast, Claimable;
  }

  lemma EasyMild(s: Store, s': Store)
    requires Easy(s, s')
    ensures Mild(s, s')
  {
    hide Claimable;
  }

  lemma SameEasy(s: Store, s': Store)
    requires s'.actions == s.actions && s'.attempts == s.attempts
    ensures Easy(s, s')
  {
    hide Claimable;
  }

  lemma EasyThenMild(s: Store, t: Store, u: Store)
    requires Easy(s, t) && Mild(t, u)
    ensures Mild(s, u)
  {
    NobodyRefusedOn(s, t, u);
    SameRefs(s, t);
    hide Claimable, NobodyRefused;
  }

  lemma SameRefs(s: Store, s': Store)
    requires NobodyRefused(s, s')
    ensures forall id :: id in s.actions ==> id in s'.actions && s'.actions[id].ref == s.actions[id].ref
  {
    hide StillWaits, AtTarget;
  }

  lemma MildThenEasy(s: Store, t: Store, u: Store)
    requires Mild(s, t) && t.subs == u.subs && NobodyRefused(t, u)
    requires forall id :: id in t.actions && t.actions[id].kind.Renew? ==>
               id in u.actions && u.actions[id] == t.actions[id]
    ensures Mild(s, u)
  {
    NobodyRefusedOn(s, t, u);
    SameKinds(s, t);
    hide Claimable, NobodyRefused;
  }

  lemma SameKinds(s: Store, s': Store)
    requires NobodyRefused(s, s')
    ensures forall id :: id in s.actions ==> id in s'.actions && s'.actions[id].kind == s.actions[id].kind
  {
    hide StillWaits, AtTarget;
  }

  lemma ChangeCalm(s: Store, created: bool, next: Subscription, event: EventType, ids: Ids, now: Instant)
    requires CommitChange(s, created, next, event, ids, now).Success?
    ensures NobodyRefused(s, CommitChange(s, created, next, event, ids, now).value)
  {
    hide CommitChange, FollowUp, BuildCallback, ValidateCallback, NewEvent, Spared;
    CommitEffect(s, created, next, event, ids, now);
  }

  lemma ChangeMild(s: Store, created: bool, next: Subscription, event: EventType, ids: Ids, now: Instant)
    requires CommitChange(s, created, next, event, ids, now).Success?
    requires event == WasCanceled || event == WasExpired ==> next.status != Status.PastDue
    ensures Mild(s, CommitChange(s, created, next, event, ids, now).value)
  {
    hide CommitChange, FollowUp, BuildCallback, ValidateCallback, NewEvent, Added, CanceledFrom, Claimable,
         NobodyRefused;
    CommitEffect(s, created, next, event, ids, now);
    ChangeCalm(s, created, next, event, ids, now);
  }

  lemma DecisionMild(s: Store, sub: Subscription, obs: Observation, at: Instant, ids: Ids, now: Instant)
    requires GoodRow(sub) && Decide(sub, obs, at).Success? && Commit(s, Decide(sub, obs, at).value, ids, now).Success?
    ensures Mild(s, Commit(s, Decide(sub, obs, at).value, ids, now).value)
  {
    hide CommitChange, Decide, Mild, Easy, GoodRow;
    var d := Decide(sub, obs, at).value;
    SameEasy(s, s);
    EasyMild(s, s);
    if d.Change? {
      DecideAdvances(sub, obs, at);
      ChangeMild(s, false, d.next, d.event, ids, now);
    }
  }

  lemma ObserveMild(s: Store, ref: string, obs: Observation, at: Instant, ids: Ids, now: Instant)
    requires GoodSubs(s) && Observe(s, ref, obs, at, ids, now).Success?
    ensures Mild(s, Observe(s, ref, obs, at, ids, now).value)
  {
    hide Commit, Decide, Mild, GoodRow;
    DecisionMild(s, s.subs[ref], obs, at, ids, now);
  }

  /** Only the wanted attempt changes, and it is not refused by that. */
  lemma AttemptEasy(s: Store, u: ChargeAttempt)
    requires u.id in s.attempts && !u.status.Refused? && SameTimes(s.attempts[u.id], u)
    ensures Easy(s, s.(attempts := s.attempts[u.id := u]))
  {
    hide Claimable;
  }

  predicate OldAttemptsSame(s: Store, s': Store) {
    forall t :: t in s.attempts ==> t in s'.attempts && s'.attempts[t] == s.attempts[t]
  }

  /** Preparing an attempt touches no action and no other attempt. */
  lemma PreparedActions(s: Store, cfg: Config, a: ScheduledAction, choice: Choice, attemptId: string, reference: string)
    requires EnsurePrepared(s, cfg, a, choice, attemptId, reference).Success?
    ensures var s' := EnsurePrepared(s, cfg, a, choice, attemptId, reference).value.0;
            s'.actions == s.actions && Unrefused(s, s') && OldAttemptsSame(s, s')
  {
    hide NewAttempt, ResolvePlan;
  }

  /** Taking a charge touches no other action, adds no attempt and refuses nobody. */
  lemma ClaimedActions(s: Store, cfg: Config, actionId: string, attemptId: string, token: string, now: Instant)
    requires ClaimCharge(s, cfg, actionId, attemptId, token, now).Success?
    ensures var s' := ClaimCharge(s, cfg, actionId, attemptId, token, now).value.0;
            && actionId in s.actions && actionId in s'.actions
               && s'.actions == s.actions[actionId := s'.actions[actionId]]
            && s'.actions[actionId].status.Running? && SameAction(s.actions[actionId], s'.actions[actionId])
            && s'.attempts.Keys == s.attempts.Keys && attemptId in s.attempts && Unrefused(s, s')
  {
    hide Blocked;
  }

  /** Nobody is refused and every renewal can still be claimed. */
  lemma UnrefusedDealt(cfg: Config, s: Store, s': Store)
    requires Unrefused(s, s') && forall id :: Renewable(s, id) ==> Renewable(s', id)
    ensures Dealt(cfg, s, s')
  {
    hide Handled, IsLast, Claimable;
  }

  lemma RunExpireMild(s: Store, id: string, token: string, cfg: Config, now: Instant, ids: Ids, txNow: Instant)
    requires hide *; GoodSubs(s) && id in s.actions && s.actions[id].kind.Expire?
             && RunExpire(s, id, token, cfg, now, ids, txNow).Success?
    ensures Mild(s, RunExpire(s, id, token, cfg, now, ids, txNow).value)
  {
    hide ClaimAction, Observe, FinishAction, Mild, Easy, NobodyRefused, GoodRow;
    var claimed := ClaimAction(s, id, token, now, Lease(cfg)).value;
    ClaimExpiryEasy(s, id, token, now, Lease(cfg));
    ObserveMild(claimed.0, claimed.1.ref, Observed(Status.Expired), now, ids, txNow);
    var s2 := Observe(claimed.0, claimed.1.ref, Observed(Status.Expired), now, ids, txNow).value;
    EasyThenMild(s, claimed.0, s2);
    FinishEffect(s2, id, token, claimed.1.claim.fence, ActionStatus.Completed, None, None);
    ObservedActions(claimed.0, claimed.1.ref, Observed(Status.Expired), now, ids, txNow);
    MovedCalm(s2, RunExpire(s, id, token, cfg, now, ids, txNow).value, id);
    MildThenEasy(s, s2, RunExpire(s, id, token, cfg, now, ids, txNow).value);
  }

  lemma ClaimExpiryEasy(s: Store, id: string, token: string, now: Instant, lease: int)
    requires ClaimAction(s, id, token, now, lease).Success? && s.actions[id].kind.Expire?
    ensures var s' := ClaimAction(s, id, token, now, lease).value.0;
            Easy(s, s') && s'.subs == s.subs && s'.actions.Keys == s.actions.Keys
            && forall x :: x in s.actions ==> SameAction(s.actions[x], s'.actions[x])
  {
    hide Blocked;
  }

  /** One action moves on: an expiry, or a renewal that was not waiting, or one that is finished. */
  lemma MovedCalm(s: Store, s': Store, id: string)
    requires id in s.actions && id in s'.actions && s'.actions == s.actions[id := s'.actions[id]]
             && s'.attempts == s.attempts && SameAction(s.actions[id], s'.actions[id])
    requires s.actions[id].kind.Expire? || StillWaits(s.actions[id], s'.actions[id])
    ensures NobodyRefused(s, s')
  {
    hide Claimable, AtTarget;
  }

  /** What is observed leaves the attempts alone and keeps every action what it is. */
  lemma ObservedActions(s: Store, ref: string, obs: Observation, now: Instant, ids: Ids, txNow: Instant)
    requires Observe(s, ref, obs, now, ids, txNow).Success?
    ensures var s' := Observe(s, ref, obs, now, ids, txNow).value;
            s'.attempts == s.attempts && forall x :: x in s.actions ==>
              x in s'.actions && SameAction(s.actions[x], s'.actions[x])
  {
    hide CommitChange, FollowUp, BuildCallback, ValidateCallback, NewEvent, Added, Spared, Decide;
    var d := Decide(s.subs[ref], obs, now).value;
    if d.Change? { CommitEffect(s, false, d.next, d.event, ids, txNow); }
  }

  // ---------- being past due ----------

  lemma PastDueEvent(sub: Subscription, now: Instant)
    ensures var d := Decide(sub, Observed(Status.PastDue), now);
            d.Success? && d.value.Change? ==> d.value.event == WentPastDue && d.value.next.ref == sub.ref
  {
  }

  /** Going past due touches neither actions nor attempts. */
  lemma PastDueTables(s: Store, sub: Subscription, now: Instant, ids: Ids, txNow: Instant)
    requires var d := Decide(sub, Observed(Status.PastDue), now);
             d.Success? && Commit(s, d.value, ids, txNow).Success?
    ensures var s' := Commit(s, Decide(sub, Observed(Status.PastDue), now).value, ids, txNow).value;
            s'.actions == s.actions && s'.attempts == s.attempts
  {
    hide Decide, BuildCallback, ValidateCallback, NewEvent;
    PastDueEvent(sub, now);
  }

  lemma BlockTables(s: Store, sub: Subscription, reason: string, now: Instant, ids: Ids, txNow: Instant)
    requires BlockAutomaticCharging(s, sub, reason, now, ids, txNow).Success?
    ensures var s' := BlockAutomaticCharging(s, sub, reason, now, ids, txNow).value;
            s'.actions == s.actions && s'.attempts == s.attempts
  {
    hide Decide, CommitChange;
    if sub.status != Status.PastDue { PastDueTables(s, sub, now, ids, txNow); }
  }

  lemma GiveUpMild(s: Store, a: ScheduledAction, id: string, now: Instant, ids: Ids, txNow: Instant)
    requires hide *; id in s.attempts && s.attempts[id].id == id && GiveUp(s, a, id, now, ids, txNow).Success?
    ensures Mild(s, GiveUp(s, a, id, now, ids, txNow).value)
  {
    hide BlockAutomaticCharging, ForceFinishAction;
    var t := s.attempts[id];
    var s1 := UpdateAttempt(s, t.(status := AttemptStatus.ManualReview, claim := t.claim.Release())).value;
    ForceFinishEffect(s1, a.id, ActionStatus.ManualReview, None, Some("resolution_deadline"));
    var s2 := ForceFinishAction(s1, a.id, ActionStatus.ManualReview, None, Some("resolution_deadline")).value;
    BlockTables(s2, s2.subs[a.ref], "resolution_deadline", now, ids, txNow);
  }

  // ---------- payments ----------

  /** A payment that the provider authorised, and that is not on record yet, leaves its subscription active, or
      expired. */
  lemma PaidServes(env: Environment, s: Store, s1: Store, id: string, sub: Subscription, now: Instant, ids: Ids,
          txNow: Instant)
    requires hide *; ChargeInv(env, s, None) && id in s.attempts && Authorises(env, s.attempts[id])
             && !s.attempts[id].status.Authorized?
    requires var ref := s.attempts[id].ref; ref in s.subs && Unblocked(s.subs[ref], sub) && s1.subs == s.subs
    requires var d := Decide(sub, PaidPeriod(s.attempts[id].periodStart, s.attempts[id].periodEnd), now);
             d.Success? && Commit(s1, d.value, ids, txNow).Success?
    ensures var d := Decide(sub, PaidPeriod(s.attempts[id].periodStart, s.attempts[id].periodEnd), now).value;
            !InArrears(Commit(s1, d, ids, txNow).value, s.attempts[id].ref)
  {
    hide ChargeInv, Decide, CommitChange, GoodRow, Advances, Unblocked, AddCalendarMonths;
    var t := s.attempts[id];
    PaysForNextPeriod(env, s, None, id);
    PaidMonth(env, s, id);
    UnblockedRow(s.subs[t.ref], sub);
    PaidDecision(sub, t.periodStart, t.periodEnd, now);
    UnblockedStatus(s.subs[t.ref], sub);
    var d := Decide(sub, PaidPeriod(t.periodStart, t.periodEnd), now).value;
    if d.Change? {
      AdvancesAt(sub, Renewed, d.next, now);
      BookSteps.CommitTables(s1, false, d.next, d.event, ids, txNow);
    }
  }

  lemma UnblockedStatus(row: Subscription, sub: Subscription)
    requires Unblocked(row, sub)
    ensures sub.status == row.status
  {
  }

  lemma PaidMonth(env: Environment, s: Store, id: string)
    requires ChargeInv(env, s, None) && id in s.attempts && s.attempts[id].ref in s.subs
             && s.subs[s.attempts[id].ref].family == Adyen
             && s.attempts[id].periodStart == s.subs[s.attempts[id].ref].periodEnd
    ensures var t := s.attempts[id];
            GoodRow(s.subs[t.ref]) && s.subs[t.ref].ref == t.ref && ZERO_TIME < t.periodStart < t.periodEnd
  {
    hide WorkingAttempts, OnTarget, Renewing, Counted, TruthfulAttempts, RefusedBefore, Numbered, Priced, GoodActions,
         NotAhead, GoodRow, AddCalendarMonths;
    var t := s.attempts[id];
    assert Belongs(t, s.actions[t.actionId]);
    OneMonth(t.periodStart);
  }

  // ---------- refusals ----------

  /** One action moves on, the others are left alone, and only expiries are added. */
  ghost predicate OneMoves(s: Store, s': Store, id: string) {
    && id in s.actions && id in s'.actions && SameAction(s.actions[id], s'.actions[id])
    && (forall x :: x in s.actions && x != id ==> x in s'.actions && s'.actions[x] == s.actions[x])
    && (forall x :: x in s'.actions && x !in s.actions ==> s'.actions[x].kind.Expire?)
  }

  /** A transaction that refuses one attempt, does what is to be done about it, and touches no other action. */
  ghost predicate SettledBy(cfg: Config, s: Store, s': Store, t: string) {
    && Refuses(s, s', t) && Handled(cfg, s, s', t) && s'.attempts == s.attempts[t := s'.attempts[t]]
    && OneMoves(s, s', s'.attempts[t].actionId) && SameTimes(s.attempts[t], s'.attempts[t])
  }

  lemma SettledDunned(cfg: Config, s: Store, s': Store, t: string)
    requires SettledBy(cfg, s, s', t)
    ensures Dunned(cfg, s, s')
  {
    hide IsLast, ExpiryScheduled, KeyIsFreeOrWaiting, Claimable, Kept;
    assert forall q :: Refuses(s, s', q) ==> q == t;
    forall id | Renewable(s, id) && InArrears(s', s.actions[id].ref) ensures Remains(cfg, s, s', id) {
      if id == s'.attempts[t].actionId && !IsLast(cfg, s'.attempts[t]) {
        assert Claimable(ActionStatus.Pending) by { PendingClaimable(); }
      }
    }
    SettledKept(cfg, s, s', t);
  }

  lemma SettledKept(cfg: Config, s: Store, s': Store, t: string)
    requires SettledBy(cfg, s, s', t)
    ensures Kept(s, s')
  {
    hide Handled, Claimable;
    forall id | id in s.actions && id != s'.attempts[t].actionId ensures StillWaits(s.actions[id], s'.actions[id]) {
    }
    assert RefusalOf(s, s', s'.attempts[t].actionId);
  }

  lemma PendingClaimable()
    ensures Claimable(ActionStatus.Pending)
  {
  }

  /** After renewal `b` has moved on, the expiry is pending if and only if its key was free or its action pending. */
  lemma EnsuredExpiry(s: Store, s1: Store, b: ScheduledAction, ref: string, end: Instant, x: string)
    requires GoodActions(s) && b.id in s.actions && b.kind.Renew? && SameAction(s.actions[b.id], b)
    requires s1.actions == s.actions[b.id := b] && x !in s.actions
    ensures var s' := EnsureAction(s1, NewAction(x, ref, Expire, end));
            && s' == s1.(actions := s'.actions)
            && (forall y :: y in s1.actions ==> y in s'.actions && s'.actions[y] == s1.actions[y])
            && (forall y :: y in s'.actions && y !in s1.actions ==> s'.actions[y].kind.Expire?)
            && (ExpiryScheduled(s', ref, end) <==> KeyIsFreeOrWaiting(s, KeyOf(ref, Expire, end)))
  {
    hide EnsureAction, NoSuchKey, GoodActions;
    var key, s' := KeyOf(ref, Expire, end), EnsureAction(s1, NewAction(x, ref, Expire, end));
    EnsureEffect(s1, NewAction(x, ref, Expire, end));
    RenewalKey(s, b.id);
    SameKeyFree(s, s1, b, key);
    if NoSuchKey(s, key) {
      assert s'.actions[x].key == key && s'.actions[x].status.Pending?;
    } else {
      assert s' == s1;
      if id :| id in s.actions && s.actions[id].key == key && s.actions[id].status.Pending? {
        assert s1.actions[id] == s.actions[id];
      }
    }
  }

  lemma RenewalKey(s: Store, id: string)
    requires GoodActions(s) && id in s.actions
    ensures s.actions[id].key.kind == s.actions[id].kind
  {
  }

  lemma SameKeyFree(s: Store, s1: Store, b: ScheduledAction, key: ActionKey)
    requires b.id in s.actions && s1.actions == s.actions[b.id := b] && b.key == s.actions[b.id].key
    ensures NoSuchKey(s1, key) <==> NoSuchKey(s, key)
  {
    if !NoSuchKey(s, key) {
      var id :| id in s.actions && s.actions[id].key == key;
      assert s1.actions[id].key == key;
    }
  }

  /** The last refusal finishes the action and asks for the expiry; another one has the action wait for the delay of
      that attempt. */
  lemma RefusalContinues(s: Store, cfg: Config, t: ChargeAttempt, ref: string, now: Instant, dunningId: string)
    requires GoodActions(s) && t.actionId in s.actions && s.actions[t.actionId].kind.Renew? && dunningId !in s.actions
             && RescheduleOrExpire(s, cfg, t, ref, now, dunningId).Success?
    ensures var s' := RescheduleOrExpire(s, cfg, t, ref, now, dunningId).value;
            && s' == s.(actions := s'.actions) && OneMoves(s, s', t.actionId)
            && if IsLast(cfg, t) then DunningEnds(s, s', t.actionId, ref, now + cfg.dunningTermination)
               else DunningGoesOn(s.actions[t.actionId], s'.actions[t.actionId], now + cfg.retryDelays[t.number - 1])
  {
    hide EnsureAction, ForceFinishAction, RetryableCode, GoodActions, DunningEnds, DunningGoesOn;
    RenewalIdentity(s, t.actionId);
    if IsLast(cfg, t) {
      ForceFinishEffect(s, t.actionId, ActionStatus.Completed, None, Some("refused"));
      var s1 := ForceFinishAction(s, t.actionId, ActionStatus.Completed, None, Some("refused")).value;
      RenewalEnds(s, s1, s1.actions[t.actionId], ref, now + cfg.dunningTermination, dunningId);
    } else {
      ForcedOn(s, t.actionId, now + cfg.retryDelays[t.number - 1]);
    }
  }

  lemma ForcedOn(s: Store, id: string, due: Instant)
    requires ForceFinishAction(s, id, ActionStatus.Pending, Some(due), Some("refused")).Success?
    ensures var s' := ForceFinishAction(s, id, ActionStatus.Pending, Some(due), Some("refused")).value;
            && s' == s.(actions := s'.actions) && OneMoves(s, s', id)
            && DunningGoesOn(s.actions[id], s'.actions[id], due)
  {
  }

  lemma FinishedOn(s: Store, id: string, token: string, fence: int, due: Instant)
    requires FinishAction(s, id, token, fence, ActionStatus.Pending, Some(due), Some("refused")).Success?
    ensures var s' := FinishAction(s, id, token, fence, ActionStatus.Pending, Some(due), Some("refused")).value;
            && s' == s.(actions := s'.actions) && OneMoves(s, s', id)
            && DunningGoesOn(s.actions[id], s'.actions[id], due)
  {
  }

  /** The renewal is over, and its expiry is asked for. */
  lemma RenewalEnds(s: Store, s1: Store, b: ScheduledAction, ref: string, end: Instant, x: string)
    requires GoodActions(s) && b.id in s.actions && s.actions[b.id].kind.Renew? && SameAction(s.actions[b.id], b)
    requires s1 == s.(actions := s.actions[b.id := b]) && x !in s.actions && !Claimable(b.status)
    ensures var s' := EnsureAction(s1, NewAction(x, ref, Expire, end));
            && s' == s.(actions := s'.actions) && OneMoves(s, s', b.id)
            && DunningEnds(s, s', b.id, ref, end)
  {
    hide EnsureAction, GoodActions, ExpiryScheduled, KeyIsFreeOrWaiting, Claimable;
    EnsuredExpiry(s, s1, b, ref, end, x);
    assert s1.actions[b.id] == b;
  }

  lemma RenewalIdentity(s: Store, id: string)
    requires GoodActions(s) && id in s.actions
    ensures s.actions[id].id == id
  {
  }

  /** The same when the charging worker itself is told of the refusal. */
  lemma DeclineContinues(s: Store, cfg: Config, a: ScheduledAction, number: AttemptNumber, retryable: bool,
          token: string, fence: int, now: Instant, dunningId: string)
    requires GoodActions(s) && a.id in s.actions && s.actions[a.id].kind.Renew? && dunningId !in s.actions
    ensures var last := LastRefusal(cfg, number, retryable);
            var r := FinishAction(s, a.id, token, fence, if last then ActionStatus.Completed else ActionStatus.Pending,
                                  if last then None else Some(now + cfg.retryDelays[number - 1]), Some("refused"));
            r.Success? ==>
              var s' := if last then EnsureAction(r.value,
                                                  NewAction(dunningId, a.ref, Expire, now + cfg.dunningTermination))
                        else r.value;
              && s' == s.(actions := s'.actions) && OneMoves(s, s', a.id)
              && if last then DunningEnds(s, s', a.id, a.ref, now + cfg.dunningTermination)
                 else DunningGoesOn(s.actions[a.id], s'.actions[a.id], now + cfg.retryDelays[number - 1])
  {
    hide EnsureAction, FinishAction, GoodActions, DunningEnds, DunningGoesOn;
    RenewalIdentity(s, a.id);
    if LastRefusal(cfg, number, retryable) {
      var r := FinishAction(s, a.id, token, fence, ActionStatus.Completed, None, Some("refused"));
      if r.Success? {
        FinishEffect(s, a.id, token, fence, ActionStatus.Completed, None, Some("refused"));
        RenewalEnds(s, r.value, r.value.actions[a.id], a.ref, now + cfg.dunningTermination, dunningId);
      }
    } else if FinishAction(s, a.id, token, fence, ActionStatus.Pending, Some(now + cfg.retryDelays[number - 1]),
                           Some("refused")).Success? {
      FinishedOn(s, a.id, token, fence, now + cfg.retryDelays[number - 1]);
    }
  }

  lemma AttemptAction(env: Environment, s: Store, id: string)
    requires ChargeInv(env, s, None) && id in s.attempts
    ensures var t := s.attempts[id];
            t.id == id && GoodActions(s) && t.actionId in s.actions && s.actions[t.actionId].kind.Renew?
  {
    hide GoodSubs, GoodActions, TruthfulAttempts, RefusedBefore, Numbered, Priced, WorkingAttempts, OnTarget, NotAhead,
         Renewing, Counted;
    assert Belongs(s.attempts[id], s.actions[s.attempts[id].actionId]);
  }

  /** What holds of the actions of one store holds of another with the same actions. */
  lemma SameActionsGood(s: Store, s': Store)
    requires GoodActions(s) && s'.actions == s.actions
    ensures GoodActions(s')
  {
  }

  lemma RecordRefusedSettles(env: Environment, s: Store, t: ChargeAttempt, now: Instant, ids: Ids, txNow: Instant)
    requires hide *; ChargeInv(env, s, None) && t.id in s.attempts && SameAttempt(s.attempts[t.id], t)
             && SameTimes(s.attempts[t.id], t)
             && !s.attempts[t.id].status.Refused? && t.completedAt == Some(now) && ids.dunning !in s.actions
    requires RecordRefused(s, env.cfg, t, now, ids, txNow).Success?
    ensures SettledBy(env.cfg, s, RecordRefused(s, env.cfg, t, now, ids, txNow).value, t.id)
  {
    hide ChargeInv, Decide, Commit, RescheduleOrExpire, RetryableCode, GoodActions, DunningGoesOn, ExpiryScheduled,
         KeyIsFreeOrWaiting;
    AttemptAction(env, s, t.id);
    var s1 := UpdateAttempt(s, t.(status := Refused)).value;
    PastDueTables(s1, s1.subs[t.ref], now, ids, txNow);
    var s2 := Observe(s1, t.ref, Observed(Status.PastDue), now, ids, txNow).value;
    SameActionsGood(s, s2);
    RefusalContinues(s2, env.cfg, t, t.ref, now, ids.dunning);
    SameKeys(s, s2, t.ref, now + env.cfg.dunningTermination);
  }

  lemma SameKeys(s: Store, s': Store, ref: string, end: Instant)
    requires s'.actions == s.actions
    ensures KeyIsFreeOrWaiting(s', KeyOf(ref, Expire, end)) <==> KeyIsFreeOrWaiting(s, KeyOf(ref, Expire, end))
  {
  }

  lemma DeclinedSettles(env: Environment, s: Store, a: ScheduledAction, id: string, token: string, fence: int,
          paymentId: string, code: string, now: Instant, ids: Ids, txNow: Instant)
    requires hide *; ChargeInv(env, s, None) && id in s.attempts && s.attempts[id].claim.Owned(token, fence)
             && a.id == s.attempts[id].actionId && a.ref == s.attempts[id].ref && ids.dunning !in s.actions
    requires SettleCharge(s, env.cfg, a, id, token, fence, Reply.Declined(paymentId, code), now, ids, txNow).Success?
    ensures SettledBy(env.cfg, s,
                      SettleCharge(s, env.cfg, a, id, token, fence, Reply.Declined(paymentId, code), now, ids,
                                   txNow).value, id)
  {
    hide ChargeInv, Decide, Commit, FinishAction, EnsureAction, RetryableCode, IsRetryableRefusal, GoodActions,
         DunningGoesOn, ExpiryScheduled, KeyIsFreeOrWaiting;
    AttemptAction(env, s, id);
    var cur := s.attempts[id];
    var u := DeclinedAttempt(cur, paymentId, code, now);
    var s1 := UpdateAttempt(s, u).value;
    PastDueTables(s1, s1.subs[a.ref], now, ids, txNow);
    var s2 := Observe(s1, a.ref, Observed(Status.PastDue), now, ids, txNow).value;
    SameActionsGood(s, s2);
    DeclineContinues(s2, env.cfg, a, cur.number, IsRetryableRefusal(code), token, fence, now, ids.dunning);
    SameKeys(s, s2, a.ref, now + env.cfg.dunningTermination);
    RecordedCode(env, s, s2, a, id, token, fence, code, now);
  }

  /** The code that is recorded may be retried if and only if the code that came may be. */
  lemma RecordedCode(env: Environment, s: Store, s2: Store, a: ScheduledAction, id: string, token: string, fence: int,
          code: string, now: Instant)
    requires ChargeInv(env, s, None) && id in s.attempts && s.attempts[id].claim.Owned(token, fence)
             && a.id == s.attempts[id].actionId && s2.actions == s.actions
    ensures hide *; var last := LastRefusal(env.cfg, s.attempts[id].number, IsRetryableRefusal(code));
            var r := FinishAction(s2, a.id, token, fence, if last then ActionStatus.Completed else ActionStatus.Pending,
                                  if last then None else Some(now + env.cfg.retryDelays[s.attempts[id].number - 1]),
                                  Some("refused"));
            r.Success? ==>
              !s.attempts[id].status.Refused? &&
              (RetryableCode(DeclinedAttempt(s.attempts[id], "", code, now).refusalCode) <==> IsRetryableRefusal(code))
  {
    hide ChargeInv, IsRetryableRefusal;
    WorkingOn(env, s, id);
    EmptyCode();
  }

  lemma EmptyCode()
    ensures IsRetryableRefusal("")
  {
    assert Trim("") == "";
    assert seq(0, i requires 0 <= i < 0 => 'A') == "";
  }

  // ---------- transactions that finish a renewal ----------

  lemma MildThenFinish(s: Store, t: Store, u: Store, x: string)
    requires Mild(s, t) && x in t.actions && x in u.actions && u == t.(actions := t.actions[x := u.actions[x]])
             && (x in s.actions ==> !InArrears(t, s.actions[x].ref))
    requires SameAction(t.actions[x], u.actions[x]) && t.actions[x].status.Running? && !u.actions[x].status.Pending?
    ensures Mild(s, u)
  {
    RunningMoves(t.actions[x], u.actions[x]);
    MovedCalm(t, u, x);
    NobodyRefusedOn(s, t, u);
    hide Claimable, NobodyRefused;
  }

  lemma RunningMoves(a: ScheduledAction, b: ScheduledAction)
    requires SameAction(a, b) && a.status.Running? && !b.status.Pending?
    ensures StillWaits(a, b)
  {
  }

  lemma FinishThenMild(s: Store, t: Store, u: Store, x: string)
    requires NobodyRefused(s, t) && Mild(t, u) && (x in s.actions ==> !InArrears(u, s.actions[x].ref))
    requires forall id :: Renewable(s, id) && id != x ==> id in t.actions && t.actions[id] == s.actions[id]
    ensures Mild(s, u)
  {
    NobodyRefusedOn(s, t, u);
    hide Claimable, NobodyRefused;
  }

  /** An attempt is put on record and its action finished. */
  lemma ForcedCalm(s: Store, u: ChargeAttempt, x: string, status: ActionStatus, class_: Option<string>)
    requires u.id in s.attempts && !u.status.Refused? && SameTimes(s.attempts[u.id], u) && !Claimable(status)
    requires ForceFinishAction(s.(attempts := s.attempts[u.id := u]), x, status, None, class_).Success?
    ensures NobodyRefused(s, ForceFinishAction(s.(attempts := s.attempts[u.id := u]), x, status, None, class_).value)
  {
    hide ForceFinishAction, NobodyRefused, Claimable;
    var s1 := s.(attempts := s.attempts[u.id := u]);
    AttemptEasy(s, u);
    ForceFinishEffect(s1, x, status, None, class_);
    var s2 := ForceFinishAction(s1, x, status, None, class_).value;
    ForcedMoves(s1, x, status, class_);
    MovedCalm(s1, s2, x);
    NobodyRefusedOn(s, s1, s2);
  }

  lemma ForcedMoves(s: Store, x: string, status: ActionStatus, class_: Option<string>)
    requires ForceFinishAction(s, x, status, None, class_).Success? && !Claimable(status)
    ensures x in s.actions && x in ForceFinishAction(s, x, status, None, class_).value.actions
            && StillWaits(s.actions[x], ForceFinishAction(s, x, status, None, class_).value.actions[x])
  {
  }

  lemma SettleAuthorisedMild(env: Environment, s: Store, a: ScheduledAction, id: string, token: string, fence: int,
          paymentId: string, now: Instant, ids: Ids, txNow: Instant)
    requires hide *; ChargeInv(env, s, None) && id in s.attempts && s.attempts[id].claim.Owned(token, fence)
             && a.id == s.attempts[id].actionId && a.ref == s.attempts[id].ref && Authorises(env, s.attempts[id])
    requires SettleCharge(s, env.cfg, a, id, token, fence, Reply.Authorised(paymentId), now, ids, txNow).Success?
    ensures Mild(s, SettleCharge(s, env.cfg, a, id, token, fence, Reply.Authorised(paymentId), now, ids, txNow).value)
  {
    hide ChargeInv, Decide, Commit, FinishAction, Mild, Easy, GoodSubs, GoodActions, GoodAttempts, TruthfulAttempts,
         NotAhead, AddCalendarMonths;
    var cur := s.attempts[id];
    WorkingOn(env, s, id);
    Basics(env, s, None);
    AttemptOf(env, s, id);
    var s1 := UpdateAttempt(s,
                            cur.(status := Authorized, paymentId := Some(paymentId), completedAt := Some(now),
                                 claim := cur.claim.Release())).value;
    AttemptEasy(s, s1.attempts[id]);
    SameSubsGood(s, s1);
    ObserveMild(s1, a.ref, PaidPeriod(cur.periodStart, cur.periodEnd), now, ids, txNow);
    var s2 := Observe(s1, a.ref, PaidPeriod(cur.periodStart, cur.periodEnd), now, ids, txNow).value;
    EasyThenMild(s, s1, s2);
    UnblockedSame(s.subs[a.ref]);
    PaidServes(env, s, s1, id, s.subs[a.ref], now, ids, txNow);
    FinishEffect(s2, a.id, token, fence, ActionStatus.Completed, None, None);
    MildThenFinish(s, s2, FinishAction(s2, a.id, token, fence, ActionStatus.Completed, None, None).value, a.id);
  }

  lemma UnblockedSame(sub: Subscription)
    ensures Unblocked(sub, sub)
  {
  }

  lemma SameSubsGood(s: Store, s': Store)
    requires GoodSubs(s) && s'.subs == s.subs
    ensures GoodSubs(s')
  {
    hide GoodRow;
  }

  lemma SettleDunned(env: Environment, s: Store, a: ScheduledAction, id: string, token: string, fence: int,
          reply: Reply, now: Instant, ids: Ids, txNow: Instant)
    requires hide *; ChargeInv(env, s, None) && ids.dunning !in s.actions
    requires id in s.attempts ==> a.id == s.attempts[id].actionId && a.ref == s.attempts[id].ref
                                  && TruthfulReply(env, s.attempts[id].request.idempotencyKey, reply)
    requires SettleCharge(s, env.cfg, a, id, token, fence, reply, now, ids, txNow).Success?
    ensures Dunned(env.cfg, s, SettleCharge(s, env.cfg, a, id, token, fence, reply, now, ids, txNow).value)
  {
    hide ChargeInv, SettleCharge, Dunned, Mild, Easy, SettledBy;
    var s' := SettleCharge(s, env.cfg, a, id, token, fence, reply, now, ids, txNow).value;
    SettledAttempt(s, env.cfg, a, id, token, fence, reply, now, ids, txNow);
    if s.attempts[id].claim.Owned(token, fence) {
      match reply
      case Unclear =>
        SettleUnclearEasy(env, s, a, id, token, fence, now, ids, txNow);
        EasyMild(s, s');
        MildDunned(env.cfg, s, s');
      case Authorised(paymentId) =>
        SettleAuthorisedMild(env, s, a, id, token, fence, paymentId, now, ids, txNow);
        MildDunned(env.cfg, s, s');
      case Declined(paymentId, code) =>
        DeclinedSettles(env, s, a, id, token, fence, paymentId, code, now, ids, txNow);
        SettledDunned(env.cfg, s, s', id);
    } else {
      SameEasy(s, s);
      EasyMild(s, s);
      MildDunned(env.cfg, s, s);
    }
  }

  lemma SettleUnclearEasy(env: Environment, s: Store, a: ScheduledAction, id: string, token: string, fence: int,
          now: Instant, ids: Ids, txNow: Instant)
    requires hide *; ChargeInv(env, s, None) && id in s.attempts && s.attempts[id].claim.Owned(token, fence)
    requires SettleCharge(s, env.cfg, a, id, token, fence, Unclear, now, ids, txNow).Success?
    ensures Easy(s, SettleCharge(s, env.cfg, a, id, token, fence, Unclear, now, ids, txNow).value)
  {
    hide ChargeInv, RecheckAt, FinishAction, NobodyRefused;
    WorkingOn(env, s, id);
    var cur := s.attempts[id];
    var u := cur.(status := AttemptStatus.Uncertain, claim := cur.claim.Release());
    var s1, s' := s.(attempts := s.attempts[id := u]), SettleCharge(s, env.cfg, a, id, token, fence, Unclear, now, ids,
                                                                    txNow).value;
    AttemptEasy(s, u);
    FinishEffect(s1, a.id, token, fence, ActionStatus.Uncertain, Some(RecheckAt(cur, now)), Some("uncertain"));
    RunningMoves(s1.actions[a.id], s'.actions[a.id]);
    MovedCalm(s1, s', a.id);
    NobodyRefusedOn(s, s1, s');
  }

  lemma RecordAuthorisedMild(env: Environment, s: Store, t: ChargeAttempt, unblock: bool, now: Instant, ids: Ids,
          txNow: Instant)
    requires hide *; ChargeInv(env, s, None) && t.id in s.attempts && SameAttempt(s.attempts[t.id], t)
             && SameTimes(s.attempts[t.id], t) && !s.attempts[t.id].status.Authorized? && Authorises(env, t)
             && RecordAuthorised(s, t, unblock, now, ids, txNow).Success?
    ensures Mild(s, RecordAuthorised(s, t, unblock, now, ids, txNow).value)
  {
    hide ChargeInv, Decide, Commit, ForceFinishAction, Mild, GoodSubs, GoodActions, GoodAttempts, TruthfulAttempts,
         NotAhead, AddCalendarMonths, GoodRow, Renewable, NobodyRefused;
    AttemptOf(env, s, t.id);
    ForcedCalm(s, t.(status := Authorized), t.actionId, ActionStatus.Completed, None);
    Basics(env, s, None);
    ForceFinishEffect(UpdateAttempt(s, t.(status := Authorized)).value, t.actionId, ActionStatus.Completed, None, None);
    var s2 := ForceFinishAction(UpdateAttempt(s, t.(status := Authorized)).value, t.actionId, ActionStatus.Completed,
                                None, None).value;
    var sub := if unblock then s.subs[t.ref].(chargingBlocked := false, blockReason := None) else s.subs[t.ref];
    var s' := RecordAuthorised(s, t, unblock, now, ids, txNow).value;
    var d := Decide(sub, PaidPeriod(t.periodStart, t.periodEnd), now).value;
    CommitNoop(s2, d, ids, txNow);
    PaidServes(env, s, s2, t.id, sub, now, ids, txNow);
    if d.Noop? {
      RowMild(s2, s', sub);
    } else {
      StoredGood(s, t.ref);
      UnblockedRow(s.subs[t.ref], sub);
      DecisionMild(s2, sub, PaidPeriod(t.periodStart, t.periodEnd), now, ids, txNow);
    }
    assert !InArrears(s', t.ref);
    RenewablesKept(s, s2, t.actionId);
    FinishThenMild(s, s2, s', t.actionId);
  }

  lemma StoredGood(s: Store, ref: string)
    requires GoodSubs(s) && ref in s.subs
    ensures GoodRow(s.subs[ref]) && s.subs[ref].ref == ref
  {
    hide GoodRow;
  }

  lemma RowMild(s: Store, s': Store, sub: Subscription)
    requires s' == s || s' == s.(subs := s.subs[sub.ref := sub])
    ensures Mild(s, s')
  {
    hide Claimable;
  }

  lemma RenewablesKept(s: Store, s': Store, x: string)
    requires x in s'.actions && s'.actions == s.actions[x := s'.actions[x]]
    ensures forall id :: Renewable(s, id) && id != x ==> id in s'.actions && s'.actions[id] == s.actions[id]
  {
    hide Claimable;
  }

  lemma GivenUpMild(s: Store, t: ChargeAttempt, now: Instant, ids: Ids, txNow: Instant)
    requires hide *; GoodSubs(s) && t.id in s.attempts && SameTimes(s.attempts[t.id], t) && t.status.Canceled?
             && t.actionId in s.actions && s.actions[t.actionId].ref == t.ref
    requires var s1 := s.(attempts := s.attempts[t.id := t]);
             && ForceFinishAction(s1, t.actionId, ActionStatus.Canceled, None, Some("operator")).Success?
             && Observe(ForceFinishAction(s1, t.actionId, ActionStatus.Canceled, None, Some("operator")).value, t.ref,
                        IMMEDIATE_EXPIRY, now, ids, txNow).Success?
    ensures var s1 := s.(attempts := s.attempts[t.id := t]);
            Mild(s,
                 Observe(ForceFinishAction(s1, t.actionId, ActionStatus.Canceled, None, Some("operator")).value, t.ref,
                         IMMEDIATE_EXPIRY, now, ids, txNow).value)
  {
    hide Observe, ForceFinishAction, GoodSubs, Mild, Renewable, NobodyRefused;
    ForcedCalm(s, t, t.actionId, ActionStatus.Canceled, Some("operator"));
    var s1 := s.(attempts := s.attempts[t.id := t]);
    ForceFinishEffect(s1, t.actionId, ActionStatus.Canceled, None, Some("operator"));
    var s2 := ForceFinishAction(s1, t.actionId, ActionStatus.Canceled, None, Some("operator")).value;
    SameSubsGood(s, s2);
    ObserveMild(s2, t.ref, IMMEDIATE_EXPIRY, now, ids, txNow);
    ExpiresNow(s2, t.ref, now, ids, txNow);
    RenewablesKept(s, s2, t.actionId);
    FinishThenMild(s, s2, Observe(s2, t.ref, IMMEDIATE_EXPIRY, now, ids, txNow).value, t.actionId);
  }

  lemma ExpiresNow(s: Store, ref: string, now: Instant, ids: Ids, txNow: Instant)
    requires GoodSubs(s) && Observe(s, ref, IMMEDIATE_EXPIRY, now, ids, txNow).Success?
    ensures !InArrears(Observe(s, ref, IMMEDIATE_EXPIRY, now, ids, txNow).value, ref)
  {
    hide Commit, Decide, GoodSubs;
    StoredGood(s, ref);
    ImmediateDecision(s.subs[ref], now);
    BookSteps.CommittedRow(s, Decide(s.subs[ref], IMMEDIATE_EXPIRY, now).value, s.subs[ref], ids, txNow);
  }

  lemma ImmediateDecision(sub: Subscription, now: Instant)
    requires GoodRow(sub)
    ensures var d := Decide(sub, IMMEDIATE_EXPIRY, now);
            d.Success? ==> if d.value.Noop? then sub.status == Status.Expired
                           else d.value.next.status == Status.Expired && d.value.next.ref == sub.ref
  {
    hide DecidePlanChange, DecideCancel, DecidePastDue, DecideActivateOrRenew;
  }

  lemma ResolveDunned(env: Environment, s: Store, id: string, outcome: Resolution, reason: string, actor: string,
          paymentId: string, now: Instant, ids: Ids, txNow: Instant)
    requires hide *; ChargeInv(env, s, None) && ids.dunning !in s.actions
    requires id in s.attempts ==> TruthfulResolution(env, s.attempts[id].request.idempotencyKey, outcome)
    requires ResolveAttempt(s, env.cfg, id, outcome, reason, actor, paymentId, now, ids, txNow).Success?
    ensures Dunned(env.cfg, s,
                   ResolveAttempt(s, env.cfg, id, outcome, reason, actor, paymentId, now, ids, txNow).value)
  {
    hide ChargeInv, Observe, ForceFinishAction, RecordAuthorised, RecordRefused, GoodSubs, GoodActions, GoodAttempts,
         TruthfulAttempts, NotAhead, Dunned, Mild, SettledBy;
    AttemptOf(env, s, id);
    var t0 := s.attempts[id];
    var s1 := InsertAudit(s,
                          Audit("resolve-attempt", id, if actor == "" then "cli" else actor,
                                if reason == "" then "operator" else reason));
    AuditKeeps(env, s, s1);
    var u := t0.(claim := t0.claim.Release(), completedAt := Some(now),
                 paymentId := if paymentId != "" then Some(paymentId) else t0.paymentId);
    var s' := ResolveAttempt(s, env.cfg, id, outcome, reason, actor, paymentId, now, ids, txNow).value;
    match outcome {
      case Paid =>
        RecordAuthorisedMild(env, s1, u, true, now, ids, txNow);
        MildDunned(env.cfg, s1, s');
      case Declined =>
        RecordRefusedSettles(env, s1, u, now, ids, txNow);
        SettledDunned(env.cfg, s1, s', id);
      case GivenUp =>
        Basics(env, s1, None);
        GivenUpMild(s1, u.(status := AttemptStatus.Canceled), now, ids, txNow);
        MildDunned(env.cfg, s1, s');
      case Unknown =>
    }
    SameTablesDunned(env.cfg, s, s1, s', s');
  }

  /** Other tables do not matter. */
  lemma SameTablesDunned(cfg: Config, s: Store, s1: Store, t: Store, t1: Store)
    requires Dunned(cfg, s1, t) && s.actions == s1.actions && s.attempts == s1.attempts
    requires t1.actions == t.actions && t1.attempts == t.attempts && t1.subs == t.subs
    ensures Dunned(cfg, s, t1)
  {
    hide IsLast, Claimable, DunningGoesOn;
    forall q | Refuses(s, t1, q) ensures Handled(cfg, s, t1, q) {
      assert Refuses(s1, t, q);
    }
    forall id | Renewable(s, id) && InArrears(t1, s.actions[id].ref) ensures Remains(cfg, s, t1, id) {
      assert Renewable(s1, id) && Remains(cfg, s1, t, id);
      if q :| Refuses(s1, t, q) && IsLast(cfg, t.attempts[q]) && t.attempts[q].actionId == id {
        assert Refuses(s, t1, q);
      }
    }
  }

  // ---------- checkouts and webhooks ----------

  lemma CreateMild(s: Store, co: Checkout, sub: Subscription, ids: Ids, txNow: Instant)
    requires CreateSubscription(s, co, sub, ids, txNow).Success?
    ensures Mild(s, CreateSubscription(s, co, sub, ids, txNow).value)
  {
    hide CommitChange, NobodyRefused, Renewable;
    CreatedCommits(s, co, sub, ids, txNow);
    ChangeMild(s, true, sub, Activated, ids, txNow);
    CreatedTables(s, co, sub, ids, txNow);
    var s1, s' := CommitChange(s, true, sub, Activated, ids, txNow).value,
        CreateSubscription(s, co, sub, ids, txNow).value;
    SameTablesMild(s, s1, s');
  }

  lemma CreatedTables(s: Store, co: Checkout, sub: Subscription, ids: Ids, txNow: Instant)
    requires CreateSubscription(s, co, sub, ids, txNow).Success?
             && CommitChange(s, true, sub, Activated, ids, txNow).Success?
    ensures var s1, s' := CommitChange(s, true, sub, Activated, ids, txNow).value,
            CreateSubscription(s, co, sub, ids, txNow).value;
            s' == s1.(checkouts := s'.checkouts)
  {
    hide CommitChange;
  }

  lemma SameTablesMild(s: Store, t: Store, t1: Store)
    requires Mild(s, t) && t1.actions == t.actions && t1.attempts == t.attempts && t1.subs == t.subs
    ensures Mild(s, t1)
  {
    hide Claimable;
  }

  lemma ActivateMild(s: Store, id: string, now: Instant, ids: Ids, txNow: Instant)
    requires ActivateCheckout(s, id, now, ids, txNow).Success?
    ensures Mild(s, ActivateCheckout(s, id, now, ids, txNow).value)
  {
    hide CreateSubscription, AddCalendarMonths, Mild, Easy;
    SameEasy(s, s);
    EasyMild(s, s);
    var co := s.checkouts[id];
    if co.subscriptionRef.None? {
      CreateMild(s, co,
                 FirstActivation(co, ids.subscription, Status.Active, now, AddCalendarMonths(now, 1), now, None, None,
                                 None, co.shopperRef), ids, txNow);
    }
  }

  lemma InitialMild(s: Store, ev: NormalizedEvent, now: Instant, ids: Ids, txNow: Instant)
    requires ApplyAdyenInitial(s, ev, now, ids, txNow).Success?
    ensures Mild(s, ApplyAdyenInitial(s, ev, now, ids, txNow).value.0)
  {
    hide CreateSubscription, AddCalendarMonths, Mild, Easy, ReplacePaymentMethod;
    SameEasy(s, s);
    EasyMild(s, s);
    if ev.success && ev.checkoutId != "" {
      var co := s.checkouts[ev.checkoutId];
      if co.status.Completed? && co.subscriptionRef.Some? {
        ReplacedTables(s, co.subscriptionRef.value, ev);
        SameEasy(s, ReplacePaymentMethod(s, co.subscriptionRef.value, ev).value.0);
        EasyMild(s, ReplacePaymentMethod(s, co.subscriptionRef.value, ev).value.0);
      } else {
        var sub := FirstActivation(co, ids.subscription, Status.Active, now, AddCalendarMonths(now, 1), now, None, None,
                                   NonEmpty(ev.paymentId), co.shopperRef);
        CreateMild(s, co, WithPaymentMethod(sub, ev.paymentMethod), ids, txNow);
      }
    }
  }

  lemma ReplacedTables(s: Store, ref: string, ev: NormalizedEvent)
    requires ReplacePaymentMethod(s, ref, ev).Success?
    ensures var s' := ReplacePaymentMethod(s, ref, ev).value.0; s'.actions == s.actions && s'.attempts == s.attempts
  {
  }

  lemma StripeMild(s: Store, cfg: Config, ev: NormalizedEvent, state: Option<SubscriptionState>, hits: Hits,
          now: Instant, ids: Ids, txNow: Instant)
    requires GoodSubs(s) && ApplyStripe(s, cfg, ev, state, hits, now, ids, txNow).Success?
    ensures hide *; Mild(s, ApplyStripe(s, cfg, ev, state, hits, now, ids, txNow).value.0)
  {
    hide Decide, Commit, CreateSubscription, StripeSubject, StripeObservation, GoodRow, Mild, Easy, FirstActivation;
    SameEasy(s, s);
    EasyMild(s, s);
    if state.Some? {
      var st := state.value;
      var subject := StripeSubject(ev, st, hits);
      if subject.Some? {
        var sub := s.subs[subject.value];
        DecisionMild(s, sub, StripeObservation(cfg, sub, st).value, now, ids, txNow);
      } else if ev.checkoutId in s.checkouts && (st.status.Active? || st.status.Trialing?) && ev.checkoutId != "" {
        CreateMild(s, s.checkouts[ev.checkoutId],
                   FirstActivation(s.checkouts[ev.checkoutId], ids.subscription, st.status, st.periodStart,
                                   st.periodEnd, now, NonEmpty(st.customerId), NonEmpty(st.subId), None, None), ids,
                   txNow);
      }
    }
  }

  lemma RenewalDunned(env: Environment, s: Store, ev: NormalizedEvent, hits: Hits, now: Instant, ids: Ids,
          txNow: Instant)
    requires ChargeInv(env, s, None) && ids.dunning !in s.actions && TruthfulEvent(env, ev) && ev.kind.AdyenRenewal?
             && Finds(s.attempts, HasReference(ev.attemptReference), hits.byReference)
             && ApplyAdyenRenewal(s, env.cfg, ev, hits, now, ids, txNow).Success?
    ensures hide *; Dunned(env.cfg, s, ApplyAdyenRenewal(s, env.cfg, ev, hits, now, ids, txNow).value.0)
  {
    hide ChargeInv, RecordAuthorised, RecordRefused, GoodSubs, GoodActions, GoodAttempts, TruthfulAttempts, NotAhead,
         TruthfulEvent, HasReference, Dunned, Mild, Easy, SettledBy;
    Basics(env, s, None);
    ReferredVerdict(env, s, ev, hits);
    var t0, s' := s.attempts[hits.byReference.value], ApplyAdyenRenewal(s, env.cfg, ev, hits, now, ids, txNow).value.0;
    if t0.status.Refused? || t0.status.Canceled? || t0.status.ManualReview? || t0.status.Authorized? {
      SameEasy(s, s);
      EasyMild(s, s);
      MildDunned(env.cfg, s, s');
    } else {
      var t := t0.(claim := t0.claim.Release(), completedAt := Some(now),
                   paymentId := if ev.paymentId != "" then Some(ev.paymentId) else t0.paymentId);
      if ev.success {
        RecordAuthorisedMild(env, s, t, false, now, ids, txNow);
        MildDunned(env.cfg, s, s');
      } else {
        RecordRefusedSettles(env, s,
                             t.(refusalCode := if ev.refusalCode != "" then Some(ev.refusalCode) else t0.refusalCode),
                             now, ids, txNow);
        SettledDunned(env.cfg, s, s', hits.byReference.value);
      }
    }
  }

  lemma ObservationDunned(env: Environment, s: Store, ev: NormalizedEvent, state: Option<SubscriptionState>, hits: Hits,
          now: Instant, ids: Ids, txNow: Instant)
    requires ChargeInv(env, s, None) && ids.dunning !in s.actions && HitsAgree(s, ev, state, hits)
             && TruthfulEvent(env, ev) && ApplyObservation(s, env.cfg, ev, state, hits, now, ids, txNow).Success?
    ensures hide *; Dunned(env.cfg, s, ApplyObservation(s, env.cfg, ev, state, hits, now, ids, txNow).value.0)
  {
    hide ChargeInv, TruthfulEvent, ApplyStripe, ApplyAdyenInitial, ApplyAdyenRenewal, Observe, HasProcessorSub,
         HasCheckout, HasReference, HasInitialPayment, HasPayment, Finds, GoodSubs, GoodActions, GoodAttempts,
         TruthfulAttempts, NotAhead, Dunned, Mild, Easy;
    var s' := ApplyObservation(s, env.cfg, ev, state, hits, now, ids, txNow).value.0;
    Basics(env, s, None);
    match ev.kind
    case StripeCheckout =>
      StripeMild(s, env.cfg, ev, state, hits, now, ids, txNow);
      MildDunned(env.cfg, s, s');
    case StripeSubscription =>
      StripeMild(s, env.cfg, ev, state, hits, now, ids, txNow);
      MildDunned(env.cfg, s, s');
    case AdyenInitial =>
      InitialMild(s, ev, now, ids, txNow);
      MildDunned(env.cfg, s, s');
    case AdyenRenewal => RenewalDunned(env, s, ev, hits, now, ids, txNow);
    case AdyenContract =>
      ObserveMild(s, ContractSubject(s, hits).value, CANCELLATION, now, ids, txNow);
      MildDunned(env.cfg, s, s');
    case AdyenOperational =>
      SameEasy(s, s);
      EasyMild(s, s);
      MildDunned(env.cfg, s, s');
  }

  lemma SameDunned(cfg: Config, s: Store, s': Store)
    requires s'.actions == s.actions && s'.attempts == s.attempts
    ensures Dunned(cfg, s, s')
  {
    hide Dunned, Mild, Easy;
    SameEasy(s, s');
    EasyMild(s, s');
    MildDunned(cfg, s, s');
  }

  lemma CommitEventDunned(env: Environment, s: Store, ev: NormalizedEvent, lease: EventLease,
          state: Option<SubscriptionState>, hits: Hits, now: Instant, ids: Ids, txNow: Instant)
    requires ChargeInv(env, s, None) && ids.dunning !in s.actions && HitsAgree(s, ev, state, hits)
             && TruthfulEvent(env, ev) && CommitEvent(s, env.cfg, ev, lease, state, hits, now, ids, txNow).Success?
    ensures hide *; Dunned(env.cfg, s, CommitEvent(s, env.cfg, ev, lease, state, hits, now, ids, txNow).value)
  {
    hide ChargeInv, TruthfulEvent, HitsAgree, ApplyObservation, CloseEvent, StripeSubject, Dunned;
    var s' := CommitEvent(s, env.cfg, ev, lease, state, hits, now, ids, txNow).value;
    if !StillOwned(s, ev, lease) {
      SameDunned(env.cfg, s, s);
    } else {
      match ApplyObservation(s, env.cfg, ev, state, hits, now, ids, txNow) {
        case Success((s1, r)) =>
          ObservationDunned(env, s, ev, state, hits, now, ids, txNow);
          CloseSame(s1, ev, lease, Processed, r, now);
          SameTablesDunned(env.cfg, s, s, s1, s');
        case Failure(e) =>
          if e == UnknownStripePrice && state.Some? {
            CloseSame(s, ev, lease, Quarantined, StripeSubject(ev, state.value, hits), now);
          } else {
            CloseSame(s, ev, lease, ProcessingState.ManualReview, None, now);
          }
          SameDunned(env.cfg, s, s');
      }
    }
  }

  // ---------- steps ----------

  lemma PrepareStepDealt(env: Environment, sys: System, step: Step)
    requires Safe(env, sys) && Enabled(env, sys, step) && step.PrepareStep?
    ensures hide *; Dealt(env.cfg, sys.db, DbAfter(env, sys, step)) && DbAfter(env, sys, step).actions == sys.db.actions
            && OldAttemptsSame(sys.db, DbAfter(env, sys, step))
  {
    hide ChargeInv, Bindings.Bound, Ledger.LedgerInv, WorkersAgree, EnsurePrepared, EarliestAction, Chooses, Dealt;
    var s, s' := sys.db, DbAfter(env, sys, step);
    PickedAction(s, step.now, ActionStatus.Pending, Renew, step.id);
    if EnsurePrepared(s, env.cfg, s.actions[step.id], step.choice, step.attemptId, step.reference).Success? {
      PreparedActions(s, env.cfg, s.actions[step.id], step.choice, step.attemptId, step.reference);
    }
    UnrefusedDealt(env.cfg, s, s');
  }

  /** Only the action that a charging worker has picked moves when it is taken, and then it runs. */
  ghost predicate OnlyTaken(s: Store, s': Store, id: string) {
    && s'.attempts.Keys == s.attempts.Keys
    && (s'.actions == s.actions
        || (&& id in s.actions && id in s'.actions && s'.actions == s.actions[id := s'.actions[id]]
            && s'.actions[id].status.Running? && SameAction(s.actions[id], s'.actions[id])))
  }

  lemma ClaimStepDealt(env: Environment, sys: System, step: Step)
    requires Safe(env, sys) && Enabled(env, sys, step) && step.ClaimStep?
    ensures hide Safe, DbAfter, Dealt, OnlyTaken; Dealt(env.cfg, sys.db, DbAfter(env, sys, step))
            && OnlyTaken(sys.db, DbAfter(env, sys, step), sys.workers[step.w].actionId)
  {
    hide ChargeInv, Bindings.Bound, Ledger.LedgerInv, WorkersAgree, ClaimCharge, Dealt, Unrefused;
    var s, s', k := sys.db, DbAfter(env, sys, step), sys.workers[step.w];
    if ClaimCharge(s, env.cfg, k.actionId, k.attemptId, step.token, step.now).Success? {
      ClaimedActions(s, env.cfg, k.actionId, k.attemptId, step.token, step.now);
      RunningOn(s, s', k.actionId);
    } else {
      assert Unrefused(s, s) by { SameUnrefused(s); }
    }
    UnrefusedDealt(env.cfg, s, s');
  }

  lemma SameUnrefused(s: Store)
    ensures Unrefused(s, s)
  {
  }

  lemma RunningOn(s: Store, s': Store, id: string)
    requires id in s.actions && id in s'.actions && s'.actions == s.actions[id := s'.actions[id]]
             && s'.actions[id].status.Running? && SameAction(s.actions[id], s'.actions[id])
    ensures forall x :: Renewable(s, x) ==> Renewable(s', x)
  {
  }

  lemma PickUncertainStepDunned(env: Environment, sys: System, step: Step)
    requires Safe(env, sys) && Enabled(env, sys, step) && step.PickUncertainStep?
    ensures hide *; Dunned(env.cfg, sys.db, DbAfter(env, sys, step))
  {
    hide ChargeInv, Bindings.Bound, Ledger.LedgerInv, WorkersAgree, GiveUp, EarliestAction, FirstWith, Dunned, Mild,
         Easy;
    var s := sys.db;
    SameDunned(env.cfg, s, s);
    PickedAction(s, step.now, ActionStatus.Uncertain, Renew, step.id);
    InFlightOpen(s, step.id, step.attemptId);
    AttemptOf(env, s, step.attemptId);
    if PastDeadline(s.attempts[step.attemptId], step.now)
         && GiveUp(s, s.actions[step.id], step.attemptId, step.now, step.ids, step.txNow).Success? {
      GiveUpMild(s, s.actions[step.id], step.attemptId, step.now, step.ids, step.txNow);
      MildDunned(env.cfg, s, DbAfter(env, sys, step));
    }
  }

  lemma ChargingEndStepDunned(env: Environment, sys: System, step: Step)
    requires Safe(env, sys) && Enabled(env, sys, step) && (step.SettleStep? || step.ExpireStep? || step.ResolveStep?)
    ensures hide *; Dunned(env.cfg, sys.db, DbAfter(env, sys, step))
  {
    hide ChargeInv, Bindings.Bound, Ledger.LedgerInv, SettleCharge, RunExpire, ResolveAttempt, TruthfulReply,
         TruthfulEvent, TruthfulResolution, EarliestAction, SameAttempt, Dunned, Mild, GoodSubs, GoodActions,
         GoodAttempts, TruthfulAttempts, NotAhead;
    var s, s' := sys.db, DbAfter(env, sys, step);
    SameDunned(env.cfg, s, s);
    match step
    case SettleStep(w, ids, txNow) =>
      var k := sys.workers[w];
      assert Remembers(env, s, k);
      if SettleCharge(s, env.cfg, k.action, k.attempt.id, k.token, k.action.claim.fence, k.reply, k.now, ids,
                      txNow).Success? {
        HeldAttempt(s, k.action, k.attempt);
        SettleDunned(env, s, k.action, k.attempt.id, k.token, k.action.claim.fence, k.reply, k.now, ids, txNow);
      }
    case ExpireStep(id, token, now, ids, txNow) =>
      PickedAction(s, now, ActionStatus.Pending, Expire, id);
      if RunExpire(s, id, token, env.cfg, now, ids, txNow).Success? {
        Basics(env, s, None);
        RunExpireMild(s, id, token, env.cfg, now, ids, txNow);
        MildDunned(env.cfg, s, s');
      }
    case ResolveStep(id, outcome, reason, actor, paymentId, now, ids, txNow) =>
      if ResolveAttempt(s, env.cfg, id, outcome, reason, actor, paymentId, now, ids, txNow).Success? {
        ResolveDunned(env, s, id, outcome, reason, actor, paymentId, now, ids, txNow);
      }
  }

  lemma EngineStepDunned(env: Environment, sys: System, step: Step)
    requires Safe(env, sys) && Enabled(env, sys, step)
             && (step.ActivateStep? || step.CommitEventStep? || step.CancelStep? || step.ExpireNowStep?)
    ensures hide *; Dunned(env.cfg, sys.db, DbAfter(env, sys, step))
  {
    hide ChargeInv, Bindings.Bound, Ledger.LedgerInv, ActivateCheckout, CommitEvent, Observe, TruthfulEvent, HitsAgree,
         OwnCheckout, TruthfulReply, SameAttempt, Dunned, Mild, GoodSubs, GoodActions, GoodAttempts, TruthfulAttempts,
         NotAhead;
    var s, s' := sys.db, DbAfter(env, sys, step);
    Basics(env, s, None);
    SameDunned(env.cfg, s, s);
    match step
    case ActivateStep(id, now, ids, txNow) =>
      if ActivateCheckout(s, id, now, ids, txNow).Success? {
        ActivateMild(s, id, now, ids, txNow);
        MildDunned(env.cfg, s, s');
      }
    case CommitEventStep(w, hits, now, ids, txNow) =>
      var k := sys.workers[w];
      assert Remembers(env, s, k);
      if CommitEvent(s, env.cfg, k.ev, k.lease, k.state, hits, now, ids, txNow).Success? {
        CommitEventDunned(env, s, k.ev, k.lease, k.state, hits, now, ids, txNow);
      }
    case CancelStep(ref, now, ids, txNow) =>
      if Observe(s, ref, CANCELLATION, now, ids, txNow).Success? {
        ObserveMild(s, ref, CANCELLATION, now, ids, txNow);
        MildDunned(env.cfg, s, s');
      }
    case ExpireNowStep(ref, now, ids, txNow) =>
      if Observe(s, ref, IMMEDIATE_EXPIRY, now, ids, txNow).Success? {
        ObserveMild(s, ref, IMMEDIATE_EXPIRY, now, ids, txNow);
        MildDunned(env.cfg, s, s');
      }
  }

  /** A step that prepares no attempt and takes no charge: a refused attempt is dealt with, and waiting renewals are
      left alone, or finished, or an attempt of them is refused. */
  lemma StepKept(env: Environment, sys: System, step: Step)
    requires Safe(env, sys) && Enabled(env, sys, step) && !step.PrepareStep? && !step.ClaimStep?
    ensures hide *; Dunned(env.cfg, sys.db, DbAfter(env, sys, step))
  {
    hide Safe, Enabled, DbAfter, Dunned;
    if Aside(step) {
      AsideTables(env, sys, step);
      SameDunned(env.cfg, sys.db, DbAfter(env, sys, step));
    } else if step.PickUncertainStep? {
      PickUncertainStepDunned(env, sys, step);
    } else if Charges(step) {
      ChargingEndStepDunned(env, sys, step);
    } else {
      EngineStepDunned(env, sys, step);
    }
  }

  /** Every step: a refused attempt is dealt with as dunning demands, and a renewal of a subscription that is past due
      goes on, or was handed over, or was refused for the last time. */
  lemma StepDunned(env: Environment, sys: System, step: Step)
    requires Safe(env, sys) && Enabled(env, sys, step)
    ensures hide *; Dealt(env.cfg, sys.db, DbAfter(env, sys, step))
  {
    hide Safe, Enabled, DbAfter, Dealt;
    if step.PrepareStep? {
      PrepareStepDealt(env, sys, step);
    } else if step.ClaimStep? {
      ClaimStepDealt(env, sys, step);
    } else {
      StepKept(env, sys, step);
    }
  }
}
