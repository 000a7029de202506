/** The engine's building blocks keep the charge invariants. */
module ChargeBlocks {
  import opened Wrappers
  import opened Calendar
  import opened Protocol
  import opened Model
  import opened Transition
  import opened Engine
  import opened System
  import opened Effects
  import opened ChargeSafety

  // ---------- actions ----------

  /** One action moves on; a renewal may be finished only if its subscription is not served or the action is exempt. */
  ghost predicate ActionMoves(s: Store, a: ScheduledAction, x: Option<string>) {
    && a.id in s.actions && SameAction(s.actions[a.id], a)
    && (Claimable(a.status) ==> Claimable(s.actions[a.id].status))
    && (Claimable(a.status) || !a.kind.Renew? || x == Some(a.id) || !Claimable(s.actions[a.id].status)
        || a.ref !in s.subs || s.subs[a.ref].status != Status.Active)
  }

  lemma ActionKeeps(env: Environment, s: Store, a: ScheduledAction, x: Option<string>)
    requires ChargeInv(env, s, x) && ActionMoves(s, a, x)
    ensures ChargeInv(env, s.(actions := s.actions[a.id := a]), x)
  {
    hide GoodAttempts, TruthfulAttempts, RefusedBefore, Numbered, Priced, WorkingAttempts, OnTarget, NotAhead, Renewing,
         Counted, GoodRow;
    var s' := s.(actions := s.actions[a.id := a]);
    assert Quiet(s, s', x) by {
      hide Claimable;
      assert GoodActions(s');
      assert forall id :: id in s.actions ==> id in s'.actions && (id != a.id ==> s'.actions[id] == s.actions[id]);
    }
    QuietKeeps(env, s, s', x);
  }

  lemma EnsureExpiryKeeps(env: Environment, s: Store, id: string, ref: string, target: Instant, x: Option<string>)
    requires ChargeInv(env, s, x)
    ensures ChargeInv(env, EnsureAction(s, NewAction(id, ref, Expire, target)), x)
  {
    hide GoodAttempts, TruthfulAttempts, RefusedBefore, Numbered, Priced, WorkingAttempts, OnTarget, NotAhead, Renewing,
         Counted, GoodRow, EnsureAction;
    var s' := EnsureAction(s, NewAction(id, ref, Expire, target));
    EnsureEffect(s, NewAction(id, ref, Expire, target));
    assert Quiet(s, s', x);
    QuietKeeps(env, s, s', x);
  }

  // ---------- subscriptions ----------

  /** A subscription row may be rewritten as long as an Adyen row keeps its period and is not activated. */
  lemma SubKeeps(env: Environment, s: Store, sub: Subscription, x: Option<string>)
    requires ChargeInv(env, s, x) && GoodRow(sub)
    requires sub.ref in s.subs && SubSettles(s.subs[sub.ref], sub)
    ensures ChargeInv(env, s.(subs := s.subs[sub.ref := sub]), x)
  {
    hide GoodAttempts, TruthfulAttempts, RefusedBefore, Numbered, Priced, WorkingAttempts, OnTarget, NotAhead, Renewing,
         Counted, GoodRow;
    var s' := s.(subs := s.subs[sub.ref := sub]);
    assert Quiet(s, s', x);
    QuietKeeps(env, s, s', x);
  }

  /** A change that does not renew an Adyen subscription: it is committed without disturbing attempts or periods. */
  predicate QuietChange(s: Store, created: bool, event: EventType, next: Subscription) {
    && GoodRow(next)
    && (if created then next.family == Stripe else next.ref in s.subs && SubSettles(s.subs[next.ref], next))
    && (next.family == Adyen ==> event != Activated && event != Renewed)
    && (event == WasCanceled || event == WasExpired ==> next.status != Status.Active)
  }

  /** Follow-up work touches waiting actions only. */
  lemma FollowedGood(s: Store, s': Store, event: EventType, next: Subscription, newId: string)
    requires GoodActions(s) && Followed(s.actions, s'.actions, event, next, newId)
    ensures GoodActions(s')
  {
    hide StartsRenewal;
    forall id | id in s'.actions
      ensures s'.actions[id].id == id
              && s'.actions[id].key == KeyOf(s'.actions[id].ref, s'.actions[id].kind, s'.actions[id].target)
    {
    }
    forall i, j | i in s'.actions && j in s'.actions && s'.actions[i].key == s'.actions[j].key ensures i == j {
      assert i in s.actions ==> s'.actions[i].key == s.actions[i].key;
      assert j in s.actions ==> s'.actions[j].key == s.actions[j].key;
    }
  }

  lemma FollowedSettles(s: Store, s': Store, event: EventType, next: Subscription, newId: string)
    requires Followed(s.actions, s'.actions, event, next, newId) && !StartsRenewal(event, next)
    ensures ActionsSettle(s, s')
  {
    hide StartsRenewal;
  }

  /** A renewal that follow-up work cancels belongs to the subscription that changed. */
  lemma FollowedRenewals(s: Store, s': Store, event: EventType, next: Subscription, newId: string, id: string)
    requires Followed(s.actions, s'.actions, event, next, newId) && id in s.actions
    requires Spared(s.actions[id], event, next) ==> s'.actions[id] == s.actions[id]
    ensures id in s'.actions
    ensures s.actions[id].ref != next.ref ==> s'.actions[id] == s.actions[id]
    ensures event != WasExpired && event != WasCanceled && !StartsRenewal(event, next) ==>
              s'.actions[id] == s.actions[id]
  {
  }

  lemma CommitQuiet(s: Store, created: bool, next: Subscription, event: EventType, ids: Ids, now: Instant,
          x: Option<string>)
    requires GoodSubs(s) && GoodActions(s) && QuietChange(s, created, event, next)
    requires CommitChange(s, created, next, event, ids, now).Success?
    ensures Quiet(s, CommitChange(s, created, next, event, ids, now).value, x)
  {
    hide GoodRow, CommitChange, FollowUp, ActionsSettle, GoodActions, Followed, BuildCallback, ValidateCallback,
         NewEvent, Spared;
    var s' := CommitChange(s, created, next, event, ids, now).value;
    CommitEffect(s, created, next, event, ids, now);
    FollowedGood(s, s', event, next, ids.action);
    FollowedSettles(s, s', event, next, ids.action);
    assert SubsSettle(s, s');
    assert s'.subs[next.ref] == next;
    forall id | id in s.actions && RenewalWaiting(s, s.actions[id].ref, id)
      ensures RenewalWaiting(s', s.actions[id].ref, id) || s.actions[id].ref !in s'.subs
              || s'.subs[s.actions[id].ref].status != Status.Active
    {
      FollowedRenewals(s, s', event, next, ids.action, id);
    }
  }

  lemma CommitKeeps(env: Environment, s: Store, created: bool, next: Subscription, event: EventType, ids: Ids,
          now: Instant, x: Option<string>)
    requires ChargeInv(env, s, x) && QuietChange(s, created, event, next)
    requires CommitChange(s, created, next, event, ids, now).Success?
    ensures hide *; ChargeInv(env, CommitChange(s, created, next, event, ids, now).value, x)
  {
    hide GoodSubs, GoodActions, GoodAttempts, TruthfulAttempts, RefusedBefore, Numbered, Priced, WorkingAttempts,
         OnTarget, NotAhead, Renewing, Counted, GoodRow, CommitChange, Quiet, QuietChange;
    CommitQuiet(s, created, next, event, ids, now, x);
    QuietKeeps(env, s, CommitChange(s, created, next, event, ids, now).value, x);
  }

  /** Past due, canceled and expired: observations without a period that never activate. */
  predicate QuietObservation(obs: Observation) {
    && obs.periodStart == ZERO_TIME && obs.periodEnd == ZERO_TIME && obs.planId == "" && obs.eventType.None?
    && obs.status != Status.Active && obs.status != Status.Trialing
  }

  lemma QuietDecision(sub: Subscription, obs: Observation, now: Instant)
    requires GoodRow(sub) && QuietObservation(obs) && Decide(sub, obs, now).Success?
             && Decide(sub, obs, now).value.Change?
    ensures var d := Decide(sub, obs, now).value;
            && GoodRow(d.next) && d.next.ref == sub.ref && SubSettles(sub, d.next) && d.next.status != Status.Active
            && d.event != Activated && d.event != Renewed
            && d.next.periodStart == sub.periodStart && d.next.periodEnd == sub.periodEnd && d.next.planId == sub.planId
  {
    hide GoodRow;
    DecideAdvances(sub, obs, now);
  }

  lemma ObserveKeeps(env: Environment, s: Store, ref: string, obs: Observation, now: Instant, ids: Ids, txNow: Instant,
          x: Option<string>)
    requires ChargeInv(env, s, x) && QuietObservation(obs) && Observe(s, ref, obs, now, ids, txNow).Success?
    ensures hide *; ChargeInv(env, Observe(s, ref, obs, now, ids, txNow).value, x)
  {
    hide GoodActions, GoodAttempts, TruthfulAttempts, RefusedBefore, Numbered, Priced, WorkingAttempts, OnTarget,
         NotAhead, Renewing, Counted, GoodRow, CommitChange, Decide, QuietObservation;
    var d := Decide(s.subs[ref], obs, now).value;
    if d.Change? {
      QuietDecision(s.subs[ref], obs, now);
      CommitKeeps(env, s, false, d.next, d.event, ids, txNow, x);
    }
  }

  /** The subscription is not active afterwards; only waiting actions were canceled and at most one was added. */
  ghost predicate Left(s: Store, s': Store, ref: string, newId: string) {
    && s'.attempts == s.attempts
    && ref in s.subs && ref in s'.subs && s'.subs == s.subs[ref := s'.subs[ref]] && s'.subs[ref].status != Status.Active
    && (forall id :: id in s.actions ==>
                  id in s'.actions && (s'.actions[id] == s.actions[id] || CanceledFrom(s.actions[id], s'.actions[id])))
    && (forall id :: id in s'.actions && id !in s.actions ==> id == newId)
  }

  /** After an observation of non-payment, of a cancellation or of an end, the subscription is not active. */
  lemma ObserveLeaves(s: Store, ref: string, obs: Observation, now: Instant, ids: Ids, txNow: Instant)
    requires GoodSubs(s) && Observe(s, ref, obs, now, ids, txNow).Success?
    requires QuietObservation(obs)
             && (obs.status == Status.PastDue || obs.status == Status.Canceled || obs.status == Status.Expired)
    ensures Left(s, Observe(s, ref, obs, now, ids, txNow).value, ref, ids.action)
  {
    hide GoodRow, CommitChange, FollowUp, BuildCallback, ValidateCallback, NewEvent, Spared, QuietObservation, Decide,
         Added, CanceledFrom;
    var sub := s.subs[ref];
    QuietOutcome(sub, obs, now);
    var d := Decide(sub, obs, now).value;
    if d.Change? {
      CommitEffect(s, false, d.next, d.event, ids, txNow);
    }
  }

  lemma QuietOutcome(sub: Subscription, obs: Observation, now: Instant)
    requires GoodRow(sub) && QuietObservation(obs) && Decide(sub, obs, now).Success?
    requires obs.status == Status.PastDue || obs.status == Status.Canceled || obs.status == Status.Expired
    ensures var d := Decide(sub, obs, now).value;
            if d.Change? then d.next.ref == sub.ref && d.next.status != Status.Active else sub.status != Status.Active
  {
    if Decide(sub, obs, now).value.Change? {
      hide GoodRow, Decide;
      QuietDecision(sub, obs, now);
    }
  }

  // ---------- renewals ----------

  /** Attempt `t` of action `x` is recorded as authorised and pays for the period after the current one, which `next`
      now has. */
  ghost predicate Pays(env: Environment, s: Store, x: string, t: ChargeAttempt, next: Subscription) {
    && t.id in s.attempts && s.attempts[t.id] == t && t.actionId == x && Authorises(env, t) && t.status.Authorized?
    && t.ref in s.subs && s.subs[t.ref].family == Adyen && s.subs[t.ref].periodEnd == t.periodStart
    && GoodRow(next) && next.ref == t.ref && next.family == Adyen && next.status == Status.Active
       && next.periodEnd == t.periodEnd
    && next.planId == s.subs[t.ref].planId && next.shopperRef == s.subs[t.ref].shopperRef
    && t.periodStart < t.periodEnd && Dated(next)
  }

  /** The tables after a renewal was committed. */
  ghost predicate RenewalCommitted(s: Store, s': Store, event: EventType, next: Subscription, newId: string) {
    && s'.attempts == s.attempts && s'.subs == s.subs[next.ref := next]
    && Followed(s.actions, s'.actions, event, next, newId) && (event == Renewed || event == Activated)
  }

  lemma RenewalActions(s: Store, s': Store, event: EventType, next: Subscription, newId: string, id: string)
    requires RenewalCommitted(s, s', event, next, newId) && id in s'.actions
    ensures if id in s.actions
            then SameAction(s.actions[id], s'.actions[id])
                   && (Claimable(s'.actions[id].status) ==> s'.actions[id] == s.actions[id])
                 && (s.actions[id].ref != next.ref ==> s'.actions[id] == s.actions[id])
            else s'.actions[id] == NewAction(id, next.ref, Renew, next.periodEnd)
  {
  }

  lemma RenewalTargets(env: Environment, s: Store, s': Store, x: string, t: ChargeAttempt, event: EventType,
          next: Subscription, newId: string)
    requires GoodActions(s) && GoodAttempts(s) && OnTarget(s, Some(x)) && NotAhead(s)
    requires Pays(env, s, x, t, next) && RenewalCommitted(s, s', event, next, newId)
    ensures OnTarget(s', Some(x)) && NotAhead(s')
  {
    hide RenewalCommitted, GoodRow, Claimable, GoodActions, GoodAttempts;
    assert s'.subs == s.subs[next.ref := next] by { RenewalTables(s, s', event, next, newId); }
    forall id | id in s'.actions && s'.actions[id].kind.Renew?
      ensures var a := s'.actions[id];
              && a.ref in s'.subs && s'.subs[a.ref].family == Adyen && a.target <= s'.subs[a.ref].periodEnd
              && (Claimable(a.status) && id != x ==> a.target == s'.subs[a.ref].periodEnd)
    {
      RenewalActions(s, s', event, next, newId, id);
      if id in s.actions && s.actions[id].ref == next.ref && s.actions[id].target == t.periodStart {
        SameTarget(env, s, x, t, next, id);
      }
    }
  }

  /** The renewal that an attempt of action `x` pays for is `x`. */
  lemma SameTarget(env: Environment, s: Store, x: string, t: ChargeAttempt, next: Subscription, id: string)
    requires GoodActions(s) && GoodAttempts(s) && Pays(env, s, x, t, next)
    requires id in s.actions && s.actions[id].kind.Renew? && s.actions[id].ref == next.ref
             && s.actions[id].target == t.periodStart
    ensures id == x
  {
    hide GoodRow;
    assert Belongs(t, s.actions[x]);
    assert s.actions[id].key == s.actions[x].key;
  }

  lemma RenewalTables(s: Store, s': Store, event: EventType, next: Subscription, newId: string)
    requires RenewalCommitted(s, s', event, next, newId)
    ensures s'.subs == s.subs[next.ref := next] && s'.attempts == s.attempts && s.actions.Keys <= s'.actions.Keys
  {
  }

  lemma RenewalAttempts(env: Environment, s: Store, s': Store, x: Option<string>, event: EventType, next: Subscription,
          newId: string)
    requires GoodAttempts(s) && WorkingAttempts(env, s, x) && RenewalCommitted(s, s', event, next, newId)
    ensures GoodAttempts(s') && WorkingAttempts(env, s', x)
  {
    hide RenewalCommitted, Working, Claimable;
    RenewalTables(s, s', event, next, newId);
    forall id | id in s'.attempts
      ensures var u := s'.attempts[id];
              && u.actionId in s'.actions && Belongs(u, s'.actions[u.actionId])
              && (Claimable(s'.actions[u.actionId].status) ==> Claimable(s.actions[u.actionId].status))
    {
      assert Belongs(s.attempts[id], s.actions[s.attempts[id].actionId]);
      RenewalActions(s, s', event, next, newId, s.attempts[id].actionId);
    }
  }

  lemma RenewalPriced(env: Environment, s: Store, s': Store, x: string, t: ChargeAttempt, next: Subscription)
    requires Priced(env, s) && Pays(env, s, x, t, next) && s'.attempts == s.attempts
             && s'.subs == s.subs[next.ref := next]
    ensures Priced(env, s')
  {
    hide GoodRow, Matches;
  }

  /** No authorised attempt of the subscription is left that is not on record as such. */
  lemma RenewalCountsAttempt(env: Environment, s: Store, x: string, t: ChargeAttempt, next: Subscription, id: string)
    requires GoodActions(s) && GoodAttempts(s) && RefusedBefore(env, s) && NotAhead(s) && Counted(env, s)
             && Pays(env, s, x, t, next)
    requires id in s.attempts && Authorises(env, s.attempts[id]) && s.attempts[id].ref == next.ref
    ensures s.attempts[id].status.Authorized?
  {
    hide RefusedBefore, GoodRow, GoodActions;
    var u := s.attempts[id];
    assert Belongs(u, s.actions[u.actionId]);
    if u.periodStart == t.periodStart {
      hide GoodAttempts;
      OneActionPerPeriod(s, id, t.id);
      OneChargePerAction(env, s, id, t.id);
    }
  }

  lemma RenewalCounted(env: Environment, s: Store, s': Store, x: string, t: ChargeAttempt, next: Subscription)
    requires GoodActions(s) && GoodAttempts(s) && RefusedBefore(env, s) && NotAhead(s) && Counted(env, s)
    requires Pays(env, s, x, t, next) && s'.attempts == s.attempts && s'.subs == s.subs[next.ref := next]
    ensures Counted(env, s')
  {
    hide RefusedBefore, GoodRow, GoodActions, GoodAttempts, NotAhead, Pays, Authorises;
    forall id | id in s.attempts && Authorises(env, s.attempts[id]) && s.attempts[id].ref == next.ref
      ensures s.attempts[id].status.Authorized?
    {
      RenewalCountsAttempt(env, s, x, t, next, id);
    }
  }

  lemma RenewalRenewing(s: Store, s': Store, x: Option<string>, event: EventType, next: Subscription, newId: string)
    requires Renewing(s, x) && RenewalCommitted(s, s', event, next, newId) && RenewalWaiting(s', next.ref, newId)
    ensures Renewing(s', x)
  {
    hide RenewalCommitted, Claimable;
    RenewalTables(s, s', event, next, newId);
    forall ref | ref in s'.subs && s'.subs[ref].family == Adyen && s'.subs[ref].status == Status.Active && !Concerns(s',
        x, ref)
      ensures exists id :: RenewalWaiting(s', ref, id)
    {
      if ref == next.ref {
        assert RenewalWaiting(s', ref, newId);
      } else {
        assert !Concerns(s, x, ref) by {
          if x.Some? && x.value in s.actions {
            RenewalActions(s, s', event, next, newId, x.value);
          }
        }
        var id :| RenewalWaiting(s, ref, id);
        RenewalActions(s, s', event, next, newId, id);
        assert RenewalWaiting(s', ref, id);
      }
    }
  }

  lemma RenewalKeepsAll(env: Environment, s: Store, s': Store, x: string, t: ChargeAttempt, event: EventType,
          next: Subscription, newId: string)
    requires ChargeInv(env, s, Some(x)) && Pays(env, s, x, t, next)
    requires RenewalCommitted(s, s', event, next, newId) && RenewalWaiting(s', next.ref, newId)
    ensures ChargeInv(env, s', Some(x))
  {
    hide GoodActions, GoodAttempts, WorkingAttempts, RefusedBefore, OnTarget, NotAhead, Counted, Renewing, Numbered,
         Priced, RenewalCommitted, RenewalWaiting, GoodRow, Pays;
    RenewalTables(s, s', event, next, newId);
    RenewalTargets(env, s, s', x, t, event, next, newId);
    RenewalAttempts(env, s, s', Some(x), event, next, newId);
    RenewalCounted(env, s, s', x, t, next);
    RenewalPriced(env, s, s', x, t, next);
    RenewalRenewing(s, s', Some(x), event, next, newId);
    assert GoodActions(s') by {
      FollowedGood(s, s', event, next, newId) by {
        RenewalFollowed(s, s', event, next, newId);
      }
    }
    SameAttemptLists(env, s, s');
    assert GoodRow(next) && Dated(next) by { PaysRow(env, s, x, t, next); }
  }

  lemma PaysRow(env: Environment, s: Store, x: string, t: ChargeAttempt, next: Subscription)
    requires Pays(env, s, x, t, next)
    ensures GoodRow(next) && Dated(next)
  {
  }

  lemma RenewalFollowed(s: Store, s': Store, event: EventType, next: Subscription, newId: string)
    requires RenewalCommitted(s, s', event, next, newId)
    ensures Followed(s.actions, s'.actions, event, next, newId)
  {
  }

  /** Committing the renewal that an authorised attempt pays for. */
  lemma RenewKeeps(env: Environment, s: Store, x: string, t: ChargeAttempt, next: Subscription, ids: Ids, now: Instant)
    requires ChargeInv(env, s, Some(x)) && Pays(env, s, x, t, next) && ids.action !in s.actions
    requires CommitChange(s, false, next, Renewed, ids, now).Success?
    ensures hide *; var s' := CommitChange(s, false, next, Renewed, ids, now).value;
            ChargeInv(env, s', Some(x)) && RenewalWaiting(s', next.ref, ids.action)
            && RenewalCommitted(s, s', Renewed, next, ids.action)
  {
    hide GoodSubs, GoodAttempts, TruthfulAttempts, WorkingAttempts, RefusedBefore, OnTarget, Counted, Renewing,
         Numbered, Priced, GoodRow, CommitChange, FollowUp, BuildCallback, ValidateCallback, NewEvent, Spared, Followed,
         NoSuchKey;
    var s' := CommitChange(s, false, next, Renewed, ids, now).value;
    CommitEffect(s, false, next, Renewed, ids, now);
    var s2 := s.(subs := s'.subs, outbound := s'.outbound);
    assert NoSuchKey(s2, KeyOf(next.ref, Renew, next.periodEnd)) by {
      NoLaterRenewal(s, s2, next);
    }
    FollowUpAdds(s2, Renewed, next, ids.action);
    RenewalKeepsAll(env, s, s', x, t, Renewed, next, ids.action);
  }

  lemma NoLaterRenewal(s: Store, s2: Store, next: Subscription)
    requires GoodActions(s) && NotAhead(s) && s2.actions == s.actions
    requires next.ref in s.subs ==> s.subs[next.ref].periodEnd < next.periodEnd
    ensures NoSuchKey(s2, KeyOf(next.ref, Renew, next.periodEnd))
  {
  }

  // ---------- activations ----------

  /** A new active Adyen subscription. */
  ghost predicate Activates(s: Store, next: Subscription) {
    next.ref !in s.subs && GoodRow(next) && next.family == Adyen && next.status == Status.Active && Dated(next)
  }

  lemma ActivationTargets(s: Store, s': Store, next: Subscription, newId: string)
    requires OnTarget(s, None) && NotAhead(s) && Activates(s, next) && RenewalCommitted(s, s', Activated, next, newId)
    ensures OnTarget(s', None) && NotAhead(s')
  {
    hide RenewalCommitted, GoodRow, Claimable;
    RenewalTables(s, s', Activated, next, newId);
    forall id | id in s'.actions && s'.actions[id].kind.Renew?
      ensures var a := s'.actions[id];
              && a.ref in s'.subs && s'.subs[a.ref].family == Adyen && a.target <= s'.subs[a.ref].periodEnd
              && (Claimable(a.status) ==> a.target == s'.subs[a.ref].periodEnd)
    {
      RenewalActions(s, s', Activated, next, newId, id);
    }
  }

  lemma AttemptsServed(s: Store, id: string)
    requires GoodAttempts(s) && NotAhead(s) && id in s.attempts
    ensures s.attempts[id].ref in s.subs
  {
    assert Belongs(s.attempts[id], s.actions[s.attempts[id].actionId]);
  }

  lemma ActivationCounted(env: Environment, s: Store, s': Store, next: Subscription)
    requires GoodAttempts(s) && NotAhead(s) && Counted(env, s) && next.ref !in s.subs
    requires s'.attempts == s.attempts && s'.subs == s.subs[next.ref := next]
    ensures Counted(env, s')
  {
    hide GoodAttempts, NotAhead;
    forall id | id in s.attempts ensures s.attempts[id].ref in s.subs {
      AttemptsServed(s, id);
    }
  }

  lemma ActivationPriced(env: Environment, s: Store, s': Store, next: Subscription)
    requires GoodAttempts(s) && NotAhead(s) && Priced(env, s) && next.ref !in s.subs
    requires s'.attempts == s.attempts && s'.subs == s.subs[next.ref := next]
    ensures Priced(env, s')
  {
    hide Matches, GoodAttempts, NotAhead;
    forall id | id in s.attempts ensures s.attempts[id].ref in s.subs {
      AttemptsServed(s, id);
    }
  }

  lemma ActivationKeepsAll(env: Environment, s: Store, s': Store, next: Subscription, newId: string)
    requires ChargeInv(env, s, None) && Activates(s, next) && RenewalCommitted(s, s', Activated, next, newId)
    requires RenewalWaiting(s', next.ref, newId)
    ensures ChargeInv(env, s', None)
  {
    hide GoodActions, GoodAttempts, WorkingAttempts, RefusedBefore, OnTarget, NotAhead, Counted, Renewing, Numbered,
         Priced, RenewalCommitted, RenewalWaiting, GoodRow;
    RenewalTables(s, s', Activated, next, newId);
    ActivationTargets(s, s', next, newId);
    RenewalAttempts(env, s, s', None, Activated, next, newId);
    ActivationCounted(env, s, s', next);
    ActivationPriced(env, s, s', next);
    RenewalRenewing(s, s', None, Activated, next, newId);
    assert GoodActions(s') by {
      RenewalFollowed(s, s', Activated, next, newId);
      FollowedGood(s, s', Activated, next, newId);
    }
    SameAttemptLists(env, s, s');
  }

  lemma ActivateKeeps(env: Environment, s: Store, next: Subscription, ids: Ids, now: Instant)
    requires ChargeInv(env, s, None) && Activates(s, next) && ids.action !in s.actions
    requires CommitChange(s, true, next, Activated, ids, now).Success?
    ensures hide *; ChargeInv(env, CommitChange(s, true, next, Activated, ids, now).value, None)
  {
    hide GoodSubs, GoodAttempts, TruthfulAttempts, WorkingAttempts, RefusedBefore, OnTarget, Counted, Renewing,
         Numbered, Priced, GoodRow, CommitChange, FollowUp, BuildCallback, ValidateCallback, NewEvent, Spared, Followed,
         NoSuchKey;
    var s' := CommitChange(s, true, next, Activated, ids, now).value;
    CommitEffect(s, true, next, Activated, ids, now);
    var s2 := s.(subs := s'.subs, outbound := s'.outbound);
    NoLaterRenewal(s, s2, next);
    FollowUpAdds(s2, Activated, next, ids.action);
    ActivationKeepsAll(env, s, s', next, ids.action);
  }
}
