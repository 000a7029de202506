/**
 * Promises of the documentation that the code keeps only sometimes. Each is stated with the exact condition under which
 * the code keeps it and with an input for which it does not.
 */
module Promises {
  import opened Wrappers
  import opened Calendar
  import opened Protocol
  import opened Model
  import opened Transition
  import opened Engine
  import opened Effects

  // ---------- reversing a cancellation ----------

  /** A waiting expiry of a subscription. */
  ghost predicate ExpiryWaits(s: Store, ref: string, id: string) {
    id in s.actions && s.actions[id].ref == ref && s.actions[id].kind.Expire? && s.actions[id].status.Pending?
    && s.actions[id].key == KeyOf(ref, Expire, s.actions[id].target)
  }

  /** Reversing a cancellation should cancel the pending expiry. It does so if and only if the subscription is billed
      through Adyen: for Stripe the expiry stays and will end the restored subscription. */
  lemma RestorationCancelsExpiry(s: Store, next: Subscription, ids: Ids, now: Instant, id: string)
    requires ExpiryWaits(s, next.ref, id) && next.status == Status.Active
             && CommitChange(s, false, next, Renewed, ids, now).Success?
    ensures var s' := CommitChange(s, false, next, Renewed, ids, now).value;
            id in s'.actions && (!ExpiryWaits(s', next.ref, id) <==> next.family == Adyen)
  {
    hide CommitChange, FollowUp, BuildCallback, ValidateCallback, NewEvent, Added;
    CommitEffect(s, false, next, Renewed, ids, now);
    var s' := CommitChange(s, false, next, Renewed, ids, now).value;
    if next.family == Adyen {
      RenewalCancels(s.(subs := s'.subs, outbound := s'.outbound), next, ids.action, id);
    } else {
      assert Spared(s.actions[id], Renewed, next);
    }
  }

  lemma RenewalCancels(s: Store, next: Subscription, newId: string, id: string)
    requires ExpiryWaits(s, next.ref, id) && next.status == Status.Active && next.family == Adyen
    ensures var s' := FollowUp(s, Renewed, next, newId); id in s'.actions && s'.actions[id].status.Canceled?
  {
    hide FollowUp;
    FollowUpShape(s, Renewed, next, newId);
  }

  // ---------- the expiry of a canceled subscription ----------

  /** The expiry that a cancellation needs is waiting. */
  ghost predicate ExpiryScheduled(s: Store, ref: string, end: Instant) {
    exists id :: id in s.actions && s.actions[id].key == KeyOf(ref, Expire, end) && s.actions[id].status.Pending?
  }

  /** No action with that key exists, or one that is waiting. */
  ghost predicate KeyIsFreeOrWaiting(s: Store, key: ActionKey) {
    NoSuchKey(s, key) || exists id :: id in s.actions && s.actions[id].key == key && s.actions[id].status.Pending?
  }

  lemma CancellationKept(s: Store, s': Store, key: ActionKey, ref: string, added: ScheduledAction, id: string)
    requires Rescheduled(s, s', ref, Some(key), Some(added)) && id in s.actions && s.actions[id].key == key
    ensures id in s'.actions && s'.actions[id] == s.actions[id]
  {
  }

  lemma KeysKept(s: Store, s': Store, ref: string, key: ActionKey, added: ScheduledAction)
    requires Rescheduled(s, s', ref, Some(key), Some(added))
    ensures forall id :: id in s.actions ==> id in s'.actions && s'.actions[id].key == s.actions[id].key
  {
  }

  /** A canceled subscription should have an expiry due at the end of its period. A cancellation leaves one behind if
      and only if its key is free or the action with that key is still waiting: a conflict with an action that is
      already done or canceled is swallowed, and the subscription never expires. */
  lemma CancellationSchedulesExpiry(s: Store, next: Subscription, newId: string)
    requires newId !in s.actions
    ensures ExpiryScheduled(FollowUp(s, WasCanceled, next, newId), next.ref, next.periodEnd)
            <==> KeyIsFreeOrWaiting(s, KeyOf(next.ref, Expire, next.periodEnd))
  {
    hide FollowUp;
    var key := KeyOf(next.ref, Expire, next.periodEnd);
    var s' := FollowUp(s, WasCanceled, next, newId);
    var added := NewAction(newId, next.ref, Expire, next.periodEnd);
    FollowUpShape(s, WasCanceled, next, newId);
    if NoSuchKey(s, key) {
      FollowUpAdds(s, WasCanceled, next, newId);
      assert s'.actions[newId].key == key && s'.actions[newId].status.Pending?;
    } else {
      KeysKept(s, s', next.ref, key, added);
      ScheduledOnlyBefore(s, s', next.ref, key, added);
    }
  }

  lemma ScheduledOnlyBefore(s: Store, s': Store, ref: string, key: ActionKey, added: ScheduledAction)
    requires Rescheduled(s, s', ref, Some(key), Some(added)) && added.key == key && !NoSuchKey(s, key)
    ensures (exists id :: id in s'.actions && s'.actions[id].key == key && s'.actions[id].status.Pending?)
            <==> (exists id :: id in s.actions && s.actions[id].key == key && s.actions[id].status.Pending?)
  {
    KeysKept(s, s', ref, key, added);
    if id :| id in s.actions && s.actions[id].key == key && s.actions[id].status.Pending? {
      CancellationKept(s, s', key, ref, added, id);
    }
    if id :| id in s'.actions && s'.actions[id].key == key && s'.actions[id].status.Pending? {
      if id in s.actions {
        CancellationKept(s, s', key, ref, added, id);
      }
    }
  }

  // ---------- period regression ----------

  /** Which branch of the state machine takes up an observation, and whether that branch would change the row. */
  predicate Moves(current: Subscription, obs: Observation) {
    if obs.immediateExpire || obs.status == Status.Expired then true
    else if obs.eventType == Some(PlanChanged)
            || (obs.planId != "" && obs.planId != current.planId && obs.status == Status.Active) then
      current.status == Status.Active
    else if obs.status == Status.Canceled || obs.cancelAtPeriodEnd then current.status != Status.Canceled
    else if obs.status == Status.PastDue then current.status != Status.PastDue
    else obs.status == Status.Active || obs.status == Status.Trialing
  }

  /** An observation that would move the period end back gets through exactly when the subscription has not expired, the
      observed period is in order, and the branch is not a no-op for the present status. */
  predicate Regresses(current: Subscription, obs: Observation) {
    && current.status != Status.Expired
    && (if obs.periodStart != ZERO_TIME then obs.periodStart else current.periodStart) < obs.periodEnd
    && Moves(current, obs)
  }

  /** An observation that would move the period end back should be rejected. It is committed, with the earlier end, if
      and only if it regresses in this sense; every other one changes nothing or is refused for its period. */
  lemma PeriodEndRegresses(current: Subscription, obs: Observation, now: Instant)
    requires GoodRow(current) && obs.periodEnd != ZERO_TIME && obs.periodEnd < current.periodEnd
    ensures var d := Decide(current, obs, now);
            if Regresses(current, obs) then d.Success? && d.value.Change? && d.value.next.periodEnd == obs.periodEnd
            else d == Success(Noop) || d == Failure(UnorderedPeriod)
  {
  }

  /** Nothing else moves the end back. */
  lemma OnlyEarlierEndsRegress(current: Subscription, obs: Observation, now: Instant)
    requires GoodRow(current)
    ensures var d := Decide(current, obs, now);
            (d.Success? && d.value.Change? && d.value.next.periodEnd < current.periodEnd)
            <==> obs.periodEnd != ZERO_TIME && obs.periodEnd < current.periodEnd && Regresses(current, obs)
  {
    hide Decide, GoodRow, Regresses;
    if obs.periodEnd != ZERO_TIME && obs.periodEnd < current.periodEnd {
      PeriodEndRegresses(current, obs, now);
    } else {
      LaterEnd(current, obs, now);
    }
  }

  lemma LaterEnd(current: Subscription, obs: Observation, now: Instant)
    requires obs.periodEnd == ZERO_TIME || obs.periodEnd >= current.periodEnd
    ensures var d := Decide(current, obs, now);
            d.Success? && d.value.Change? ==> d.value.next.periodEnd >= current.periodEnd
  {
  }
}
