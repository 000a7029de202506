/** What the engine's building blocks do to each table, for the proofs about runs. */
module Effects {
  import opened Wrappers
  import opened Calendar
  import opened Protocol
  import opened Model
  import opened Engine

  /** An action keeps its identity. */
  predicate SameAction(a: ScheduledAction, b: ScheduledAction) {
    a.id == b.id && a.key == b.key && a.ref == b.ref && a.kind == b.kind && a.target == b.target
  }

  predicate CanceledFrom(a: ScheduledAction, b: ScheduledAction) {
    (a.status.Pending? || a.status.Uncertain?) && b == a.(status := ActionStatus.Canceled, claim := a.claim.Release())
  }

  /** Follow-up work cancels waiting actions of one subscription and adds at most one action. */
  ghost predicate Followed(before: map<string, ScheduledAction>, after: map<string, ScheduledAction>, event: EventType,
        next: Subscription, newId: string) {
    && (forall id :: id in before ==>
          id in after
          && (after[id] == before[id] || (before[id].ref == next.ref && CanceledFrom(before[id], after[id]))))
    && (forall id :: id in after && id !in before ==> id == newId && Added(after[id], event, next, newId))
    && (forall id, other :: id in after && id !in before && other in before ==> before[other].key != after[id].key)
  }

  predicate Added(a: ScheduledAction, event: EventType, next: Subscription, newId: string) {
    || (StartsRenewal(event, next) && a == NewAction(newId, next.ref, Renew, next.periodEnd))
    || (event == WasCanceled && a == NewAction(newId, next.ref, Expire, next.periodEnd))
  }

  /** Which waiting actions follow-up work cancels: those of the subscription, except the one it asks for. */
  predicate Spared(a: ScheduledAction, event: EventType, next: Subscription) {
    || a.ref != next.ref
    || (event != WasExpired && event != WasCanceled && !StartsRenewal(event, next))
    || (StartsRenewal(event, next) && a.key == KeyOf(next.ref, Renew, next.periodEnd))
    || (event == WasCanceled && a.key == KeyOf(next.ref, Expire, next.periodEnd))
  }

  lemma CancelEffect(s: Store, ref: string, except: Option<ActionKey>)
    ensures var s' := CancelActions(s, ref, except);
            && s' == s.(actions := s'.actions) && s'.actions.Keys == s.actions.Keys
            && forall id :: id in s.actions ==>
                 if Cancelable(s.actions[id], ref, except) then CanceledFrom(s.actions[id], s'.actions[id])
                 else s'.actions[id] == s.actions[id]
  {
  }

  predicate NoSuchKey(s: Store, key: ActionKey) {
    forall id :: id in s.actions ==> s.actions[id].key != key
  }

  lemma EnsureEffect(s: Store, a: ScheduledAction)
    ensures EnsureAction(s, a) == if a.id !in s.actions && NoSuchKey(s, a.key) then s.(actions := s.actions[a.id := a])
            else s
  {
  }

  lemma ScheduleEffect(s: Store, ref: string, kind: ActionKind, target: Instant, id: string)
    ensures var key, s1, s' := KeyOf(ref, kind, target), CancelActions(s, ref, Some(KeyOf(ref, kind, target))),
            Schedule(s, ref, kind, target, id);
            s' == s.(actions := if id !in s.actions && NoSuchKey(s, key)
                                then s1.actions[id := NewAction(id, ref, kind, target)] else s1.actions)
  {
    hide CancelActions, EnsureAction;
    var key := KeyOf(ref, kind, target);
    var s1 := CancelActions(s, ref, Some(key));
    CancelEffect(s, ref, Some(key));
    EnsureEffect(s1, NewAction(id, ref, kind, target));
    assert NoSuchKey(s1, key) <==> NoSuchKey(s, key) by {
      forall i | i in s.actions ensures s1.actions[i].key == s.actions[i].key {
      }
    }
  }

  /** Actions before and after some waiting ones were canceled and at most one was added. */
  ghost predicate Rescheduled(s: Store, s': Store, ref: string, except: Option<ActionKey>,
          added: Option<ScheduledAction>) {
    && s' == s.(actions := s'.actions)
    && (forall id :: id in s.actions ==>
          id in s'.actions
          && (if Cancelable(s.actions[id], ref, except) then CanceledFrom(s.actions[id],
              s'.actions[id]) else s'.actions[id] == s.actions[id]))
    && (forall id :: id in s'.actions && id !in s.actions ==>
          added.Some? && id == added.value.id && s'.actions[id] == added.value && NoSuchKey(s, added.value.key))
  }

  lemma ScheduleShape(s: Store, ref: string, kind: ActionKind, target: Instant, id: string)
    ensures Rescheduled(s, Schedule(s, ref, kind, target, id), ref, Some(KeyOf(ref, kind, target)),
                        Some(NewAction(id, ref, kind, target)))
  {
    hide Schedule, CancelActions, NoSuchKey;
    ScheduleEffect(s, ref, kind, target, id);
    CancelEffect(s, ref, Some(KeyOf(ref, kind, target)));
  }

  lemma FollowUpShape(s: Store, event: EventType, next: Subscription, newId: string)
    ensures var s' := FollowUp(s, event, next, newId);
            if StartsRenewal(event, next) || event == WasCanceled
            then Rescheduled(s, s', next.ref, Some(KeyOf(next.ref, Wanted(event), next.periodEnd)),
                             Some(NewAction(newId, next.ref, Wanted(event), next.periodEnd)))
            else if event == WasExpired then Rescheduled(s, s', next.ref, None, None)
            else s' == s
  {
    hide Schedule, CancelActions, Rescheduled;
    if StartsRenewal(event, next) || event == WasCanceled {
      ScheduleShape(s, next.ref, Wanted(event), next.periodEnd, newId);
    } else if event == WasExpired {
      AllCanceled(s, next.ref);
    }
  }

  lemma AllCanceled(s: Store, ref: string)
    ensures Rescheduled(s, CancelActions(s, ref, None), ref, None, None)
  {
    hide CancelActions;
    CancelEffect(s, ref, None);
  }

  lemma RescheduledFollows(s: Store, s': Store, event: EventType, next: Subscription, newId: string,
          except: Option<ActionKey>, added: Option<ScheduledAction>)
    requires Rescheduled(s, s', next.ref, except, added)
    requires added.Some? ==> Added(added.value, event, next, newId) && except == Some(added.value.key)
    requires added.None? ==> except.None? && event == WasExpired
    ensures Followed(s.actions, s'.actions, event, next, newId)
    ensures forall id :: id in s.actions && Spared(s.actions[id], event, next) ==> s'.actions[id] == s.actions[id]
  {
  }

  lemma FollowUpEffect(s: Store, event: EventType, next: Subscription, newId: string)
    ensures var s' := FollowUp(s, event, next, newId);
            && s' == s.(actions := s'.actions)
            && Followed(s.actions, s'.actions, event, next, newId)
            && (forall id :: id in s.actions && Spared(s.actions[id], event, next) ==> s'.actions[id] == s.actions[id])
  {
    hide FollowUp, Spared;
    FollowUpShape(s, event, next, newId);
    var s' := FollowUp(s, event, next, newId);
    if StartsRenewal(event, next) || event == WasCanceled {
      hide Followed;
      var a := NewAction(newId, next.ref, Wanted(event), next.periodEnd);
      RescheduledFollows(s, s', event, next, newId, Some(a.key), Some(a));
    } else if event == WasExpired {
      hide Followed;
      RescheduledFollows(s, s', event, next, newId, None, None);
    }
  }

  /** The kind of action that an event asks for. */
  function Wanted(event: EventType): ActionKind {
    if event == WasCanceled then Expire else Renew
  }

  /** The needed action is there afterwards, as long as its identifier is fresh: a conflict means that it was there
      before. */
  lemma FollowUpAdds(s: Store, event: EventType, next: Subscription, newId: string)
    requires newId !in s.actions && (StartsRenewal(event, next) || event == WasCanceled)
    requires NoSuchKey(s, KeyOf(next.ref, Wanted(event), next.periodEnd))
    ensures var s' := FollowUp(s, event, next, newId);
            newId in s'.actions && s'.actions[newId] == NewAction(newId, next.ref, Wanted(event), next.periodEnd)
  {
    hide Schedule, CancelActions, NoSuchKey;
    ScheduleEffect(s, next.ref, Wanted(event), next.periodEnd, newId);
  }

  /** A committed change writes one row, one event and its follow-up work, and nothing else. */
  lemma CommitEffect(s: Store, created: bool, next: Subscription, event: EventType, ids: Ids, now: Instant)
    requires CommitChange(s, created, next, event, ids, now).Success?
    ensures var s' := CommitChange(s, created, next, event, ids, now).value;
            && s' == s.(subs := s.subs[next.ref := next],
                        outbound := s.outbound[ids.event := NewEvent(ids.event, event, next,
                                                                     BuildCallback(ids.event, event, next), now)],
                        actions := s'.actions)
            && s'.actions == FollowUp(s.(subs := s'.subs, outbound := s'.outbound), event, next, ids.action).actions
            && Followed(s.actions, s'.actions, event, next, ids.action)
            && (forall id :: id in s.actions && Spared(s.actions[id], event, next) ==> s'.actions[id] == s.actions[id])
    ensures ids.event !in s.outbound
    ensures forall id :: id in s.outbound ==> s.outbound[id].ref != next.ref || s.outbound[id].version != next.version
    ensures if created then next.ref !in s.subs && (forall r :: r in s.subs ==> s.subs[r].checkoutId != next.checkoutId)
            else next.ref in s.subs
    ensures ValidateCallback(BuildCallback(ids.event, event, next)).Success?
  {
    hide FollowUp, BuildCallback, ValidateCallback, Followed, Spared;
    var s2 := s.(subs := s.subs[next.ref := next],
                 outbound := s.outbound[ids.event := NewEvent(ids.event, event, next,
                                                              BuildCallback(ids.event, event, next), now)]);
    FollowUpEffect(s2, event, next, ids.action);
  }
}
