/**
 * The engine (internal/engine/engine.go) as methods that update the store in place. A transaction takes a snapshot and
 * restores it when its body fails, so that each transaction is proved to do exactly what its specification in module
 * Engine says: all of it or nothing.
 */
module EngineService {
  import opened Wrappers
  import opened Calendar
  import opened Protocol
  import opened Model
  import opened Transition
  import opened MemoryStore
  import opened Engine
  import Timestamps

  /** The body of a transaction does what its specification says; what a failed body leaves behind is rolled back
      later. */
  ghost predicate Did(spec: Result<Store, Error>, r: Result<(), Error>, after: Store) {
    match spec
    case Success(s) => r == Success(()) && after == s
    case Failure(e) => r == Failure(e)
  }

  ghost predicate DidFor(spec: Result<(Store, Option<string>), Error>, r: Result<Option<string>, Error>, after: Store) {
    match spec
    case Success((s, ref)) => r == Success(ref) && after == s
    case Failure(e) => r == Failure(e)
  }

  class Service {
    const store: Memory
    const cfg: Config

    constructor (store: Memory, cfg: Config)
      ensures this.store == store && this.cfg == cfg
    {
      this.store, this.cfg := store, cfg;
    }

    // ---------- committing ----------

    /** Replaces the pending work of a subscription; a conflict means that the action exists already. */
    method Schedule(ref: string, kind: ActionKind, target: Instant, id: string)
      modifies store
      ensures store.Contents() == Engine.Schedule(old(store.Contents()), ref, kind, target, id)
    {
      var key := KeyOf(ref, kind, target);
      store.CancelActionsForSubscription(ref, Some(key));
      var inserted :=
        store.InsertAction(ScheduledAction(id, key, ref, kind, target, target, ActionStatus.Pending, UNCLAIMED, None));
    }

    /** The follow-up work of a change. */
    method FollowUp(event: EventType, next: Subscription, id: string)
      modifies store
      ensures store.Contents() == Engine.FollowUp(old(store.Contents()), event, next, id)
    {
      hide Engine.Schedule, CancelActions;
      if next.family == Adyen && (event == Activated || event == Renewed) && next.status == Status.Active {
        Schedule(next.ref, Renew, next.periodEnd, id);
      }
      if event == WasCanceled {
        Schedule(next.ref, Expire, next.periodEnd, id);
      }
      if event == WasExpired {
        store.CancelActionsForSubscription(next.ref, None);
      }
    }

    /** Writes the row, the outbound event and the follow-up work of a change. */
    method CommitChange(created: bool, next: Subscription, event: EventType, ids: Ids, now: Instant)
      returns (r: Result<(), Error>)
      modifies store
      ensures Did(Engine.CommitChange(old(store.Contents()), created, next, event, ids, now), r, store.Contents())
    {
      hide NewCallback, NewEvent, Model.InsertSubscription, Model.UpdateSubscription, Model.InsertOutbound,
           Engine.FollowUp;
      var payload :- NewCallback(ids.event, event, next);
      if created {
        r := store.InsertSubscription(next);
      } else {
        r := store.UpdateSubscription(next);
      }
      if r.Failure? { return; }
      r := store.InsertOutbound(NewEvent(ids.event, event, next, payload, now));
      if r.Failure? { return; }
      FollowUp(event, next, ids.action);
      r := Success(());
    }

    method Commit(d: Decision, ids: Ids, now: Instant) returns (r: Result<(), Error>)
      modifies store
      ensures Did(Engine.Commit(old(store.Contents()), d, ids, now), r, store.Contents())
    {
      hide Engine.CommitChange;
      if d.Noop? { return Success(()); }
      r := CommitChange(false, d.next, d.event, ids, now);
    }

    /** Decides on the stored row and commits. */
    method Observe(ref: string, obs: Observation, now: Instant, ids: Ids, txNow: Instant) returns (r: Result<(), Error>)
      modifies store
      ensures Did(Engine.Observe(old(store.Contents()), ref, obs, now, ids, txNow), r, store.Contents())
    {
      hide Engine.Commit, Decide;
      var sub :- GetSubscription(store.Contents(), ref);
      var d :- Decide(sub, obs, now);
      r := Commit(d, ids, txNow);
    }

    // ---------- transactions ----------

    method CancelAtPeriodEnd(ref: string, now: Instant, ids: Ids, txNow: Instant) returns (r: Result<(), Error>)
      modifies store
      ensures Applied(Engine.CancelAtPeriodEnd(old(store.Contents()), ref, now, ids, txNow), old(store.Contents()), r,
                      store.Contents())
    {
      hide Engine.Observe;
      var snapshot := store.Contents();
      r := Observe(ref, CANCELLATION, now, ids, txNow);
      if r.Failure? { store.Restore(snapshot); }
    }

    method ExpireNow(ref: string, now: Instant, ids: Ids, txNow: Instant) returns (r: Result<(), Error>)
      modifies store
      ensures Applied(Engine.ExpireNow(old(store.Contents()), ref, now, ids, txNow), old(store.Contents()), r,
                      store.Contents())
    {
      hide Engine.Observe;
      var snapshot := store.Contents();
      r := Observe(ref, IMMEDIATE_EXPIRY, now, ids, txNow);
      if r.Failure? { store.Restore(snapshot); }
    }

    method StartCheckout(c: Checkout) returns (r: Result<(), Error>)
      modifies store
      ensures Applied(Engine.StartCheckout(old(store.Contents()), c), old(store.Contents()), r, store.Contents())
    {
      hide Model.InsertCheckout;
      if c.id in store.checkouts {
        var known := store.checkouts[c.id];
        if known.fingerprint != c.fingerprint || known.planId != c.planId || known.returnUrl != c.returnUrl
             || known.family != c.family {
          return Failure(CheckoutConflict);
        }
        if Terminal(known.status) {
          return Failure(CheckoutTerminal);
        }
        return Success(());
      }
      r := store.InsertCheckout(c.(status := Creating, subscriptionRef := None, processorCheckoutId := None));
    }

    method CheckoutAccepted(id: string, processorCheckoutId: string, expiresAt: Instant) returns (r: Result<(), Error>)
      modifies store
      ensures Applied(Engine.CheckoutAccepted(old(store.Contents()), id, processorCheckoutId, expiresAt),
                      old(store.Contents()), r, store.Contents())
    {
      var c :- GetCheckout(store.Contents(), id);
      c := c.(status := CheckoutStatus.Pending, processorCheckoutId := Some(processorCheckoutId));
      if expiresAt != ZERO_TIME {
        c := c.(expiresAt := expiresAt);
      }
      r := store.UpdateCheckout(c);
    }

    method CreateSubscription(co: Checkout, sub: Subscription, ids: Ids, txNow: Instant) returns (r: Result<(), Error>)
      modifies store
      ensures Did(Engine.CreateSubscription(old(store.Contents()), co, sub, ids, txNow), r, store.Contents())
    {
      hide Engine.CommitChange, Model.UpdateCheckout;
      r := CommitChange(true, sub, Activated, ids, txNow);
      if r.Failure? { return; }
      r := store.UpdateCheckout(co.(status := CheckoutStatus.Completed, subscriptionRef := Some(sub.ref)));
    }

    method ActivateCheckout(id: string, now: Instant, ids: Ids, txNow: Instant) returns (r: Result<(), Error>)
      modifies store
      ensures Applied(Engine.ActivateCheckout(old(store.Contents()), id, now, ids, txNow), old(store.Contents()), r,
                      store.Contents())
    {
      hide Engine.CreateSubscription, AddCalendarMonths;
      var snapshot := store.Contents();
      var co :- GetCheckout(snapshot, id);
      if co.subscriptionRef.Some? { return Success(()); }
      r := CreateSubscription(co,
                              FirstActivation(co, ids.subscription, Status.Active, now, AddCalendarMonths(now, 1), now,
                                              None, None, None, co.shopperRef), ids, txNow);
      if r.Failure? { store.Restore(snapshot); }
    }

    // ---------- charge attempts ----------

    method BlockAutomaticCharging(sub: Subscription, reason: string, now: Instant, ids: Ids, txNow: Instant)
      returns (r: Result<(), Error>)
      modifies store
      ensures Did(Engine.BlockAutomaticCharging(old(store.Contents()), sub, reason, now, ids, txNow), r,
                  store.Contents())
    {
      hide Engine.Commit, Decide, Model.UpdateSubscription;
      var d := Noop;
      if sub.status != Status.PastDue {
        d :- Decide(sub, Observed(Status.PastDue), now);
      }
      r := Commit(d, ids, txNow);
      if r.Failure? { return; }
      var row := if d.Change? then d.next else sub;
      r := store.UpdateSubscription(row.(chargingBlocked := true, blockReason := Some(reason)));
    }

    /** Continues dunning, or gives up and schedules the expiry. */
    method RescheduleOrExpire(t: ChargeAttempt, ref: string, now: Instant, dunningId: string)
      returns (r: Result<(), Error>)
      modifies store
      ensures Did(Engine.RescheduleOrExpire(old(store.Contents()), cfg, t, ref, now, dunningId), r, store.Contents())
    {
      hide Model.ForceFinishAction, Model.InsertAction, IsRetryableRefusal;
      if !RetryableCode(t.refusalCode) || t.number >= |cfg.retryDelays| {
        r := store.ForceFinishAction(t.actionId, ActionStatus.Completed, None, Some("refused"));
        if r.Failure? { return; }
        var inserted := store.InsertAction(NewAction(dunningId, ref, Expire, now + cfg.dunningTermination));
      } else {
        r := store.ForceFinishAction(t.actionId, ActionStatus.Pending, Some(now + cfg.retryDelays[t.number - 1]),
                                     Some("refused"));
      }
    }

    method RecordAuthorised(t: ChargeAttempt, unblock: bool, now: Instant, ids: Ids, txNow: Instant)
      returns (r: Result<(), Error>)
      modifies store
      ensures Did(Engine.RecordAuthorised(old(store.Contents()), t, unblock, now, ids, txNow), r, store.Contents())
    {
      hide Model.ForceFinishAction, Model.UpdateAttempt, Model.UpdateSubscription, Engine.Commit, Decide;
      r := store.UpdateAttempt(t.(status := Authorized));
      if r.Failure? { return; }
      r := store.ForceFinishAction(t.actionId, ActionStatus.Completed, None, None);
      if r.Failure? { return; }
      var sub :- GetSubscription(store.Contents(), t.ref);
      if unblock {
        sub := sub.(chargingBlocked := false, blockReason := None);
      }
      var d :- Decide(sub, PaidPeriod(t.periodStart, t.periodEnd), now);
      if d.Noop? {
        if unblock {
          r := store.UpdateSubscription(sub);
        }
        return;
      }
      r := Commit(d, ids, txNow);
    }

    method RecordRefused(t: ChargeAttempt, now: Instant, ids: Ids, txNow: Instant) returns (r: Result<(), Error>)
      modifies store
      ensures hide *; Did(Engine.RecordRefused(old(store.Contents()), cfg, t, now, ids, txNow), r, store.Contents())
    {
      hide Model.UpdateAttempt, Engine.Observe, Engine.RescheduleOrExpire;
      r := store.UpdateAttempt(t.(status := Refused));
      if r.Failure? { return; }
      r := Observe(t.ref, Observed(Status.PastDue), now, ids, txNow);
      if r.Failure? { return; }
      r := RescheduleOrExpire(t, t.ref, now, ids.dunning);
    }

    method GiveSubscriptionUp(t: ChargeAttempt, now: Instant, ids: Ids, txNow: Instant) returns (r: Result<(), Error>)
      modifies store
      ensures var s := old(store.Contents());
              Did(match Model.UpdateAttempt(s, t.(status := AttemptStatus.Canceled))
                  case Failure(e) => Failure(e)
                  case Success(s2) =>
                    match Model.ForceFinishAction(s2, t.actionId, ActionStatus.Canceled, None, Some("operator"))
                    case Failure(e) => Failure(e)
                    case Success(s3) =>
                      Engine.Observe(s3, t.ref, IMMEDIATE_EXPIRY, now, ids, txNow), r, store.Contents())
    {
      hide Model.UpdateAttempt, Engine.Observe, Model.ForceFinishAction;
      r := store.UpdateAttempt(t.(status := AttemptStatus.Canceled));
      if r.Failure? { return; }
      r := store.ForceFinishAction(t.actionId, ActionStatus.Canceled, None, Some("operator"));
      if r.Failure? { return; }
      r := Observe(t.ref, IMMEDIATE_EXPIRY, now, ids, txNow);
    }

    /** An operator settles an attempt: all of it or nothing. */
    method ResolveAttempt(id: string, outcome: Resolution, reason: string, actor: string, paymentId: string,
            now: Instant, ids: Ids, txNow: Instant)
      returns (r: Result<(), Error>)
      modifies store
      ensures hide *;
              Applied(Engine.ResolveAttempt(old(store.Contents()), cfg, id, outcome, reason, actor, paymentId, now, ids,
                                            txNow), old(store.Contents()), r, store.Contents())
    {
      hide Engine.ResolveAttempt;
      var snapshot := store.Contents();
      r := Resolve(id, outcome, reason, actor, paymentId, now, ids, txNow);
      if r.Failure? { store.Restore(snapshot); }
    }

    method Resolve(id: string, outcome: Resolution, reason: string, actor: string, paymentId: string, now: Instant,
            ids: Ids, txNow: Instant)
      returns (r: Result<(), Error>)
      modifies store
      ensures hide *;
              Did(Engine.ResolveAttempt(old(store.Contents()), cfg, id, outcome, reason, actor, paymentId, now, ids,
                                        txNow), r, store.Contents())
    {
      hide Model.UpdateAttempt, Engine.Observe, Model.ForceFinishAction, Engine.RecordAuthorised, Engine.RecordRefused;
      var t0 :- GetAttempt(store.Contents(), id);
      if !t0.status.Uncertain? && !t0.status.ManualReview? { return Failure(WrongAttemptStatus); }
      var sub :- GetSubscription(store.Contents(), t0.ref);
      store.InsertAudit(Audit("resolve-attempt", id, if actor == "" then "cli" else actor,
                              if reason == "" then "operator" else reason));
      var t := t0.(claim := t0.claim.Release(), completedAt := Some(now),
                   paymentId := if paymentId != "" then Some(paymentId) else t0.paymentId);
      match outcome
      case Paid => r := RecordAuthorised(t, true, now, ids, txNow);
      case Declined => r := RecordRefused(t, now, ids, txNow);
      case GivenUp => r := GiveSubscriptionUp(t, now, ids, txNow);
      case Unknown => r := Failure(WrongAttemptStatus);
    }

    // ---------- processor events ----------

    /** The table scans that one webhook needs. */
    method FindHits(ev: NormalizedEvent, state: Option<SubscriptionState>) returns (hits: Hits)
      ensures HitsAgree(store.Contents(), ev, state, hits)
    {
      hide Finds;
      var byProcessor := None;
      if state.Some? {
        byProcessor := store.GetSubscriptionByProcessor(Stripe, state.value.subId);
      }
      var byCheckout := store.GetSubscriptionByCheckout(ev.checkoutId);
      var byReference := store.GetAttemptByReference(ev.attemptReference);
      var byInitialPayment := store.GetSubscriptionByInitialPayment(Adyen, ev.paymentId);
      var byChargePayment := store.GetAttemptByPayment(ev.paymentId);
      hits := Hits(byProcessor, byCheckout, byReference, byInitialPayment, byChargePayment);
    }

    /** A body that rejects its event does so before it has written anything. */
    ghost predicate Clean(before: Store, r: Result<Option<string>, Error>, after: Store) {
      r.Failure? && Rejects(r.error) ==> after == before
    }

    method ApplyStripe(ev: NormalizedEvent, state: Option<SubscriptionState>, hits: Hits, now: Instant, ids: Ids,
            txNow: Instant)
      returns (r: Result<Option<string>, Error>)
      modifies store
      ensures hide *; DidFor(Engine.ApplyStripe(old(store.Contents()), cfg, ev, state, hits, now, ids, txNow), r,
                     store.Contents())
      ensures Clean(old(store.Contents()), r, store.Contents())
    {
      hide Engine.CreateSubscription, Engine.Commit, Decide, StripeObservation, FirstActivation;
      if state.None? { return Success(None); }
      var st := state.value;
      var subject := StripeSubject(ev, st, hits);
      if subject.None? {
        if ev.checkoutId == "" { return Success(None); }
        var co :- GetCheckout(store.Contents(), ev.checkoutId);
        if !st.status.Active? && !st.status.Trialing? { return Success(None); }
        var created := FirstActivation(co, ids.subscription, st.status, st.periodStart, st.periodEnd, now,
                                       NonEmpty(st.customerId), NonEmpty(st.subId), None, None);
        CreateNeverRejects(store.Contents(), co, created, ids, txNow);
        var w := CreateSubscription(co, created, ids, txNow);
        r := if w.Success? then Success(Some(ids.subscription)) else Failure(w.error);
      } else {
        var sub :- GetSubscription(store.Contents(), subject.value);
        var obs :- StripeObservation(cfg, sub, st);
        var d :- Decide(sub, obs, now);
        CommitNeverRejects(store.Contents(), d, ids, txNow);
        var w := Commit(d, ids, txNow);
        r := if w.Success? then Success(subject) else Failure(w.error);
      }
    }

    method ReplacePaymentMethod(ref: string, ev: NormalizedEvent) returns (r: Result<Option<string>, Error>)
      modifies store
      ensures DidFor(Engine.ReplacePaymentMethod(old(store.Contents()), ref, ev), r, store.Contents())
      ensures Clean(old(store.Contents()), r, store.Contents())
    {
      if ev.paymentMethod == "" { return Success(Some(ref)); }
      var sub :- GetSubscription(store.Contents(), ref);
      if sub.status == Status.Expired { return Success(Some(ref)); }
      sub := WithPaymentMethod(sub, ev.paymentMethod).(chargingBlocked := false, blockReason := None);
      var w := store.UpdateSubscription(sub);
      if w.Failure? { return Failure(w.error); }
      store.InsertAudit(Audit("payment-method-replaced", ref, "engine", "adyen-stored-payment-method"));
      r := Success(Some(ref));
    }

    method ApplyAdyenInitial(ev: NormalizedEvent, now: Instant, ids: Ids, txNow: Instant)
      returns (r: Result<Option<string>, Error>)
      modifies store
      ensures hide *; DidFor(Engine.ApplyAdyenInitial(old(store.Contents()), ev, now, ids, txNow), r, store.Contents())
      ensures Clean(old(store.Contents()), r, store.Contents())
    {
      hide Engine.CreateSubscription, Engine.ReplacePaymentMethod, AddCalendarMonths;
      if !ev.success || ev.checkoutId == "" { return Success(None); }
      var co :- GetCheckout(store.Contents(), ev.checkoutId);
      if co.status.Completed? && co.subscriptionRef.Some? {
        r := ReplacePaymentMethod(co.subscriptionRef.value, ev);
        return;
      }
      var created := FirstActivation(co, ids.subscription, Status.Active, now, AddCalendarMonths(now, 1), now, None,
                                     None, NonEmpty(ev.paymentId), co.shopperRef);
      created := WithPaymentMethod(created, ev.paymentMethod);
      CreateNeverRejects(store.Contents(), co, created, ids, txNow);
      var w := CreateSubscription(co, created, ids, txNow);
      r := if w.Success? then Success(Some(ids.subscription)) else Failure(w.error);
    }

    method ApplyAdyenRenewal(ev: NormalizedEvent, hits: Hits, now: Instant, ids: Ids,
            txNow: Instant) returns (r: Result<Option<string>, Error>)
      modifies store
      ensures hide *; DidFor(Engine.ApplyAdyenRenewal(old(store.Contents()), cfg, ev, hits, now, ids, txNow), r,
                     store.Contents())
      ensures Clean(old(store.Contents()), r, store.Contents())
    {
      hide Engine.RecordAuthorised, Engine.RecordRefused;
      if ev.attemptReference == "" || hits.byReference.None? || hits.byReference.value !in store.attempts {
        return Failure(Error.ManualReview);
      }
      var t := store.attempts[hits.byReference.value];
      if t.status.Refused? || t.status.Canceled? || t.status.ManualReview? { return Success(Some(t.ref)); }
      var sub :- GetSubscription(store.Contents(), t.ref);
      if t.status.Authorized? { return Success(Some(t.ref)); }
      t := t.(claim := t.claim.Release(), completedAt := Some(now),
              paymentId := if ev.paymentId != "" then Some(ev.paymentId) else t.paymentId);
      var w;
      if ev.success {
        AuthorisedNeverRejects(store.Contents(), t, false, now, ids, txNow);
        w := RecordAuthorised(t, false, now, ids, txNow);
      } else {
        t := t.(refusalCode := if ev.refusalCode != "" then Some(ev.refusalCode) else t.refusalCode);
        RefusedNeverRejects(store.Contents(), cfg, t, now, ids, txNow);
        w := RecordRefused(t, now, ids, txNow);
      }
      r := if w.Success? then Success(Some(t.ref)) else Failure(w.error);
    }

    method ApplyAdyenContract(ev: NormalizedEvent, hits: Hits, now: Instant, ids: Ids,
            txNow: Instant) returns (r: Result<Option<string>, Error>)
      modifies store
      ensures hide *;
              DidFor(Engine.ApplyAdyenContract(old(store.Contents()), ev, hits, now, ids, txNow), r, store.Contents())
      ensures Clean(old(store.Contents()), r, store.Contents())
    {
      hide Engine.Observe, ContractSubject;
      if ev.paymentId == "" { return Failure(Error.ManualReview); }
      var subject := ContractSubject(store.Contents(), hits);
      if subject.None? { return Failure(Error.ManualReview); }
      ObserveNeverRejects(store.Contents(), subject.value, CANCELLATION, now, ids, txNow);
      var w := Observe(subject.value, CANCELLATION, now, ids, txNow);
      r := if w.Success? then Success(subject) else Failure(w.error);
    }

    method ApplyObservation(ev: NormalizedEvent, state: Option<SubscriptionState>, hits: Hits, now: Instant, ids: Ids,
            txNow: Instant)
      returns (r: Result<Option<string>, Error>)
      modifies store
      ensures hide *; DidFor(Engine.ApplyObservation(old(store.Contents()), cfg, ev, state, hits, now, ids, txNow), r,
                     store.Contents())
      ensures Clean(old(store.Contents()), r, store.Contents())
    {
      hide Engine.ApplyStripe, Engine.ApplyAdyenInitial, Engine.ApplyAdyenRenewal, Engine.ApplyAdyenContract;
      match ev.kind
      case StripeCheckout => r := ApplyStripe(ev, state, hits, now, ids, txNow);
      case StripeSubscription => r := ApplyStripe(ev, state, hits, now, ids, txNow);
      case AdyenInitial => r := ApplyAdyenInitial(ev, now, ids, txNow);
      case AdyenRenewal => r := ApplyAdyenRenewal(ev, hits, now, ids, txNow);
      case AdyenContract => r := ApplyAdyenContract(ev, hits, now, ids, txNow);
      case AdyenOperational => r := Success(None);
    }

    method CloseEvent(ev: NormalizedEvent, lease: EventLease, state: ProcessingState, ref: Option<string>,
            now: Instant) returns (r: Result<(), Error>)
      modifies store
      ensures Did(Engine.CloseEvent(old(store.Contents()), ev, lease, state, ref, now), r, store.Contents())
    {
      hide Model.FinishProcessorEvent, Model.ReleaseProcessorLease, ProcessingKey;
      r := store.FinishProcessorEvent(ev.key, lease.token, lease.fence, state, ref, now);
      if r.Failure? { return; }
      r := store.ReleaseProcessorLease(ProcessingKey(ev), lease.token, lease.fence);
    }

    /** The last transaction of a webhook: all of it or nothing. */
    method CommitEvent(ev: NormalizedEvent, lease: EventLease, state: Option<SubscriptionState>, now: Instant, ids: Ids,
            txNow: Instant)
      returns (r: Result<(), Error>, hits: Hits)
      modifies store
      ensures hide *; HitsAgree(old(store.Contents()), ev, state, hits)
      ensures Applied(Engine.CommitEvent(old(store.Contents()), cfg, ev, lease, state, hits, now, ids, txNow),
                      old(store.Contents()), r, store.Contents())
    {
      hide Engine.CommitEvent, HitsAgree;
      var snapshot := store.Contents();
      hits := FindHits(ev, state);
      r := ProcessEvent(ev, lease, state, hits, now, ids, txNow);
      if r.Failure? { store.Restore(snapshot); }
    }

    method ProcessEvent(ev: NormalizedEvent, lease: EventLease, state: Option<SubscriptionState>, hits: Hits,
            now: Instant, ids: Ids, txNow: Instant)
      returns (r: Result<(), Error>)
      modifies store
      ensures hide *; Did(Engine.CommitEvent(old(store.Contents()), cfg, ev, lease, state, hits, now, ids, txNow), r,
                  store.Contents())
    {
      hide Engine.ApplyObservation, Engine.CloseEvent, StripeSubject;
      if ev.key !in store.procEvents { return Failure(Error.NotFound); }
      if !StillOwned(store.Contents(), ev, lease) { return Success(()); }
      var applied := ApplyObservation(ev, state, hits, now, ids, txNow);
      match applied
      case Success(ref) => r := CloseEvent(ev, lease, Processed, ref, now);
      case Failure(e) =>
        if e == UnknownStripePrice && state.Some? {
          r := CloseEvent(ev, lease, Quarantined, StripeSubject(ev, state.value, hits), now);
        } else if e == Error.ManualReview {
          r := CloseEvent(ev, lease, ProcessingState.ManualReview, None, now);
        } else {
          r := Failure(e);
        }
    }
  }

  // ---------- rejections ----------

  /** Errors that close an event instead of failing its transaction. */
  predicate Rejects(e: Error) {
    e == UnknownStripePrice || e == Error.ManualReview
  }

  lemma DecideNeverRejects(sub: Subscription, obs: Observation, now: Instant)
    ensures Decide(sub, obs, now).Failure? ==> !Rejects(Decide(sub, obs, now).error)
  {
  }

  lemma CallbackNeverRejects(eventId: string, event: EventType, sub: Subscription)
    ensures NewCallback(eventId, event, sub).Failure? ==> !Rejects(NewCallback(eventId, event, sub).error)
  {
    hide Timestamps.FormatUTC, Timestamps.ParseUTC, ValidOpaqueId, ValidPlanId;
  }

  lemma ChangeNeverRejects(s: Store, created: bool, next: Subscription, event: EventType, ids: Ids, now: Instant)
    ensures Engine.CommitChange(s, created, next, event, ids, now).Failure? ==>
              !Rejects(Engine.CommitChange(s, created, next, event, ids, now).error)
  {
    hide NewCallback, FollowUp;
    CallbackNeverRejects(ids.event, event, next);
  }

  lemma CommitNeverRejects(s: Store, d: Decision, ids: Ids, now: Instant)
    ensures Engine.Commit(s, d, ids, now).Failure? ==> !Rejects(Engine.Commit(s, d, ids, now).error)
  {
    hide Engine.CommitChange, Rejects;
    if d.Change? { ChangeNeverRejects(s, false, d.next, d.event, ids, now); }
  }

  lemma CreateNeverRejects(s: Store, co: Checkout, sub: Subscription, ids: Ids, now: Instant)
    ensures Engine.CreateSubscription(s, co, sub, ids, now).Failure? ==>
              !Rejects(Engine.CreateSubscription(s, co, sub, ids, now).error)
  {
    hide Engine.CommitChange;
    ChangeNeverRejects(s, true, sub, Activated, ids, now);
  }

  lemma ObserveNeverRejects(s: Store, ref: string, obs: Observation, now: Instant, ids: Ids, txNow: Instant)
    ensures Engine.Observe(s, ref, obs, now, ids, txNow).Failure? ==>
              !Rejects(Engine.Observe(s, ref, obs, now, ids, txNow).error)
  {
    hide Engine.Commit, Decide;
    if ref in s.subs {
      DecideNeverRejects(s.subs[ref], obs, now);
      var d := Decide(s.subs[ref], obs, now);
      if d.Success? { CommitNeverRejects(s, d.value, ids, txNow); }
    }
  }

  lemma AuthorisedNeverRejects(s: Store, t: ChargeAttempt, unblock: bool, now: Instant, ids: Ids, txNow: Instant)
    ensures Engine.RecordAuthorised(s, t, unblock, now, ids, txNow).Failure? ==>
              !Rejects(Engine.RecordAuthorised(s, t, unblock, now, ids, txNow).error)
  {
    hide Engine.Commit, Decide;
    forall sub ensures Decide(sub, PaidPeriod(t.periodStart, t.periodEnd), now).Failure?
                       ==> !Rejects(Decide(sub, PaidPeriod(t.periodStart, t.periodEnd), now).error) {
      DecideNeverRejects(sub, PaidPeriod(t.periodStart, t.periodEnd), now);
    }
    forall s2, d ensures Engine.Commit(s2, d, ids, txNow).Failure? ==>
      !Rejects(Engine.Commit(s2, d, ids, txNow).error) {
      CommitNeverRejects(s2, d, ids, txNow);
    }
  }

  lemma RefusedNeverRejects(s: Store, cfg: Config, t: ChargeAttempt, now: Instant, ids: Ids, txNow: Instant)
    ensures hide *; Engine.RecordRefused(s, cfg, t, now, ids, txNow).Failure? ==>
              !Rejects(Engine.RecordRefused(s, cfg, t, now, ids, txNow).error)
  {
    hide Engine.Observe, IsRetryableRefusal;
    forall s1 ensures Engine.Observe(s1, t.ref, Observed(Status.PastDue), now, ids, txNow).Failure?
                      ==> !Rejects(Engine.Observe(s1, t.ref, Observed(Status.PastDue), now, ids, txNow).error) {
      ObserveNeverRejects(s1, t.ref, Observed(Status.PastDue), now, ids, txNow);
    }
  }
}
