/** Checkouts and webhooks keep the charge invariants. */
module ChargeEvents {
  import opened Wrappers
  import opened Calendar
  import opened Protocol
  import opened Model
  import opened Transition
  import opened Engine
  import opened System
  import opened Bindings
  import opened ChargeSafety
  import opened ChargeBlocks
  import opened ChargeSteps
  import opened ChargeRefusals

  // ---------- first activation ----------

  lemma CreateKeeps(env: Environment, s: Store, co: Checkout, sub: Subscription, ids: Ids, txNow: Instant)
    requires ChargeInv(env, s, None) && ids.action !in s.actions && CreateSubscription(s, co, sub, ids, txNow).Success?
    requires GoodRow(sub) && (sub.family == Adyen ==> sub.status == Status.Active && Dated(sub))
    ensures hide *; ChargeInv(env, CreateSubscription(s, co, sub, ids, txNow).value, None)
  {
    hide ChargeInv, GoodRow, CommitChange;
    var s1 := CommitChange(s, true, sub, Activated, ids, txNow).value;
    if sub.family == Adyen {
      assert sub.ref !in s.subs by { CreatedFresh(s, sub, ids, txNow); }
      ActivateKeeps(env, s, sub, ids, txNow);
    } else {
      CommitKeeps(env, s, true, sub, Activated, ids, txNow, None);
    }
    AuditKeeps(env, s1, CreateSubscription(s, co, sub, ids, txNow).value);
  }

  lemma CreatedFresh(s: Store, sub: Subscription, ids: Ids, txNow: Instant)
    requires CommitChange(s, true, sub, Activated, ids, txNow).Success?
    ensures sub.ref !in s.subs
  {
    hide FollowUp, NewEvent, ValidateCallback, BuildCallback;
  }

  /** A first activation that passes the callback's own check is a good row. */
  lemma CreatedRow(s: Store, co: Checkout, status: Status, start: Instant, end: Instant, now: Instant,
          customer: Option<string>, psub: Option<string>, payment: Option<string>, shopper: Option<string>,
          method_: string, ids: Ids, txNow: Instant)
    requires var sub := WithPaymentMethod(FirstActivation(co, ids.subscription, status, start, end, now, customer, psub,
                                                          payment, shopper), method_);
             CommitChange(s, true, sub, Activated, ids, txNow).Success?
    ensures GoodRow(WithPaymentMethod(FirstActivation(co, ids.subscription, status, start, end, now, customer, psub,
                                                      payment, shopper), method_))
  {
    hide BuildCallback, ValidateCallback, FirstActivation, WithPaymentMethod, GoodRow, FollowUp;
    ActivationRow(co, ids.subscription, status, start, end, now, customer, psub, payment, shopper, method_, ids.event);
  }

  lemma ActivateCheckoutKeeps(env: Environment, s: Store, id: string, now: Instant, ids: Ids, txNow: Instant)
    requires ChargeInv(env, s, None) && ids.action !in s.actions && SaneClock(now)
             && ActivateCheckout(s, id, now, ids, txNow).Success?
    ensures hide *; ChargeInv(env, ActivateCheckout(s, id, now, ids, txNow).value, None)
  {
    hide ChargeInv, GoodRow, CommitChange, AddCalendarMonths;
    var co := s.checkouts[id];
    if co.subscriptionRef.None? {
      OneMonth(now);
      var sub := FirstActivation(co, ids.subscription, Status.Active, now, AddCalendarMonths(now, 1), now, None, None,
                                 None, co.shopperRef);
      CreatedRow(s, co, Status.Active, now, AddCalendarMonths(now, 1), now, None, None, None, co.shopperRef, "", ids,
                 txNow);
      CreateKeeps(env, s, co, sub, ids, txNow);
    }
  }

  lemma AdyenInitialKeeps(env: Environment, s: Store, ev: NormalizedEvent, now: Instant, ids: Ids, txNow: Instant)
    requires ChargeInv(env, s, None) && ids.action !in s.actions && SaneClock(now)
             && ApplyAdyenInitial(s, ev, now, ids, txNow).Success?
    ensures hide *; ChargeInv(env, ApplyAdyenInitial(s, ev, now, ids, txNow).value.0, None)
  {
    hide ChargeInv, GoodRow, CommitChange, AddCalendarMonths, CreateSubscription, ReplacePaymentMethod;
    if ev.success && ev.checkoutId != "" {
      var co := s.checkouts[ev.checkoutId];
      if co.status.Completed? && co.subscriptionRef.Some? {
        ReplaceKeeps(env, s, co.subscriptionRef.value, ev);
      } else {
        OneMonth(now);
        var sub := WithPaymentMethod(FirstActivation(co, ids.subscription, Status.Active, now,
                                                     AddCalendarMonths(now, 1), now, None, None,
                                                     NonEmpty(ev.paymentId), co.shopperRef), ev.paymentMethod);
        assert CommitChange(s, true, sub, Activated, ids, txNow).Success? by { CreatedCommits(s, co, sub, ids, txNow); }
        CreatedRow(s, co, Status.Active, now, AddCalendarMonths(now, 1), now, None, None, NonEmpty(ev.paymentId),
                   co.shopperRef, ev.paymentMethod, ids, txNow);
        CreateKeeps(env, s, co, sub, ids, txNow);
      }
    }
  }

  lemma CreatedCommits(s: Store, co: Checkout, sub: Subscription, ids: Ids, txNow: Instant)
    requires CreateSubscription(s, co, sub, ids, txNow).Success?
    ensures CommitChange(s, true, sub, Activated, ids, txNow).Success?
  {
    hide CommitChange;
  }

  lemma ReplaceKeeps(env: Environment, s: Store, ref: string, ev: NormalizedEvent)
    requires ChargeInv(env, s, None) && ReplacePaymentMethod(s, ref, ev).Success?
    ensures ChargeInv(env, ReplacePaymentMethod(s, ref, ev).value.0, None)
  {
    hide ChargeInv, GoodActions, GoodAttempts, TruthfulAttempts, NotAhead;
    if ev.paymentMethod != "" && s.subs[ref].status != Status.Expired {
      Basics(env, s, None);
      var sub := WithPaymentMethod(s.subs[ref], ev.paymentMethod).(chargingBlocked := false, blockReason := None);
      SubKeeps(env, s, sub, None);
      AuditKeeps(env, UpdateSubscription(s, sub).value, ReplacePaymentMethod(s, ref, ev).value.0);
    }
  }

  // ---------- Stripe ----------

  /** Whatever is observed of a Stripe subscription moves no Adyen period. */
  lemma StripeChange(sub: Subscription, obs: Observation, now: Instant)
    requires GoodRow(sub) && sub.family == Stripe && Decide(sub, obs, now).Success?
             && Decide(sub, obs, now).value.Change?
    ensures var d := Decide(sub, obs, now).value;
            && GoodRow(d.next) && d.next.ref == sub.ref && SubSettles(sub, d.next) && d.next.family == Stripe
            && (d.event == WasCanceled || d.event == WasExpired ==> d.next.status != Status.Active)
  {
    hide GoodRow, Decide;
    DecideAdvances(sub, obs, now);
  }

  /** A Stripe event finds Stripe subscriptions only. */
  lemma StripeSubjectFamily(s: Store, ev: NormalizedEvent, state: SubscriptionState, hits: Hits)
    requires Bound(s) && OwnCheckout(s, ev) && HitsAgree(s, ev, Some(state), hits)
             && (ev.kind.StripeCheckout? || ev.kind.StripeSubscription?)
    requires StripeSubject(ev, state, hits).Some?
    ensures var ref := StripeSubject(ev, state, hits).value; ref in s.subs && s.subs[ref].family == Stripe
  {
    var ref := StripeSubject(ev, state, hits).value;
    assert ref in s.subs ==> Names(s, s.subs[ref].checkoutId, ref);
  }

  lemma StripeCommitKeeps(env: Environment, s: Store, ref: string, obs: Observation, now: Instant, ids: Ids,
          txNow: Instant)
    requires hide *; ChargeInv(env, s, None) && ref in s.subs && s.subs[ref].family == Stripe
    requires Decide(s.subs[ref], obs, now).Success?
             && Commit(s, Decide(s.subs[ref], obs, now).value, ids, txNow).Success?
    ensures ChargeInv(env, Commit(s, Decide(s.subs[ref], obs, now).value, ids, txNow).value, None)
  {
    hide ChargeInv, GoodRow, Decide, CommitChange, GoodActions, GoodAttempts, TruthfulAttempts, NotAhead;
    var d := Decide(s.subs[ref], obs, now).value;
    Basics(env, s, None);
    if d.Change? {
      StripeChange(s.subs[ref], obs, now);
      CommitKeeps(env, s, false, d.next, d.event, ids, txNow, None);
    }
  }

  lemma StripeCreateKeeps(env: Environment, s: Store, co: Checkout, st: SubscriptionState, now: Instant, ids: Ids,
          txNow: Instant)
    requires ChargeInv(env, s, None) && ids.action !in s.actions && co.family == Stripe
    requires var sub := FirstActivation(co, ids.subscription, st.status, st.periodStart, st.periodEnd, now,
                                        NonEmpty(st.customerId), NonEmpty(st.subId), None, None);
             CreateSubscription(s, co, sub, ids, txNow).Success?
    ensures hide *; var sub := FirstActivation(co, ids.subscription, st.status, st.periodStart, st.periodEnd, now,
                                       NonEmpty(st.customerId), NonEmpty(st.subId), None, None);
            ChargeInv(env, CreateSubscription(s, co, sub, ids, txNow).value, None)
  {
    hide ChargeInv, GoodRow, CreateSubscription, CommitChange;
    var sub := FirstActivation(co, ids.subscription, st.status, st.periodStart, st.periodEnd, now,
                               NonEmpty(st.customerId), NonEmpty(st.subId), None, None);
    CreatedCommits(s, co, sub, ids, txNow);
    CreatedRow(s, co, st.status, st.periodStart, st.periodEnd, now, NonEmpty(st.customerId), NonEmpty(st.subId), None,
               None, "", ids, txNow);
    CreateKeeps(env, s, co, sub, ids, txNow);
  }

  lemma StripeKeeps(env: Environment, s: Store, ev: NormalizedEvent, state: Option<SubscriptionState>, hits: Hits,
          now: Instant, ids: Ids, txNow: Instant)
    requires ChargeInv(env, s, None) && Bound(s) && ids.action !in s.actions && OwnCheckout(s, ev)
             && HitsAgree(s, ev, state, hits)
    requires ev.kind.StripeCheckout? || ev.kind.StripeSubscription?
    requires ApplyStripe(s, env.cfg, ev, state, hits, now, ids, txNow).Success?
    ensures hide *; ChargeInv(env, ApplyStripe(s, env.cfg, ev, state, hits, now, ids, txNow).value.0, None)
  {
    hide ChargeInv, Decide, Commit, CreateSubscription, StripeSubject, StripeObservation, HitsAgree, Bound,
         FirstActivation;
    if state.Some? {
      var subject := StripeSubject(ev, state.value, hits);
      if subject.Some? {
        StripeSubjectFamily(s, ev, state.value, hits);
        var obs := StripeObservation(env.cfg, s.subs[subject.value], state.value).value;
        StripeCommitKeeps(env, s, subject.value, obs, now, ids, txNow);
      } else if ev.checkoutId in s.checkouts && (state.value.status.Active? || state.value.status.Trialing?)
           && ev.checkoutId != "" {
        StripeCreateKeeps(env, s, s.checkouts[ev.checkoutId], state.value, now, ids, txNow);
      }
    }
  }

  // ---------- Adyen ----------

  /** A webhook speaks of the attempt whose reference it carries. */
  lemma ReferredVerdict(env: Environment, s: Store, ev: NormalizedEvent, hits: Hits)
    requires GoodAttempts(s) && TruthfulEvent(env, ev) && ev.kind.AdyenRenewal?
             && Finds(s.attempts, HasReference(ev.attemptReference), hits.byReference)
    requires hits.byReference.Some?
    ensures hits.byReference.value in s.attempts
            && (Authorises(env, s.attempts[hits.byReference.value]) <==> ev.success)
    ensures s.attempts[hits.byReference.value].id == hits.byReference.value
  {
    var t := s.attempts[hits.byReference.value];
    assert Belongs(t, s.actions[t.actionId]);
  }

  lemma AdyenRenewalKeeps(env: Environment, s: Store, ev: NormalizedEvent, hits: Hits, now: Instant, ids: Ids,
          txNow: Instant)
    requires ChargeInv(env, s, None) && ids.action !in s.actions && TruthfulEvent(env, ev) && ev.kind.AdyenRenewal?
    requires Finds(s.attempts, HasReference(ev.attemptReference), hits.byReference)
    requires ApplyAdyenRenewal(s, env.cfg, ev, hits, now, ids, txNow).Success?
    ensures hide *; ChargeInv(env, ApplyAdyenRenewal(s, env.cfg, ev, hits, now, ids, txNow).value.0, None)
  {
    hide ChargeInv, RecordAuthorised, RecordRefused, GoodSubs, GoodActions, GoodAttempts, TruthfulAttempts, NotAhead,
         TruthfulEvent, HasReference;
    var t0 := s.attempts[hits.byReference.value];
    Basics(env, s, None);
    ReferredVerdict(env, s, ev, hits);
    if !(t0.status.Refused? || t0.status.Canceled? || t0.status.ManualReview? || t0.status.Authorized?) {
      var t := t0.(claim := t0.claim.Release(), completedAt := Some(now),
                   paymentId := if ev.paymentId != "" then Some(ev.paymentId) else t0.paymentId);
      if ev.success {
        RecordAuthorisedKeeps(env, s, t, false, now, ids, txNow);
      } else {
        RecordRefusedKeeps(env, s,
                           t.(refusalCode := if ev.refusalCode != "" then Some(ev.refusalCode) else t0.refusalCode),
                               now, ids, txNow);
      }
    }
  }

  lemma AdyenContractKeeps(env: Environment, s: Store, ev: NormalizedEvent, hits: Hits, now: Instant, ids: Ids,
          txNow: Instant)
    requires ChargeInv(env, s, None) && ApplyAdyenContract(s, ev, hits, now, ids, txNow).Success?
    ensures hide *; ChargeInv(env, ApplyAdyenContract(s, ev, hits, now, ids, txNow).value.0, None)
  {
    hide ChargeInv, Observe, ContractSubject;
    ObserveKeeps(env, s, ContractSubject(s, hits).value, CANCELLATION, now, ids, txNow, None);
  }

  // ---------- the whole transaction ----------

  lemma ObservationKeeps(env: Environment, s: Store, ev: NormalizedEvent, state: Option<SubscriptionState>, hits: Hits,
          now: Instant, ids: Ids, txNow: Instant)
    requires ChargeInv(env, s, None) && Bound(s) && ids.action !in s.actions && OwnCheckout(s, ev)
             && HitsAgree(s, ev, state, hits)
    requires TruthfulEvent(env, ev) && SaneClock(now)
    requires ApplyObservation(s, env.cfg, ev, state, hits, now, ids, txNow).Success?
    ensures hide *; ChargeInv(env, ApplyObservation(s, env.cfg, ev, state, hits, now, ids, txNow).value.0, None)
  {
    hide ChargeInv, Bound, OwnCheckout, TruthfulEvent, ApplyStripe, ApplyAdyenInitial, ApplyAdyenRenewal,
         ApplyAdyenContract, HasProcessorSub, HasCheckout, HasReference, HasInitialPayment, HasPayment, Finds;
    match ev.kind
    case StripeCheckout => StripeKeeps(env, s, ev, state, hits, now, ids, txNow);
    case StripeSubscription => StripeKeeps(env, s, ev, state, hits, now, ids, txNow);
    case AdyenInitial => AdyenInitialKeeps(env, s, ev, now, ids, txNow);
    case AdyenRenewal => AdyenRenewalKeeps(env, s, ev, hits, now, ids, txNow);
    case AdyenContract => AdyenContractKeeps(env, s, ev, hits, now, ids, txNow);
    case AdyenOperational =>
  }

  lemma CloseSame(s: Store, ev: NormalizedEvent, lease: EventLease, state: ProcessingState, ref: Option<string>,
          now: Instant)
    requires CloseEvent(s, ev, lease, state, ref, now).Success?
    ensures var s' := CloseEvent(s, ev, lease, state, ref, now).value;
            s' == s.(procEvents := s'.procEvents, leases := s'.leases)
  {
  }

  lemma CommitEventKeeps(env: Environment, s: Store, ev: NormalizedEvent, lease: EventLease,
          state: Option<SubscriptionState>, hits: Hits, now: Instant, ids: Ids, txNow: Instant)
    requires ChargeInv(env, s, None) && Bound(s) && ids.action !in s.actions && OwnCheckout(s, ev)
             && HitsAgree(s, ev, state, hits)
    requires TruthfulEvent(env, ev) && SaneClock(now)
    requires CommitEvent(s, env.cfg, ev, lease, state, hits, now, ids, txNow).Success?
    ensures hide *; ChargeInv(env, CommitEvent(s, env.cfg, ev, lease, state, hits, now, ids, txNow).value, None)
  {
    hide ChargeInv, Bound, OwnCheckout, TruthfulEvent, HitsAgree, ApplyObservation, CloseEvent, StripeSubject;
    if StillOwned(s, ev, lease) {
      var s' := CommitEvent(s, env.cfg, ev, lease, state, hits, now, ids, txNow).value;
      match ApplyObservation(s, env.cfg, ev, state, hits, now, ids, txNow) {
        case Success((s1, ref)) =>
          ObservationKeeps(env, s, ev, state, hits, now, ids, txNow);
          CloseSame(s1, ev, lease, Processed, ref, now);
          AuditKeeps(env, s1, s');
        case Failure(e) =>
          if e == UnknownStripePrice && state.Some? {
            CloseSame(s, ev, lease, Quarantined, StripeSubject(ev, state.value, hits), now);
          } else {
            CloseSame(s, ev, lease, ProcessingState.ManualReview, None, now);
          }
          AuditKeeps(env, s, s');
      }
    }
  }
}
