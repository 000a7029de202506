/** What becomes of a checkout: started, accepted by the processor, swept up when its time has come, and activated. */
module Checkouts {
  import opened Wrappers
  import opened Calendar
  import opened Protocol
  import opened Model
  import opened Transition
  import opened Engine
  import opened System
  import opened Runs
  import opened Verdicts

  /** The same request as the one that started a checkout. */
  predicate StartedBy(known: Checkout, c: Checkout) {
    known.fingerprint == c.fingerprint && known.planId == c.planId && known.returnUrl == c.returnUrl
    && known.family == c.family
  }

  /** A checkout that is over. */
  predicate Over(c: Checkout) {
    c.status.Completed? || c.status.Expired? || c.status.Canceled?
  }

  /** A request starts a new checkout, unbound; a known one is resumed by the same request until it is over, and never
      changed. */
  lemma StartExactly(s: Store, c: Checkout)
    ensures var r := StartCheckout(s, c);
            if c.id in s.checkouts then
              if !StartedBy(s.checkouts[c.id], c) then r == Failure(CheckoutConflict)
              else if Over(s.checkouts[c.id]) then r == Failure(CheckoutTerminal)
              else r == Success(s)
            else if exists id :: id in s.checkouts && s.checkouts[id].idempotencyKey == c.idempotencyKey
              then r == Failure(Error.Conflict)
            else r.Success? && c.id in r.value.checkouts
                 && r.value == s.(checkouts := s.checkouts[c.id := r.value.checkouts[c.id]])
                 && var n := r.value.checkouts[c.id];
                    && n.id == c.id && StartedBy(n, c) && n.idempotencyKey == c.idempotencyKey
                    && n.shopperRef == c.shopperRef && n.expiresAt == c.expiresAt
                    && n.status.Creating? && n.subscriptionRef.None? && n.processorCheckoutId.None?
  {
  }

  /** The processor has accepted the session: the checkout waits under the processor's identifier, and keeps what it is
      bound to. */
  lemma AcceptExactly(s: Store, id: string, processorCheckoutId: string, expiresAt: Instant)
    requires id in s.checkouts ==> s.checkouts[id].id == id
    ensures var r := CheckoutAccepted(s, id, processorCheckoutId, expiresAt);
            if id !in s.checkouts then r == Failure(Error.NotFound)
            else r.Success? && id in r.value.checkouts
                 && r.value == s.(checkouts := s.checkouts[id := r.value.checkouts[id]])
                 && var c, n := s.checkouts[id], r.value.checkouts[id];
                    && n.status.Pending? && n.processorCheckoutId == Some(processorCheckoutId)
                    && n.expiresAt == (if expiresAt == ZERO_TIME then c.expiresAt else expiresAt)
                    && StartedBy(n, c) && n.id == c.id && n.subscriptionRef == c.subscriptionRef
                    && n.shopperRef == c.shopperRef && n.idempotencyKey == c.idempotencyKey
  {
  }

  /** A sweep expires exactly the checkouts that were started or accepted and whose time has come. */
  lemma SweepExactly(s: Store, now: Instant, id: string)
    requires id in s.checkouts
    ensures var s' := ExpireDueCheckouts(s, now);
            && id in s'.checkouts && s'.checkouts.Keys == s.checkouts.Keys && s' == s.(checkouts := s'.checkouts)
            && var c, n := s.checkouts[id], s'.checkouts[id];
               if (c.status.Creating? || c.status.Pending?) && c.expiresAt <= now
               then n.status.Expired? && n.subscriptionRef == c.subscriptionRef && n.id == c.id && StartedBy(n, c)
               else n == c
  {
  }

  /** A checkout that is activated for the first time gets an active subscription for a month from now. */
  ghost predicate ActivatedNow(s: Store, s': Store, id: string, ref: string, now: Instant) {
    && id in s.checkouts && s.checkouts[id].subscriptionRef.None?
    && ref !in s.subs && ref in s'.subs && s'.subs == s.subs[ref := s'.subs[ref]]
    && (var co, b := s.checkouts[id], s'.subs[ref];
        && b.ref == ref && b.checkoutId == co.id && b.planId == co.planId && b.family == co.family && b.version == 1
        && b.status == Status.Active && b.periodStart == now && b.periodEnd == AddCalendarMonths(now, 1)
        && b.shopperRef == co.shopperRef && b.paymentMethod.None? && !b.chargingBlocked
        && s'.checkouts == s.checkouts[co.id := co.(status := CheckoutStatus.Completed, subscriptionRef := Some(ref))])
  }

  lemma ActivateOutcome(s: Store, id: string, now: Instant, ids: Ids, txNow: Instant)
    ensures hide *; var s' := KeptStore(s, ActivateCheckout(s, id, now, ids, txNow));
            s' == s || ActivatedNow(s, s', id, ids.subscription, now)
  {
    hide CreateSubscription, AddCalendarMonths;
    if ActivateCheckout(s, id, now, ids, txNow).Success? && s.checkouts[id].subscriptionRef.None? {
      var co := s.checkouts[id];
      CreateOutcome(s, co,
                    FirstActivation(co, ids.subscription, Status.Active, now, AddCalendarMonths(now, 1), now, None,
                                    None, None, co.shopperRef), ids, txNow);
    }
  }

  /** In every run an activation either changes nothing or gives an unbound checkout its subscription. */
  lemma ActivationFollowed(env: Environment, states: seq<System>, steps: seq<Step>, n: nat)
    requires hide Leads; Run(env, states, steps) && n < |steps| && n + 1 < |states| && steps[n].ActivateStep?
    ensures var s, s', step := states[n].db, states[n + 1].db, steps[n];
            s' == s || ActivatedNow(s, s', step.id, step.ids.subscription, step.now)
  {
    hide Run, Enabled, DbAfter, WorkersAfter, ReadsAfter, SentAfter, ActivatedNow, ActivateCheckout;
    RunStep(env, states, steps, n);
    ActivateStepOutcome(env, states[n], steps[n]);
  }

  lemma ActivateStepOutcome(env: Environment, sys: System, step: Step)
    requires hide *; Enabled(env, sys, step) && step.ActivateStep?
    ensures var s, s' := sys.db, DbAfter(env, sys, step);
            s' == s || ActivatedNow(s, s', step.id, step.ids.subscription, step.now)
  {
    hide ActivateCheckout, ActivatedNow;
    ActivateOutcome(sys.db, step.id, step.now, step.ids, step.txNow);
  }
}
