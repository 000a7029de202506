/** When a Stripe webhook moves the end of a stored period back. */
module Regressions {
  import opened Wrappers
  import opened Calendar
  import opened Protocol
  import opened Model
  import opened Transition
  import opened Engine
  import opened System
  import opened Effects
  import opened Bindings
  import opened Books
  import opened Ledger
  import opened ChargeSafety
  import opened BookSteps
  import opened Announcements
  import opened Promises
  import opened Runs
  import Payments
  import ChargeSteps
  import T = Timestamps

  /** The worker still holds the processing lease of its event. */
  predicate HoldsLease(s: Store, ev: NormalizedEvent, lease: EventLease) {
    ProcessingKey(ev) in s.leases && s.leases[ProcessingKey(ev)].claim.Owned(lease.token, lease.fence)
  }

  predicate FromStripe(ev: NormalizedEvent) {
    ev.kind.StripeCheckout? || ev.kind.StripeSubscription?
  }

  /** What the row becomes can be shown to the consumer under a proper, new event identifier. */
  predicate Announces(s: Store, merged: Subscription, ids: Ids) {
    ValidOpaqueId(ids.event, EVENT_PREFIX) && ids.event !in s.outbound && Presentable(merged)
  }

  /** The webhook about stored row `ref` gets through: it is still held, its price is known, its observation regresses,
      and the change can be announced. */
  predicate RegressionPasses(s: Store, cfg: Config, ev: NormalizedEvent, lease: EventLease, state: SubscriptionState,
          ref: string, now: Instant, ids: Ids)
    requires ref in s.subs
  {
    var obs := StripeObservation(cfg, s.subs[ref], state);
    && StillOwned(s, ev, lease) && HoldsLease(s, ev, lease) && obs.Success?
    && Regresses(s.subs[ref], obs.value) && Announces(s, Merged(s.subs[ref], obs.value, now), ids)
  }

  lemma CloseExactly(s: Store, ev: NormalizedEvent, lease: EventLease, state: ProcessingState, ref: Option<string>,
          now: Instant)
    requires StillOwned(s, ev, lease)
    ensures CloseEvent(s, ev, lease, state, ref, now).Success? <==> HoldsLease(s, ev, lease)
  {
    hide ProcessingKey;
  }

  lemma MergedPresentable(current: Subscription, obs: Observation, now: Instant)
    ensures var d := Decide(current, obs, now);
            d.Success? && d.value.Change? ==> (Presentable(d.value.next) <==> Presentable(Merged(current, obs, now)))
  {
    hide ValidPlanId, T.FourDigitYear;
  }

  lemma StripeEnd(cfg: Config, sub: Subscription, state: SubscriptionState)
    ensures var obs := StripeObservation(cfg, sub, state); obs.Success? ==> obs.value.periodEnd == state.periodEnd
  {
  }

  /** A decision for an earlier end is committed exactly when it regresses and can be announced, and then the end moves
      back. */
  lemma DecisionRegresses(s: Store, ref: string, obs: Observation, now: Instant, ids: Ids, txNow: Instant)
    requires hide *; LedgerInv(s) && GoodSubs(s) && ref in s.subs && obs.periodEnd != ZERO_TIME
             && obs.periodEnd < s.subs[ref].periodEnd
    ensures var r := Observe(s, ref, obs, now, ids, txNow);
            r.Success? ==>
              && ref in r.value.subs
              && (if Regresses(s.subs[ref], obs) then r.value.subs[ref].periodEnd == obs.periodEnd else r.value == s)
    ensures Regresses(s.subs[ref], obs) ==>
              (Observe(s, ref, obs, now, ids, txNow).Success? <==> Announces(s, Merged(s.subs[ref], obs, now), ids))
  {
    hide LedgerInv, GoodRow, Decide, CommitChange, Presentable, ValidOpaqueId, OneEvent, Regresses;
    PeriodEndRegresses(s.subs[ref], obs, now);
    if Regresses(s.subs[ref], obs) {
      var d := Decide(s.subs[ref], obs, now).value;
      DecisionCommits(s, ref, obs, now, ids, txNow);
      MergedPresentable(s.subs[ref], obs, now);
      if Commit(s, d, ids, txNow).Success? {
        DecideAdvances(s.subs[ref], obs, now);
        AdvancedStatus(s.subs[ref], d.event, d.next, now);
        CommitTables(s, false, d.next, d.event, ids, txNow);
      }
    }
  }

  lemma StripeCommits(s: Store, cfg: Config, ev: NormalizedEvent, state: Option<SubscriptionState>, hits: Hits,
          now: Instant, ids: Ids, txNow: Instant, ref: string)
    requires hide *; state.Some? && StripeSubject(ev, state.value, hits) == Some(ref) && ref in s.subs
    ensures var obs, r := StripeObservation(cfg, s.subs[ref], state.value),
            ApplyStripe(s, cfg, ev, state, hits, now, ids, txNow);
            && (r.Success? <==> obs.Success? && Observe(s, ref, obs.value, now, ids, txNow).Success?)
            && (r.Success? ==> r.value == (Observe(s, ref, obs.value, now, ids, txNow).value, Some(ref)))
            && (obs.Failure? ==> r == Failure(UnknownStripePrice))
  {
    hide Decide, Commit, StripeSubject, CreateSubscription, FirstActivation;
  }

  lemma ObservedTables(s: Store, ref: string, obs: Observation, now: Instant, ids: Ids, txNow: Instant)
    requires Observe(s, ref, obs, now, ids, txNow).Success?
    ensures var s' := Observe(s, ref, obs, now, ids, txNow).value;
            s'.procEvents == s.procEvents && s'.leases == s.leases
  {
    hide Decide, CommitChange, FollowUp, BuildCallback, ValidateCallback, NewEvent, Followed, Spared;
    var d := Decide(s.subs[ref], obs, now).value;
    if d.Change? { CommitEffect(s, false, d.next, d.event, ids, txNow); }
  }

  lemma SameHold(s: Store, s1: Store, ev: NormalizedEvent, lease: EventLease)
    requires s1.procEvents == s.procEvents && s1.leases == s.leases
    ensures StillOwned(s1, ev, lease) <==> StillOwned(s, ev, lease)
    ensures HoldsLease(s1, ev, lease) <==> HoldsLease(s, ev, lease)
  {
    hide ProcessingKey;
  }

  /** A Stripe webhook that reports an earlier period end moves the stored end back if and only if it gets through in
      this sense; otherwise the row stays as it is. */
  lemma WebhookRegresses(s: Store, cfg: Config, ev: NormalizedEvent, lease: EventLease,
          state: Option<SubscriptionState>, hits: Hits, now: Instant, ids: Ids, txNow: Instant, ref: string)
    requires hide *; LedgerInv(s) && GoodSubs(s) && FromStripe(ev) && state.Some?
             && StripeSubject(ev, state.value, hits) == Some(ref) && ref in s.subs
    requires state.value.periodEnd != ZERO_TIME && state.value.periodEnd < s.subs[ref].periodEnd
    ensures var s' := KeptStore(s, CommitEvent(s, cfg, ev, lease, state, hits, now, ids, txNow));
            && ref in s'.subs
            && if RegressionPasses(s, cfg, ev, lease, state.value, ref, now, ids)
               then s'.subs[ref].periodEnd == state.value.periodEnd
               else s'.subs[ref] == s.subs[ref]
  {
    hide LedgerInv, GoodSubs, ApplyStripe, Observe, CloseEvent, StripeSubject, HoldsLease, Regresses, Announces,
         StripeObservation;
    if StillOwned(s, ev, lease) {
      StripeCommits(s, cfg, ev, state, hits, now, ids, txNow, ref);
      StripeEnd(cfg, s.subs[ref], state.value);
      var obs := StripeObservation(cfg, s.subs[ref], state.value);
      if obs.Failure? {
        CloseSubs(s, ev, lease, Quarantined, StripeSubject(ev, state.value, hits), now);
      } else {
        DecisionRegresses(s, ref, obs.value, now, ids, txNow);
        if Observe(s, ref, obs.value, now, ids, txNow).Success? {
          var s1 := Observe(s, ref, obs.value, now, ids, txNow).value;
          ObservedTables(s, ref, obs.value, now, ids, txNow);
          SameHold(s, s1, ev, lease);
          CloseExactly(s1, ev, lease, Processed, Some(ref), now);
          CloseSubs(s1, ev, lease, Processed, Some(ref), now);
        } else {
          CloseSubs(s, ev, lease, Quarantined, StripeSubject(ev, state.value, hits), now);
          CloseSubs(s, ev, lease, ProcessingState.ManualReview, None, now);
        }
      }
    }
  }

  lemma CloseSubs(s: Store, ev: NormalizedEvent, lease: EventLease, state: ProcessingState, ref: Option<string>,
          now: Instant)
    ensures var r := CloseEvent(s, ev, lease, state, ref, now); r.Success? ==> r.value.subs == s.subs
  {
    hide ProcessingKey;
  }

  /** The scans of a webhook find stored rows only. */
  lemma SubjectStored(s: Store, ev: NormalizedEvent, state: Option<SubscriptionState>, hits: Hits)
    requires HitsAgree(s, ev, state, hits) && state.Some?
    ensures var subject := StripeSubject(ev, state.value, hits); subject.Some? ==> subject.value in s.subs
  {
  }

  /** In every run: a committed Stripe webhook about an earlier period end moves the stored end back exactly when it
      gets through, and leaves the row alone otherwise. */
  lemma RegressionInRun(env: Environment, states: seq<System>, steps: seq<Step>, n: nat, w: nat, ref: string)
    requires hide Leads; Run(env, states, steps) && n < |steps| && steps[n].CommitEventStep? && steps[n].w == w
    requires w in states[n].workers && states[n].workers[w].Fetched? && FromStripe(states[n].workers[w].ev)
             && states[n].workers[w].state.Some?
    requires StripeSubject(states[n].workers[w].ev, states[n].workers[w].state.value, steps[n].hits) == Some(ref)
    requires ref in states[n].db.subs ==>
               ZERO_TIME != states[n].workers[w].state.value.periodEnd < states[n].db.subs[ref].periodEnd
    ensures var k, s, s' := states[n].workers[w], states[n].db, states[n + 1].db;
            && ref in s.subs && ref in s'.subs
            && (s'.subs[ref].periodEnd < s.subs[ref].periodEnd
                <==> RegressionPasses(s, env.cfg, k.ev, k.lease, k.state.value, ref, steps[n].now, steps[n].ids))
  {
    hide Run, LedgerInv, Bound, ChargeInv, Payments.RenewalsPaid, CommitEvent, RegressionPasses, StripeSubject,
         HitsAgree, GoodSubs, GoodActions, GoodAttempts, TruthfulAttempts, NotAhead;
    RunStep(env, states, steps, n);
    RunLedger(env, states, steps, n);
    ChargeSteps.Basics(env, states[n].db, None);
    var k := states[n].workers[w];
    SubjectStored(states[n].db, k.ev, k.state, steps[n].hits);
    WebhookRegresses(states[n].db, env.cfg, k.ev, k.lease, k.state, steps[n].hits, steps[n].now, steps[n].ids,
                     steps[n].txNow, ref);
  }
}
