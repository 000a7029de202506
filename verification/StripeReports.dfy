/** What a processed Stripe webhook makes of the subscription that it is about, over every run. */
module StripeReports {
  import opened Wrappers
  import opened Calendar
  import opened Protocol
  import opened Model
  import opened Transition
  import opened Engine
  import opened System
  import opened ChargeSafety
  import opened Regressions
  import opened Processing
  import opened Verdicts

  // ---------- whom a report is about ----------

  /** A stored row carries the reported subscription of the processor. */
  predicate Carries(sub: Subscription, st: SubscriptionState) {
    st.subId != "" && sub.family == Stripe && sub.processorSubId == Some(st.subId)
  }

  ghost predicate Carried(s: Store, st: SubscriptionState) {
    exists r :: r in s.subs && Carries(s.subs[r], st)
  }

  /** The row that carries the reported subscription, or, if there is none, that of the checkout which the event names.
      */
  ghost predicate IsAbout(s: Store, ev: NormalizedEvent, st: SubscriptionState, ref: string) {
    && ref in s.subs
    && if Carried(s, st) then Carries(s.subs[ref], st)
       else ev.checkoutId != "" && s.subs[ref].checkoutId == ev.checkoutId
  }

  lemma SubjectIsAbout(s: Store, ev: NormalizedEvent, st: SubscriptionState, hits: Hits)
    requires HitsAgree(s, ev, Some(st), hits)
    ensures var subject := StripeSubject(ev, st, hits);
            if subject.Some? then IsAbout(s, ev, st, subject.value) else forall r :: !IsAbout(s, ev, st, r)
  {
    var subject := StripeSubject(ev, st, hits);
    if st.subId != "" && hits.byProcessor.Some? {
      assert Carries(s.subs[hits.byProcessor.value], st);
    } else {
      assert !Carried(s, st);
    }
  }

  // ---------- what is reported ----------

  /** A report names a known price. */
  predicate Priced(cfg: Config, st: SubscriptionState) {
    st.priceId != "" && st.priceId in cfg.stripePrices
  }

  /** The plan that a report names by its price; the stored one if it names none. */
  function PlanOf(cfg: Config, a: Subscription, st: SubscriptionState): string {
    if Priced(cfg, st) && cfg.stripePrices[st.priceId] != "" then cfg.stripePrices[st.priceId] else a.planId
  }

  /** The row shows the plan and the period of the report. */
  predicate Shows(cfg: Config, a: Subscription, st: SubscriptionState, b: Subscription) {
    && b.planId == PlanOf(cfg, a, st)
    && b.periodStart == (if st.periodStart == ZERO_TIME then a.periodStart else st.periodStart)
    && b.periodEnd == (if st.periodEnd == ZERO_TIME then a.periodEnd else st.periodEnd)
    && SameIdentity(a, b) && b.paymentMethod == a.paymentMethod
  }

  /** What a report makes of a row that has not expired. */
  predicate Follows(cfg: Config, a: Subscription, st: SubscriptionState, b: Subscription) {
    if st.deleted || st.immediateCancel || st.status == Status.Expired then
      b.status == Status.Expired && Shows(cfg, a, st, b)
    else if Priced(cfg, st) && cfg.stripePrices[st.priceId] != a.planId then
      if a.status == Status.Active then b.status == Status.Active && Shows(cfg, a, st, b) else b == a
    else if st.cancelAtPeriodEnd || st.status == Status.Canceled then
      if a.status == Status.Canceled then b == a else b.status == Status.Canceled && Shows(cfg, a, st, b)
    else if st.status == Status.PastDue then
      if a.status == Status.PastDue then b == a else b.status == Status.PastDue && Shows(cfg, a, st, b)
    else if st.status == Status.Active || st.status == Status.Trialing then
      b.status == Status.Active && Shows(cfg, a, st, b)
    else b == a
  }

  lemma ReportOutcome(cfg: Config, a: Subscription, st: SubscriptionState, b: Subscription, now: Instant)
    requires StripeObservation(cfg, a, st).Success? && Outcome(a, StripeObservation(cfg, a, st).value, b, now)
             && GoodRow(a)
    ensures if a.status == Status.Expired then b == a else Follows(cfg, a, st, b)
  {
  }

  // ---------- the transaction ----------

  /** The new row of a checkout that Stripe reports as paid for. */
  ghost predicate CreatedFrom(s: Store, s': Store, ev: NormalizedEvent, st: SubscriptionState, ref: string) {
    && ev.checkoutId in s.checkouts && ref !in s.subs && ref in s'.subs && s'.subs == s.subs[ref := s'.subs[ref]]
    && (var co, b := s.checkouts[ev.checkoutId], s'.subs[ref];
        && b.ref == ref && b.checkoutId == co.id && b.planId == co.planId && b.family == co.family && b.version == 1
        && b.status == st.status && b.periodStart == st.periodStart && b.periodEnd == st.periodEnd
        && b.customerId == (if st.customerId == "" then None else Some(st.customerId))
        && b.processorSubId == (if st.subId == "" then None else Some(st.subId))
        && co.id in s'.checkouts && s'.checkouts[co.id].status.Completed?
        && s'.checkouts[co.id].subscriptionRef == Some(ref))
  }

  lemma StripeApplied(s: Store, cfg: Config, ev: NormalizedEvent, st: SubscriptionState, hits: Hits, now: Instant,
          ids: Ids, txNow: Instant)
    requires GoodSubs(s) && HitsAgree(s, ev, Some(st), hits)
             && ApplyStripe(s, cfg, ev, Some(st), hits, now, ids, txNow).Success?
    ensures hide *;
            var s', subject := ApplyStripe(s, cfg, ev, Some(st), hits, now, ids, txNow).value.0,
                StripeSubject(ev, st, hits);
            if subject.Some? then
              var ref := subject.value;
              && ref in s.subs && ref in s'.subs && s'.subs == s.subs[ref := s'.subs[ref]]
              && (st.priceId != "" ==> Priced(cfg, st))
              && (if s.subs[ref].status == Status.Expired then s'.subs[ref] == s.subs[ref]
                  else Follows(cfg, s.subs[ref], st, s'.subs[ref]))
            else if ev.checkoutId != "" && (st.status == Status.Active || st.status == Status.Trialing) then
              CreatedFrom(s, s', ev, st, ids.subscription)
            else s' == s
  {
    hide Decide, Commit, CreateSubscription, StripeSubject, StripeObservation, HitsAgree, Outcome, Follows, GoodRow,
         FirstActivation, CreatedFrom;
    SubjectStored(s, ev, Some(st), hits);
    var subject := StripeSubject(ev, st, hits);
    if subject.Some? {
      var ref := subject.value;
      var a, obs := s.subs[ref], StripeObservation(cfg, s.subs[ref], st).value;
      assert Observe(s, ref, obs, now, ids, txNow).Success?;
      ObserveOutcome(s, ref, obs, now, ids, txNow);
      ReportOutcome(cfg, a, st, Observe(s, ref, obs, now, ids, txNow).value.subs[ref], now);
      KnownPrice(cfg, a, st);
    } else if ev.checkoutId != "" && (st.status == Status.Active || st.status == Status.Trialing) {
      var co := s.checkouts[ev.checkoutId];
      CreatedRowOf(s, co, ids.subscription, st, now, ids, txNow, ev);
    }
  }

  lemma KnownPrice(cfg: Config, a: Subscription, st: SubscriptionState)
    requires StripeObservation(cfg, a, st).Success?
    ensures st.priceId != "" ==> Priced(cfg, st)
  {
  }

  lemma CreatedRowOf(s: Store, co: Checkout, ref: string, st: SubscriptionState, now: Instant, ids: Ids,
          txNow: Instant, ev: NormalizedEvent)
    requires ev.checkoutId in s.checkouts && s.checkouts[ev.checkoutId] == co && ref == ids.subscription
    requires CreateSubscription(s, co,
                                FirstActivation(co, ref, st.status, st.periodStart, st.periodEnd, now,
                                                NonEmpty(st.customerId), NonEmpty(st.subId), None, None), ids,
                                txNow).Success?
    ensures hide *;
            CreatedFrom(s,
                        CreateSubscription(s, co,
                                           FirstActivation(co, ref, st.status, st.periodStart, st.periodEnd, now,
                                                           NonEmpty(st.customerId), NonEmpty(st.subId), None, None),
                                           ids, txNow).value, ev, st, ref)
  {
    hide CreateSubscription;
    CreateOutcome(s, co,
                  FirstActivation(co, ref, st.status, st.periodStart, st.periodEnd, now, NonEmpty(st.customerId),
                                  NonEmpty(st.subId), None, None), ids, txNow);
  }

  // ---------- runs ----------

  /** Step `n` processes a Stripe webhook that reports state `st`. */
  ghost predicate ProcessesReport(states: seq<System>, steps: seq<Step>, n: nat, st: SubscriptionState) {
    && Processes(states, steps, n) && FromStripe(states[n].workers[steps[n].w].ev)
    && states[n].workers[steps[n].w].state == Some(st)
  }

  lemma StripeKind(s: Store, cfg: Config, ev: NormalizedEvent, state: Option<SubscriptionState>, hits: Hits,
          now: Instant, ids: Ids, txNow: Instant)
    requires FromStripe(ev)
    ensures ApplyObservation(s, cfg, ev, state, hits, now, ids, txNow)
            == ApplyStripe(s, cfg, ev, state, hits, now, ids, txNow)
  {
    hide ApplyStripe;
  }

  lemma ReportApplied(env: Environment, states: seq<System>, steps: seq<Step>, n: nat, st: SubscriptionState)
    requires hide Leads; Run(env, states, steps) && ProcessesReport(states, steps, n, st)
    ensures var s, s', k, step := states[n].db, states[n + 1].db, states[n].workers[steps[n].w], steps[n];
            var r := ApplyStripe(s, env.cfg, k.ev, Some(st), step.hits, step.now, step.ids, step.txNow);
            && GoodSubs(s) && HitsAgree(s, k.ev, Some(st), step.hits) && r.Success? && SameRecords(r.value.0, s')
  {
    hide Run, ApplyObservation, ApplyStripe, HitsAgree, GoodSubs, TruthfulEvent;
    WebhookApplied(env, states, steps, n);
    var k := states[n].workers[steps[n].w];
    StripeKind(states[n].db, env.cfg, k.ev, k.state, steps[n].hits, steps[n].now, steps[n].ids, steps[n].txNow);
  }

  /** A row has become what was reported, and the others are as they were. */
  ghost predicate FollowedBy(cfg: Config, s: Store, s': Store, st: SubscriptionState, ref: string) {
    && ref in s.subs && ref in s'.subs && s'.subs == s.subs[ref := s'.subs[ref]]
    && (st.priceId != "" ==> Priced(cfg, st))
    && (if s.subs[ref].status == Status.Expired then s'.subs[ref] == s.subs[ref]
        else Follows(cfg, s.subs[ref], st, s'.subs[ref]))
  }

  /** In every run, a processed webhook about a stored subscription leaves that row with what was reported: it has
      expired when Stripe ended it, is canceled when it is to end with its period, past due, or active on the reported
      plan and for the reported period; an expired row stays as it is, and so do all others. */
  lemma ReportFollowed(env: Environment, states: seq<System>, steps: seq<Step>, n: nat, st: SubscriptionState,
          r: string)
    requires hide Leads; Run(env, states, steps) && ProcessesReport(states, steps, n, st)
             && IsAbout(states[n].db, states[n].workers[steps[n].w].ev, st, r)
    ensures exists ref ::
              && IsAbout(states[n].db, states[n].workers[steps[n].w].ev, st, ref)
              && FollowedBy(env.cfg, states[n].db, states[n + 1].db, st, ref)
  {
    hide Run, ApplyStripe, HitsAgree, StripeSubject, IsAbout, Follows, GoodSubs;
    ReportApplied(env, states, steps, n, st);
    var k := states[n].workers[steps[n].w];
    SubjectIsAbout(states[n].db, k.ev, st, steps[n].hits);
    StripeApplied(states[n].db, env.cfg, k.ev, st, steps[n].hits, steps[n].now, steps[n].ids, steps[n].txNow);
    var ref := StripeSubject(k.ev, st, steps[n].hits).value;
    assert FollowedBy(env.cfg, states[n].db, states[n + 1].db, st, ref);
  }

  /** In every run, a processed webhook about no stored subscription creates the one of its checkout when Stripe reports
      it as served, and otherwise changes no row. */
  lemma ReportCreates(env: Environment, states: seq<System>, steps: seq<Step>, n: nat, st: SubscriptionState)
    requires hide Leads; Run(env, states, steps) && ProcessesReport(states, steps, n, st)
    requires forall r :: !IsAbout(states[n].db, states[n].workers[steps[n].w].ev, st, r)
    ensures var s, s', ev := states[n].db, states[n + 1].db, states[n].workers[steps[n].w].ev;
            if ev.checkoutId != "" && (st.status == Status.Active || st.status == Status.Trialing)
            then CreatedFrom(s, s', ev, st, steps[n].ids.subscription)
            else s'.subs == s.subs && s'.checkouts == s.checkouts
  {
    hide Run, ApplyStripe, HitsAgree, StripeSubject, IsAbout, Follows, GoodSubs;
    ReportApplied(env, states, steps, n, st);
    var k := states[n].workers[steps[n].w];
    SubjectIsAbout(states[n].db, k.ev, st, steps[n].hits);
    StripeApplied(states[n].db, env.cfg, k.ev, st, steps[n].hits, steps[n].now, steps[n].ids, steps[n].txNow);
  }

  /** A report that names an unknown price changes no record; its event is set aside. */
  lemma UnknownPriceSetAside(s: Store, cfg: Config, ev: NormalizedEvent, lease: EventLease, st: SubscriptionState,
          hits: Hits, now: Instant, ids: Ids, txNow: Instant, ref: string)
    requires FromStripe(ev) && StripeSubject(ev, st, hits) == Some(ref) && ref in s.subs && st.priceId != ""
             && !Priced(cfg, st) && StillOwned(s, ev, lease) && HoldsLease(s, ev, lease)
    ensures var r := CommitEvent(s, cfg, ev, lease, Some(st), hits, now, ids, txNow);
            r.Success? && SameRecords(s, r.value) && ClosedAs(s, r.value, ev, Quarantined, now)
  {
    hide StripeSubject, CloseEvent, HoldsLease, Commit, Decide;
    CloseExactly(s, ev, lease, Quarantined, Some(ref), now);
    CloseOutcome(s, ev, lease, Quarantined, Some(ref), now);
  }
}
