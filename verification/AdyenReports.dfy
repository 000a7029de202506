/** What a processed Adyen webhook leaves behind, over every run: a first payment, the outcome of a charge, the end of a
    contract. */
module AdyenReports {
  import opened Wrappers
  import opened Calendar
  import opened Protocol
  import opened Model
  import opened Transition
  import opened Engine
  import opened System
  import opened ChargeSafety
  import opened ChargeSteps
  import opened ChargeOutcomes
  import opened ChargeEvents
  import opened BookSteps
  import opened Runs
  import opened Dunning
  import opened Verdicts
  import opened Processing
  import Bindings
  import ChargeRefusals
  import opened Effects
  import Ledger
  import Payments
  import StepSafety

  // ---------- the first payment ----------

  /** What a webhook calls a value, or nothing if it is empty. */
  function Given(text: string): Option<string> {
    if text == "" then None else Some(text)
  }

  /** The subscription of a checkout that was paid for now. */
  predicate PaidForNow(co: Checkout, ev: NormalizedEvent, now: Instant, ref: string, b: Subscription) {
    && b.ref == ref && b.checkoutId == co.id && b.planId == co.planId && b.family == co.family && b.version == 1
    && b.status == Status.Active && b.periodStart == now && b.periodEnd == AddCalendarMonths(now, 1)
    && b.shopperRef == co.shopperRef && b.paymentMethod == Given(ev.paymentMethod)
    && b.initialPaymentId == Given(ev.paymentId)
    && !b.chargingBlocked
  }

  /** A first payment creates the subscription of its checkout; a further one gives the subscription a new payment
      method and lifts its block. */
  ghost predicate FirstPaid(s: Store, s': Store, ev: NormalizedEvent, now: Instant, ref: string) {
    if !ev.success || ev.checkoutId == "" then s'.subs == s.subs && s'.checkouts == s.checkouts
    else
      && ev.checkoutId in s.checkouts
      && var co := s.checkouts[ev.checkoutId];
      if co.status.Completed? && co.subscriptionRef.Some? then
        if ev.paymentMethod == "" then s'.subs == s.subs
        else
          var r := co.subscriptionRef.value;
          && r in s.subs
          && s'.subs == (if s.subs[r].status == Status.Expired then s.subs
                         else s.subs[r := s.subs[r].(paymentMethod := Some(ev.paymentMethod), chargingBlocked := false,
                                                     blockReason := None)])
      else
        && ref !in s.subs && ref in s'.subs && s'.subs == s.subs[ref := s'.subs[ref]]
        && PaidForNow(co, ev, now, ref, s'.subs[ref])
        && s'.checkouts == s.checkouts[co.id := co.(status := CheckoutStatus.Completed, subscriptionRef := Some(ref))]
  }

  lemma InitialOutcome(s: Store, ev: NormalizedEvent, now: Instant, ids: Ids, txNow: Instant)
    requires GoodSubs(s) && ApplyAdyenInitial(s, ev, now, ids, txNow).Success?
    ensures hide *; FirstPaid(s, ApplyAdyenInitial(s, ev, now, ids, txNow).value.0, ev, now, ids.subscription)
  {
    hide CreateSubscription, AddCalendarMonths, GoodRow;
    if ev.success && ev.checkoutId != "" {
      var co := s.checkouts[ev.checkoutId];
      if !(co.status.Completed? && co.subscriptionRef.Some?) {
        var sub := FirstActivation(co, ids.subscription, Status.Active, now, AddCalendarMonths(now, 1), now, None, None,
                                   NonEmpty(ev.paymentId), co.shopperRef);
        CreateOutcome(s, co, WithPaymentMethod(sub, ev.paymentMethod), ids, txNow);
      }
    }
  }

  /** In every run: a first payment that is processed leaves the subscription of its checkout, new or not, with exactly
      the payment method that the webhook carries, active for a month or unblocked, unless it has expired. */
  lemma FirstPaymentStored(env: Environment, states: seq<System>, steps: seq<Step>, n: nat)
    requires hide Leads; Run(env, states, steps) && Processes(states, steps, n)
             && states[n].workers[steps[n].w].ev.kind.AdyenInitial?
    ensures FirstPaid(states[n].db, states[n + 1].db, states[n].workers[steps[n].w].ev, steps[n].now,
                      steps[n].ids.subscription)
  {
    hide Run, HitsAgree, GoodSubs, TruthfulEvent, ApplyAdyenInitial, FirstPaid;
    WebhookApplied(env, states, steps, n);
    var s, ev, step := states[n].db, states[n].workers[steps[n].w].ev, steps[n];
    InitialOutcome(s, ev, step.now, step.ids, step.txNow);
    SamePaid(s, ApplyAdyenInitial(s, ev, step.now, step.ids, step.txNow).value.0, states[n + 1].db, ev, step.now,
             step.ids.subscription);
  }

  lemma SamePaid(s: Store, t: Store, u: Store, ev: NormalizedEvent, now: Instant, ref: string)
    requires FirstPaid(s, t, ev, now, ref) && SameRecords(t, u)
    ensures FirstPaid(s, u, ev, now, ref)
  {
    hide PaidForNow;
  }

  // ---------- the outcome of a charge ----------

  /** An authorised attempt is on record, and its subscription is served for the month that it paid for, with nothing
      left of earlier trouble, unless it has expired. */
  ghost predicate MonthPaid(s: Store, s': Store, id: string) {
    && id in s.attempts && id in s'.attempts && s'.attempts == s.attempts[id := s'.attempts[id]]
    && s'.attempts[id].status.Authorized?
    && (var t := s.attempts[id];
        && t.ref in s.subs && t.ref in s'.subs && s'.subs == s.subs[t.ref := s'.subs[t.ref]]
        && (var a, b := s.subs[t.ref], s'.subs[t.ref];
            if a.status == Status.Expired
            then b.(chargingBlocked := a.chargingBlocked, blockReason := a.blockReason) == a
            else b.status == Status.Active && b.periodStart == t.periodStart && b.periodEnd == t.periodEnd
                 && b.planId == a.planId && b.pastDueSince.None? && b.canceledAt.None? && !b.chargingBlocked)
        && t.actionId in s'.actions && !Claimable(s'.actions[t.actionId].status))
  }

  /** A refused attempt is on record, and its subscription is past due, unless it has expired. */
  ghost predicate MonthRefused(s: Store, s': Store, id: string, now: Instant) {
    && id in s.attempts && id in s'.attempts && s'.attempts == s.attempts[id := s'.attempts[id]]
    && s'.attempts[id].status.Refused? && s'.attempts[id].completedAt == Some(now)
    && (var t := s.attempts[id];
        && t.ref in s.subs && t.ref in s'.subs && s'.subs == s.subs[t.ref := s'.subs[t.ref]]
        && (var a, b := s.subs[t.ref], s'.subs[t.ref];
            if a.status == Status.Expired || a.status == Status.PastDue then b == a
            else b.status == Status.PastDue && b.periodStart == a.periodStart && b.periodEnd == a.periodEnd
                 && b.planId == a.planId
                 && b.pastDueSince == (if a.pastDueSince.Some? then a.pastDueSince else Some(now))))
  }

  /** Which row a payment for a month leads to. */
  lemma PaidRow(a: Subscription, b: Subscription, start: Instant, end: Instant, now: Instant)
    requires Outcome(a, PaidPeriod(start, end), b, now) && start != ZERO_TIME && end != ZERO_TIME && GoodRow(a)
    ensures if a.status == Status.Expired then b == a
            else b.status == Status.Active && b.periodStart == start && b.periodEnd == end && b.planId == a.planId
                 && b.pastDueSince.None? && b.canceledAt.None? && !b.chargingBlocked
  {
  }

  lemma RefusedRow(a: Subscription, b: Subscription, now: Instant)
    requires Outcome(a, Observed(Status.PastDue), b, now)
    ensures if a.status == Status.Expired || a.status == Status.PastDue then b == a
            else b.status == Status.PastDue && b.periodStart == a.periodStart && b.periodEnd == a.periodEnd
                 && b.planId == a.planId
                 && b.pastDueSince == (if a.pastDueSince.Some? then a.pastDueSince else Some(now))
  {
  }

  lemma CommittedSubs(s: Store, d: Decision, sub: Subscription, ids: Ids, txNow: Instant)
    requires Commit(s, d, ids, txNow).Success? && (d.Change? ==> d.next.ref == sub.ref)
    ensures var s' := Commit(s, d, ids, txNow).value;
            s'.attempts == s.attempts && s'.subs == (if d.Change? then s.subs[sub.ref := d.next] else s.subs)
  {
    hide CommitChange;
    if d.Change? { CommitTables(s, false, d.next, d.event, ids, txNow); }
  }

  lemma CommittedFinished(s: Store, d: Decision, ids: Ids, txNow: Instant, x: string)
    requires Commit(s, d, ids, txNow).Success? && x in s.actions && !Claimable(s.actions[x].status)
    ensures var s' := Commit(s, d, ids, txNow).value; x in s'.actions && !Claimable(s'.actions[x].status)
  {
    hide CommitChange, FollowUp, BuildCallback, ValidateCallback, NewEvent, Added, Spared;
    if d.Change? { CommitEffect(s, false, d.next, d.event, ids, txNow); }
  }

  lemma AuthorisedOutcome(env: Environment, s: Store, t: ChargeAttempt, unblock: bool, now: Instant, ids: Ids,
          txNow: Instant)
    requires hide *; ChargeInv(env, s, None) && t.id in s.attempts && SameAttempt(s.attempts[t.id], t)
             && !s.attempts[t.id].status.Authorized? && Authorises(env, t)
             && RecordAuthorised(s, t, unblock, now, ids, txNow).Success?
    ensures var s' := RecordAuthorised(s, t, unblock, now, ids, txNow).value;
            MonthPaid(s, s', t.id) && t.id in s'.attempts && s'.attempts[t.id] == t.(status := Authorized)
  {
    hide ChargeInv, Decide, Commit, ForceFinishAction, AddCalendarMonths, GoodRow, Outcome, Claimable, Unblocked;
    StepSafety.AttemptOf(env, s, t.id);
    var s1 := UpdateAttempt(s, t.(status := Authorized)).value;
    ForceFinishEffect(s1, t.actionId, ActionStatus.Completed, None, None);
    assert !Claimable(ActionStatus.Completed) by { CompletedFinished(); }
    var s2 := ForceFinishAction(s1, t.actionId, ActionStatus.Completed, None, None).value;
    var a := s.subs[t.ref];
    var sub := if unblock then a.(chargingBlocked := false, blockReason := None) else a;
    EitherUnblocked(a, sub);
    PaidNext(env, s, t.id, sub, now);
    var d := Decide(sub, PaidPeriod(t.periodStart, t.periodEnd), now).value;
    ChargeRefusals.CommitNoop(s2, d, ids, txNow);
    CommittedSubs(s2, d, sub, ids, txNow);
    CommittedFinished(s2, d, ids, txNow, t.actionId);
  }

  /** The row that a payment for the month after the current period leads to. */
  lemma PaidNext(env: Environment, s: Store, id: string, sub: Subscription, now: Instant)
    requires ChargeInv(env, s, None) && id in s.attempts && Authorises(env, s.attempts[id])
             && !s.attempts[id].status.Authorized?
    requires var t := s.attempts[id];
             t.ref in s.subs && Unblocked(s.subs[t.ref], sub)
             && Decide(sub, PaidPeriod(t.periodStart, t.periodEnd), now).Success?
    ensures hide *; var t, d := s.attempts[id],
            Decide(sub, PaidPeriod(s.attempts[id].periodStart, s.attempts[id].periodEnd), now).value;
            && t.ref == sub.ref && (d.Change? ==> d.next.ref == sub.ref)
            && (var b := Decided(sub, d);
                if sub.status == Status.Expired then b == sub
                else b.status == Status.Active && b.periodStart == t.periodStart && b.periodEnd == t.periodEnd
                     && b.planId == sub.planId && b.pastDueSince.None? && b.canceledAt.None? && !b.chargingBlocked)
  {
    hide ChargeInv, Decide, GoodRow, Outcome, AddCalendarMonths, Unblocked;
    PaysForNextPeriod(env, s, None, id);
    PaidMonth(env, s, id);
    var t := s.attempts[id];
    UnblockedRow(s.subs[t.ref], sub);
    var d := Decide(sub, PaidPeriod(t.periodStart, t.periodEnd), now).value;
    DecideOutcome(sub, PaidPeriod(t.periodStart, t.periodEnd), now);
    OutcomeRef(sub, PaidPeriod(t.periodStart, t.periodEnd), Decided(sub, d), now);
    PaidRow(sub, Decided(sub, d), t.periodStart, t.periodEnd, now);
  }

  lemma CompletedFinished()
    ensures !Claimable(ActionStatus.Completed)
  {
  }

  lemma EitherUnblocked(row: Subscription, sub: Subscription)
    requires sub == row || sub == row.(chargingBlocked := false, blockReason := None)
    ensures Unblocked(row, sub)
  {
  }

  lemma RefusedOutcome(env: Environment, s: Store, t: ChargeAttempt, now: Instant, ids: Ids, txNow: Instant)
    requires hide *; ChargeInv(env, s, None) && t.id in s.attempts && SameAttempt(s.attempts[t.id], t)
             && t.completedAt == Some(now) && RecordRefused(s, env.cfg, t, now, ids, txNow).Success?
    ensures var s' := RecordRefused(s, env.cfg, t, now, ids, txNow).value;
            MonthRefused(s, s', t.id, now) && t.id in s'.attempts && s'.attempts[t.id] == t.(status := Refused)
  {
    hide ChargeInv, Observe, RescheduleOrExpire, GoodSubs, GoodActions, GoodAttempts, TruthfulAttempts, NotAhead,
         Outcome;
    Basics(env, s, None);
    var s1 := UpdateAttempt(s, t.(status := Refused)).value;
    SameSubsGood(s, s1);
    ObserveOutcome(s1, t.ref, Observed(Status.PastDue), now, ids, txNow);
    var s2 := Observe(s1, t.ref, Observed(Status.PastDue), now, ids, txNow).value;
    RefusedRow(s1.subs[t.ref], s2.subs[t.ref], now);
    RescheduledTables(s2, env.cfg, t, t.ref, now, ids.dunning);
  }

  lemma RescheduledTables(s: Store, cfg: Config, t: ChargeAttempt, ref: string, now: Instant, dunningId: string)
    requires RescheduleOrExpire(s, cfg, t, ref, now, dunningId).Success?
    ensures var s' := RescheduleOrExpire(s, cfg, t, ref, now, dunningId).value; s' == s.(actions := s'.actions)
  {
    hide RetryableCode, ForceFinishAction, EnsureAction;
    var last := LastRefusal(cfg, t.number, RetryableCode(t.refusalCode));
    var status, due := if last then ActionStatus.Completed else ActionStatus.Pending,
        if last then None else Some(now + cfg.retryDelays[t.number - 1]);
    ForceFinishEffect(s, t.actionId, status, due, Some("refused"));
    EnsureEffect(ForceFinishAction(s, t.actionId, status, due, Some("refused")).value,
                 NewAction(dunningId, ref, Expire, now + cfg.dunningTermination));
  }

  /** Whether nobody has decided about an attempt yet, as far as a webhook is concerned. */
  predicate Undecided(t: ChargeAttempt) {
    !t.status.Refused? && !t.status.Canceled? && !t.status.ManualReview? && !t.status.Authorized?
  }

  /** What a renewal webhook makes of the attempt whose reference it carries. */
  ghost predicate ChargeReported(s: Store, s': Store, ev: NormalizedEvent, id: string, now: Instant) {
    && id in s.attempts && s.attempts[id].request.reference == ev.attemptReference
    && if !Undecided(s.attempts[id]) then s'.attempts == s.attempts && s'.subs == s.subs && s'.actions == s.actions
       else
         && (if ev.success then MonthPaid(s, s', id) else MonthRefused(s, s', id, now))
         && s'.attempts[id].completedAt == Some(now) && s'.attempts[id].claim.token.None?
         && s'.attempts[id].paymentId == (if ev.paymentId == "" then s.attempts[id].paymentId else Some(ev.paymentId))
         && (!ev.success ==> s'.attempts[id].refusalCode == (if ev.refusalCode == "" then s.attempts[id].refusalCode
                                                             else Some(ev.refusalCode)))
  }

  ghost predicate SomeChargeReported(s: Store, s': Store, ev: NormalizedEvent, now: Instant) {
    exists id :: ChargeReported(s, s', ev, id, now)
  }

  lemma RenewalOutcome(env: Environment, s: Store, ev: NormalizedEvent, hits: Hits, now: Instant, ids: Ids,
          txNow: Instant)
    requires hide *; ChargeInv(env, s, None) && TruthfulEvent(env, ev) && ev.kind.AdyenRenewal?
             && Finds(s.attempts, HasReference(ev.attemptReference), hits.byReference)
             && ApplyAdyenRenewal(s, env.cfg, ev, hits, now, ids, txNow).Success?
    ensures hits.byReference.Some?
            && ChargeReported(s, ApplyAdyenRenewal(s, env.cfg, ev, hits, now, ids, txNow).value.0, ev,
                              hits.byReference.value, now)
  {
    hide ChargeInv, RecordAuthorised, RecordRefused, GoodSubs, GoodActions, GoodAttempts, TruthfulAttempts, NotAhead,
         TruthfulEvent, MonthPaid, MonthRefused;
    Basics(env, s, None);
    ReferredVerdict(env, s, ev, hits);
    var t0 := s.attempts[hits.byReference.value];
    if Undecided(t0) {
      var t := t0.(claim := t0.claim.Release(), completedAt := Some(now),
                   paymentId := if ev.paymentId != "" then Some(ev.paymentId) else t0.paymentId);
      if ev.success {
        AuthorisedOutcome(env, s, t, false, now, ids, txNow);
      } else {
        RefusedOutcome(env, s,
                       t.(refusalCode := if ev.refusalCode != "" then Some(ev.refusalCode) else t0.refusalCode), now,
                       ids, txNow);
      }
    }
  }

  lemma SameReported(s: Store, t: Store, u: Store, ev: NormalizedEvent, id: string, now: Instant)
    requires ChargeReported(s, t, ev, id, now) && SameRecords(t, u)
    ensures ChargeReported(s, u, ev, id, now)
  {
  }

  /** In every run: a renewal webhook that is processed is about an attempt with its reference; if nobody has decided
      about it, the attempt is authorised and the month served, or refused and the subscription past due, as the webhook
      says; otherwise no attempt, subscription or action changes. */
  lemma ChargeReportFollowed(env: Environment, states: seq<System>, steps: seq<Step>, n: nat)
    requires hide Leads; Run(env, states, steps) && Processes(states, steps, n)
             && states[n].workers[steps[n].w].ev.kind.AdyenRenewal?
    ensures SomeChargeReported(states[n].db, states[n + 1].db, states[n].workers[steps[n].w].ev, steps[n].now)
  {
    hide Run, Bindings.Bound, Ledger.LedgerInv, Payments.RenewalsPaid, ChargeInv, HitsAgree, GoodSubs, TruthfulEvent,
         ApplyAdyenRenewal, ChargeReported;
    WebhookApplied(env, states, steps, n);
    RunLedger(env, states, steps, n);
    var s, k, step := states[n].db, states[n].workers[steps[n].w], steps[n];
    HitReference(s, k.ev, k.state, step.hits);
    RenewalOutcome(env, s, k.ev, step.hits, step.now, step.ids, step.txNow);
    SameReported(s, ApplyAdyenRenewal(s, env.cfg, k.ev, step.hits, step.now, step.ids, step.txNow).value.0,
                 states[n + 1].db, k.ev, step.hits.byReference.value, step.now);
  }

  lemma HitReference(s: Store, ev: NormalizedEvent, state: Option<SubscriptionState>, hits: Hits)
    requires HitsAgree(s, ev, state, hits)
    ensures Finds(s.attempts, HasReference(ev.attemptReference), hits.byReference)
  {
  }

  // ---------- the end of a contract ----------

  predicate PaidFirst(sub: Subscription, payment: string) {
    sub.family == Adyen && sub.initialPaymentId == Some(payment)
  }

  ghost predicate ChargedTo(s: Store, payment: string, ref: string) {
    exists t :: t in s.attempts && s.attempts[t].paymentId == Some(payment) && s.attempts[t].ref == ref
  }

  /** A row is known by a payment that was its first or that of a charge of it; where there are first payments and
      charges of that name, it is known by both. */
  ghost predicate KnownBy(s: Store, payment: string, ref: string) {
    && ref in s.subs && (PaidFirst(s.subs[ref], payment) || ChargedTo(s, payment, ref))
    && (PaidFirst(s.subs[ref], payment) || forall r :: r in s.subs ==> !PaidFirst(s.subs[r], payment))
    && (ChargedTo(s, payment, ref) || forall t :: t in s.attempts ==> s.attempts[t].paymentId != Some(payment))
  }

  /** A subscription is canceled to the end of its period, unless it is canceled already or has expired. */
  predicate CanceledNow(a: Subscription, b: Subscription, now: Instant) {
    if a.status == Status.Canceled || a.status == Status.Expired then b == a
    else b.status == Status.Canceled && b.cancelAtPeriodEnd && b.canceledAt == Some(now) && b.stateChangedAt == now
         && b.periodStart == a.periodStart && b.periodEnd == a.periodEnd && b.planId == a.planId
         && b.version == a.version + 1
  }

  lemma CanceledRowNow(a: Subscription, b: Subscription, now: Instant)
    requires Outcome(a, CANCELLATION, b, now)
    ensures CanceledNow(a, b, now)
  {
  }

  /** The subscription that is known by the payment is canceled, and no other row changes. */
  ghost predicate ContractEnded(s: Store, s': Store, payment: string, ref: string, now: Instant) {
    KnownBy(s, payment, ref) && ref in s'.subs && s'.subs == s.subs[ref := s'.subs[ref]]
    && CanceledNow(s.subs[ref], s'.subs[ref], now)
  }

  lemma ContractOutcome(s: Store, ev: NormalizedEvent, state: Option<SubscriptionState>, hits: Hits, now: Instant,
          ids: Ids, txNow: Instant)
    requires GoodSubs(s) && (forall t :: t in s.attempts ==> s.attempts[t].ref in s.subs)
    requires HitsAgree(s, ev, state, hits) && ApplyAdyenContract(s, ev, hits, now, ids, txNow).Success?
    ensures hide *;
            ev.paymentId != ""
            && exists ref :: ContractEnded(s, ApplyAdyenContract(s, ev, hits, now, ids, txNow).value.0, ev.paymentId,
                                           ref, now)
  {
    hide Observe, GoodRow, CanceledNow, HasCheckout, HasReference, HasProcessorSub, Outcome;
    var ref := ContractSubject(s, hits).value;
    ObserveOutcome(s, ref, CANCELLATION, now, ids, txNow);
    var s' := ApplyAdyenContract(s, ev, hits, now, ids, txNow).value.0;
    CanceledRowNow(s.subs[ref], s'.subs[ref], now);
    SubjectKnown(s, ev, state, hits, ref);
    assert ContractEnded(s, s', ev.paymentId, ref, now);
  }

  lemma SubjectKnown(s: Store, ev: NormalizedEvent, state: Option<SubscriptionState>, hits: Hits, ref: string)
    requires HitsAgree(s, ev, state, hits) && ContractSubject(s, hits) == Some(ref) && ref in s.subs
    requires forall t :: t in s.attempts ==> s.attempts[t].ref in s.subs
    ensures KnownBy(s, ev.paymentId, ref)
  {
    hide HasCheckout, HasReference, HasProcessorSub;
    if hits.byInitialPayment.None? {
      forall r | r in s.subs ensures !PaidFirst(s.subs[r], ev.paymentId) {
        assert !HasInitialPayment(Adyen, ev.paymentId)(s.subs[r]);
      }
    }
    if hits.byChargePayment.Some? {
      assert s.attempts[hits.byChargePayment.value].paymentId == Some(ev.paymentId);
      assert ChargedTo(s, ev.paymentId, ref);
    } else {
      forall t | t in s.attempts ensures s.attempts[t].paymentId != Some(ev.paymentId) {
        assert !HasPayment(ev.paymentId)(s.attempts[t]);
      }
    }
  }

  /** Every attempt is one of a stored subscription. */
  lemma AttemptsOwned(env: Environment, s: Store)
    requires ChargeInv(env, s, None)
    ensures forall t :: t in s.attempts ==> s.attempts[t].ref in s.subs
  {
    hide GoodSubs, GoodActions, GoodAttempts, TruthfulAttempts, RefusedBefore, Numbered, WorkingAttempts, OnTarget,
         NotAhead, Renewing, Counted;
    forall t | t in s.attempts ensures s.attempts[t].ref in s.subs {
      assert PricedFor(env, s, s.attempts[t]);
    }
  }

  /** In every run: the end of a contract, when it is processed, cancels the subscription that is known by its payment,
      to the end of the period, and changes no other row. */
  lemma ContractEnds(env: Environment, states: seq<System>, steps: seq<Step>, n: nat)
    requires hide Leads; Run(env, states, steps) && Processes(states, steps, n)
             && states[n].workers[steps[n].w].ev.kind.AdyenContract?
    ensures SomeContractEnded(states[n].db, states[n + 1].db, states[n].workers[steps[n].w].ev.paymentId, steps[n].now)
  {
    hide Run, HitsAgree, GoodSubs, TruthfulEvent, ApplyAdyenContract, KnownBy, CanceledNow, ChargeInv, Bindings.Bound,
         Ledger.LedgerInv, Payments.RenewalsPaid;
    WebhookApplied(env, states, steps, n);
    var s, k, step := states[n].db, states[n].workers[steps[n].w], steps[n];
    RunLedger(env, states, steps, n);
    AttemptsOwned(env, s);
    ContractOutcome(s, k.ev, k.state, step.hits, step.now, step.ids, step.txNow);
    var t := ApplyAdyenContract(s, k.ev, step.hits, step.now, step.ids, step.txNow).value.0;
    var ref :| ContractEnded(s, t, k.ev.paymentId, ref, step.now);
    assert ContractEnded(s, states[n + 1].db, k.ev.paymentId, ref, step.now);
  }

  ghost predicate SomeContractEnded(s: Store, s': Store, payment: string, now: Instant) {
    exists ref :: ContractEnded(s, s', payment, ref, now)
  }
}
