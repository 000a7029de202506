/** Whom a charge bills, and with which payment method: everything sent was fixed by the step that prepared it. */
module Billing {
  import opened Wrappers
  import opened Calendar
  import opened Model
  import opened Engine
  import opened Scheduler
  import opened System
  import opened ChargeSafety
  import opened Growth
  import opened StepSafety
  import opened Payments
  import opened Arrivals
  import opened Runs
  import opened Guarantees
  import opened Claims
  import opened Endings
  import opened Dunning
  import Bindings
  import ChargeSteps
  import Ledger

  /** Everything sent bills the shopper of the stored subscription, and goes to the configured endpoint. */
  lemma SentToShopper(env: Environment, states: seq<System>, steps: seq<Step>, n: nat, i: nat, a: string)
    requires hide Leads; Run(env, states, steps) && n < |states| && SentBy(states[n], i, a)
    ensures var db, sent := states[n].db, states[n].sent[i];
            && db.attempts[a].ref in db.subs && sent.endpoint == env.cfg.endpoint
            && sent.body.shopper == ShopperOf(db.subs[db.attempts[a].ref])
  {
    hide Run, Bindings.Bound, Ledger.LedgerInv, RenewalsPaid, GoodSubs, GoodActions, GoodAttempts, TruthfulAttempts,
         RefusedBefore, Numbered, WorkingAttempts, OnTarget, NotAhead, Renewing, Counted;
    RunLedger(env, states, steps, n);
    assert PricedFor(env, states[n].db, states[n].db.attempts[a]);
  }

  /** Step `m` added attempt `a`. */
  ghost predicate PreparedBy(states: seq<System>, m: nat, n: nat, a: string) {
    m < n < |states| && a !in states[m].db.attempts && a in states[m + 1].db.attempts
  }

  lemma {:induction false} AttemptOnRecord(env: Environment, states: seq<System>, steps: seq<Step>, n: nat, a: string)
    requires hide *; Run(env, states, steps) && n < |states| && a in states[n].db.attempts
    ensures exists m: nat :: PreparedBy(states, m, n, a)
  {
    hide Run;
    StartsEmpty(env, states, steps);
    if a in states[n - 1].db.attempts {
      AttemptOnRecord(env, states, steps, n - 1, a);
      var m: nat :| PreparedBy(states, m, n - 1, a);
      assert PreparedBy(states, m, n, a);
    } else {
      assert PreparedBy(states, n - 1, n, a);
    }
  }

  /** The payment method on record, if there is one. */
  function CardOf(sub: Subscription): string {
    match sub.paymentMethod
    case Some(card) => card
    case None => ""
  }

  /** A new attempt asks the shopper on record to pay, with the payment method on record, what the plan costs for the
      month after the current period; a blocked subscription is not charged. */
  ghost predicate Asks(env: Environment, s: Store, t: ChargeAttempt) {
    && t.ref in s.subs && s.subs[t.ref].planId in env.cfg.plans && !s.subs[t.ref].chargingBlocked
    && t.status.Prepared?
    && t.firstSubmittedAt.None? && t.resolutionDeadline.None?
    && t.periodStart == s.subs[t.ref].periodEnd && t.periodEnd == AddCalendarMonths(t.periodStart, 1)
    && t.request.endpoint == env.cfg.endpoint
    && (var plan, body := env.cfg.plans[s.subs[t.ref].planId], t.request.body;
        && body.merchant == plan.merchant && body.currency == plan.currency && body.amount == plan.amount
        && body.shopper == ShopperOf(s.subs[t.ref]) && body.token == CardOf(s.subs[t.ref])
        && body.reference == t.request.reference && t.request.idempotencyKey == "sb_charge_" + t.request.reference)
  }

  lemma PreparedAsks(s: Store, env: Environment, a: ScheduledAction, choice: Choice, attemptId: string,
          reference: string, id: string)
    requires EnsurePrepared(s, env.cfg, a, choice, attemptId, reference).Success? && id !in s.attempts
             && id in EnsurePrepared(s, env.cfg, a, choice, attemptId, reference).value.0.attempts
             && (a.ref in s.subs ==> s.subs[a.ref].ref == a.ref)
    ensures var t := EnsurePrepared(s, env.cfg, a, choice, attemptId, reference).value.0.attempts[id];
            t.actionId == a.id && t.ref == a.ref && Asks(env, s, t)
  {
    hide AddCalendarMonths;
  }

  lemma PrepareStepAsks(env: Environment, sys: System, step: Step, id: string)
    requires hide Safe, DbAfter, Enabled; Safe(env, sys) && Enabled(env, sys, step) && step.PrepareStep?
             && id !in sys.db.attempts && id in DbAfter(env, sys, step).attempts
    ensures step.id in sys.db.actions && DbAfter(env, sys, step).attempts[id].ref == sys.db.actions[step.id].ref
            && DbAfter(env, sys, step).attempts[id].actionId == step.id
            && Asks(env, sys.db, DbAfter(env, sys, step).attempts[id])
  {
    hide ChargeInv, Bindings.Bound, Ledger.LedgerInv, WorkersAgree, EnsurePrepared, EarliestAction, Chooses, Asks,
         GoodSubs, GoodActions, GoodAttempts, TruthfulAttempts, NotAhead;
    PickedAction(sys.db, step.now, ActionStatus.Pending, Renew, step.id);
    ChargeSteps.Basics(env, sys.db, None);
    RenewalIdentity(sys.db, step.id);
    if sys.db.actions[step.id].ref in sys.db.subs {
      StoredGood(sys.db, sys.db.actions[step.id].ref);
    }
    PreparedAsks(sys.db, env, sys.db.actions[step.id], step.choice, step.attemptId, step.reference, id);
  }

  /** Attempts are added by the steps that prepare them, and ask for what is on record at that moment. */
  lemma AddedAsks(env: Environment, states: seq<System>, steps: seq<Step>, m: nat, n: nat, a: string)
    requires hide Leads; Run(env, states, steps) && PreparedBy(states, m, n, a)
    ensures m < |steps| && steps[m].PrepareStep? && Asks(env, states[m].db, states[m + 1].db.attempts[a])
            && states[m + 1].db.attempts[a].actionId == steps[m].id
  {
    hide Run, Safe, Enabled, DbAfter, WorkersAfter, ReadsAfter, SentAfter, ClaimsRun, Arrived, Asks, Dealt;
    RunLength(env, states, steps);
    RunBasics(env, states, steps, m);
    RunStep(env, states, steps, m);
    if steps[m].PrepareStep? {
      PrepareStepAsks(env, states[m], steps[m], a);
    } else if steps[m].ClaimStep? {
      ClaimStepDealt(env, states[m], steps[m]);
    } else {
      StepKept(env, states[m], steps[m]);
    }
  }

  /** Everything sent carries the payment method that was on record when the attempt was prepared. */
  lemma SentWithCard(env: Environment, states: seq<System>, steps: seq<Step>, n: nat, i: nat, a: string)
    requires hide Leads; Run(env, states, steps) && n < |states| && SentBy(states[n], i, a)
    ensures exists m: nat :: PreparedBy(states, m, n, a) && Asks(env, states[m].db, states[m + 1].db.attempts[a])
                             && states[n].sent[i] == SubmissionOf(states[m + 1].db.attempts[a].request)
  {
    hide Run, Asks, AttemptGrows, ActionsGrow, OutboxGrows, LeasesGrow, ProcsGrow;
    AttemptOnRecord(env, states, steps, n, a);
    var m: nat :| PreparedBy(states, m, n, a);
    AddedAsks(env, states, steps, m, n, a);
    RequestsStay(env, states, steps, m + 1, n, a);
  }
}
