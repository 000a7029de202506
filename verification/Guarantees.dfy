/** The main results: what the bridge guarantees in every state of every run. */
module Guarantees {
  import opened Wrappers
  import opened Calendar
  import opened Protocol
  import opened Model
  import opened Transition
  import opened Engine
  import opened Scheduler
  import opened System
  import opened Bindings
  import opened Books
  import opened Ledger
  import opened ChargeSafety
  import opened Growth
  import opened StepSafety
  import opened Safety
  import opened Payments
  import ChargeSteps
  import Reads
  import T = Timestamps
  import opened Runs

  // ---------- charging ----------

  /** Attempts for one and the same month of a subscription. */
  predicate SameMonth(t: ChargeAttempt, u: ChargeAttempt) {
    t.ref == u.ref && t.periodStart == u.periodStart
  }

  lemma OneCharge(env: Environment, s: Store, i: string, j: string)
    requires ChargeInv(env, s, None) && i in s.attempts && j in s.attempts
    requires s.attempts[i].actionId == s.attempts[j].actionId || SameMonth(s.attempts[i], s.attempts[j])
    requires Authorises(env, s.attempts[i]) && Authorises(env, s.attempts[j])
    ensures i == j
  {
    hide GoodSubs, TruthfulAttempts, Numbered, Priced, WorkingAttempts, OnTarget, NotAhead, Renewing, Counted;
    if s.attempts[i].actionId != s.attempts[j].actionId {
      OneActionPerPeriod(s, i, j);
    }
    OneChargePerAction(env, s, i, j);
  }

  /** At most one charge: of everything ever sent to the provider for one renewal, or for one month of one subscription,
      at most one idempotency key is ever authorised. */
  lemma AtMostOneCharge(env: Environment, states: seq<System>, steps: seq<Step>, n: nat, i: nat, j: nat, a: string,
          b: string)
    requires hide Leads; Run(env, states, steps) && n < |states| && SentBy(states[n], i, a) && SentBy(states[n], j, b)
    requires var db := states[n].db;
             db.attempts[a].actionId == db.attempts[b].actionId || SameMonth(db.attempts[a], db.attempts[b])
    requires env.authorises(states[n].sent[i].idempotencyKey) && env.authorises(states[n].sent[j].idempotencyKey)
    ensures a == b && states[n].sent[i] == states[n].sent[j]
  {
    hide ChargeInv, Bound, LedgerInv, WorkersAgree, Reads.ReadsInv, RenewalsPaid, SentInv, UniqueKeys, ClaimsRun,
         DeliveriesFenced, Run;
    RunInv(env, states, steps, n);
    OneCharge(env, states[n].db, a, b);
  }

  /** Exact replay: an idempotency key always travels with the same endpoint and body, and everything sent is on
      record. */
  lemma ExactReplay(env: Environment, states: seq<System>, steps: seq<Step>, n: nat, i: nat, j: nat)
    requires hide *; Run(env, states, steps) && n < |states| && i < |states[n].sent| && j < |states[n].sent|
    ensures OnRecord(states[n], i)
    ensures states[n].sent[i].idempotencyKey == states[n].sent[j].idempotencyKey ==>
              states[n].sent[i] == states[n].sent[j]
  {
    hide Safe, Reads.ReadsInv, RenewalsPaid, ClaimsRun, DeliveriesFenced, Run;
    RunInv(env, states, steps, n);
    assert OnRecord(states[n], i) && OnRecord(states[n], j);
    var a :| SentBy(states[n], i, a);
    var b :| SentBy(states[n], j, b);
  }

  /** Everything sent charges the configured price of the subscription's plan, under the key made from the body's
      reference. */
  lemma SentAtPlanPrice(env: Environment, states: seq<System>, steps: seq<Step>, n: nat, i: nat, a: string)
    requires hide Leads; Run(env, states, steps) && n < |states| && SentBy(states[n], i, a)
    ensures var db, sent := states[n].db, states[n].sent[i];
            && db.attempts[a].ref in db.subs && db.subs[db.attempts[a].ref].planId in env.cfg.plans
            && var plan := env.cfg.plans[db.subs[db.attempts[a].ref].planId];
               sent.body.merchant == plan.merchant && sent.body.amount == plan.amount
               && sent.body.currency == plan.currency
               && sent.idempotencyKey == ChargeKey(sent.body.reference)
  {
    hide Run, Bound, LedgerInv, WorkersAgree, Reads.ReadsInv, RenewalsPaid, SentInv, UniqueKeys, ClaimsRun,
         DeliveriesFenced;
    hide GoodSubs, GoodActions, TruthfulAttempts, RefusedBefore, Numbered, WorkingAttempts, OnTarget, NotAhead,
         Renewing, Counted;
    RunInv(env, states, steps, n);
    var t := states[n].db.attempts[a];
    assert Belongs(t, states[n].db.actions[t.actionId]) && PricedFor(env, states[n].db, t);
  }

  /** A prepared request is never changed, nor, once it was submitted, the time and the deadline fixed at that
      moment. */
  lemma RequestsStay(env: Environment, states: seq<System>, steps: seq<Step>, m: nat, n: nat, id: string)
    requires hide *; Run(env, states, steps) && m <= n < |states| && id in states[m].db.attempts
    ensures id in states[n].db.attempts
    ensures var t, u := states[m].db.attempts[id], states[n].db.attempts[id];
            && SameAttempt(t, u) && (t.status.Authorized? ==> u.status.Authorized?)
            && (t.firstSubmittedAt.Some? ==>
                  u.firstSubmittedAt == t.firstSubmittedAt && u.resolutionDeadline == t.resolutionDeadline)
  {
    hide Run, ActionsGrow, OutboxGrows, LeasesGrow, ProcsGrow;
    RunGrows(env, states, steps, m, n);
  }

  /** Dunning is bounded: attempts of a renewal are numbered from 1 without gaps or repetition, up to the number of
      delays. */
  lemma DunningBounded(env: Environment, states: seq<System>, steps: seq<Step>, n: nat, id: string, k: int)
    requires hide *; Run(env, states, steps) && n < |states| && id in states[n].db.attempts
             && 1 <= k <= states[n].db.attempts[id].number
    ensures states[n].db.attempts[id].number <= MaxAttempts(env.cfg)
    ensures exists p :: NumberOf(states[n].db, states[n].db.attempts[id].actionId, k, p)
    ensures var db, actionId := states[n].db, states[n].db.attempts[id].actionId;
            forall p, q :: NumberOf(db, actionId, k, p) && NumberOf(db, actionId, k, q) ==> p == q
  {
    hide GoodSubs, GoodActions, GoodAttempts, TruthfulAttempts, WorkingAttempts, OnTarget, NotAhead, Renewing, Counted,
         Bound, LedgerInv, WorkersAgree, Reads.ReadsInv, RenewalsPaid, SentInv, UniqueKeys, ClaimsRun, DeliveriesFenced,
         Run;
    RunInv(env, states, steps, n);
    EarlierNumber(env, states[n].db, id, k);
  }

  ghost predicate NumberOf(s: Store, actionId: string, k: int, id: string) {
    id in s.attempts && s.attempts[id].actionId == actionId && s.attempts[id].number == k
  }

  lemma {:induction false} EarlierNumber(env: Environment, s: Store, id: string, k: int)
    requires Numbered(env, s) && id in s.attempts && 1 <= k <= s.attempts[id].number
    ensures exists p :: NumberOf(s, s.attempts[id].actionId, k, p)
    decreases s.attempts[id].number - k
  {
    if k == s.attempts[id].number {
      assert NumberOf(s, s.attempts[id].actionId, k, id);
    } else {
      var p :| Precedes(s, p, id);
      EarlierNumber(env, s, p, k);
    }
  }

  /** A new attempt is prepared only after every earlier one was refused, with a code that may be retried and before the
      delays ran out. */
  lemma DunningOrder(env: Environment, states: seq<System>, steps: seq<Step>, n: nat, id: string)
    requires hide Leads; Run(env, states, steps) && n < |steps| && steps[n].PrepareStep? && steps[n].choice.Anew?
    requires id in states[n].db.attempts && states[n].db.attempts[id].actionId == steps[n].id
    ensures var t := states[n].db.attempts[id];
            && t.status.Refused? && !Authorises(env, t) && t.number < steps[n].choice.number
            && t.number < |env.cfg.retryDelays| && RetryableCode(t.refusalCode)
  {
    hide Run, ChargeInv, Bound, LedgerInv, WorkersAgree, Reads.ReadsInv, RenewalsPaid, SentInv, UniqueKeys, ClaimsRun,
         DeliveriesFenced, Enabled, Next, RetryableCode, NoneWith, NextNumber;
    RunStep(env, states, steps, n);
    PreparingAnew(env, states[n], steps[n]);
    RunInv(env, states, steps, n);
    EarlierRefused(env, states[n].db, steps[n].id, id, steps[n].choice.number);
  }

  lemma PreparingAnew(env: Environment, sys: System, step: Step)
    requires Enabled(env, sys, step) && step.PrepareStep? && step.choice.Anew?
    ensures step.id in sys.db.actions && Claimable(sys.db.actions[step.id].status)
    ensures NoneWith(sys.db, step.id, IsOpen) && NextNumber(sys.db, step.id, step.choice.number)
  {
    hide NoneWith, NextNumber;
    PickedAction(sys.db, step.now, ActionStatus.Pending, Renew, step.id);
  }

  lemma EarlierRefused(env: Environment, s: Store, actionId: string, id: string, number: int)
    requires ChargeInv(env, s, None) && actionId in s.actions && Claimable(s.actions[actionId].status)
    requires NoneWith(s, actionId, IsOpen) && NextNumber(s, actionId, number) && id in s.attempts
             && s.attempts[id].actionId == actionId
    ensures var t := s.attempts[id];
            && t.status.Refused? && !Authorises(env, t) && t.number < number && t.number < |env.cfg.retryDelays|
               && RetryableCode(t.refusalCode)
  {
    hide GoodSubs, GoodActions, GoodAttempts, RefusedBefore, Numbered, Priced, OnTarget, NotAhead, Renewing, Counted,
         RetryableCode;
    assert Working(env.cfg, s.attempts[id]) && Truthful(env, s.attempts[id]);
  }

  // ---------- what is to be done next ----------

  /** A renewal that can be claimed, for the period after the current one. */
  ghost predicate NextRenewal(s: Store, ref: string, id: string) {
    RenewalWaiting(s, ref, id) && ref in s.subs && s.actions[id].target == s.subs[ref].periodEnd
  }

  /** The right next action: an active Adyen subscription has exactly one renewal that can be claimed, and it is for the
      period after the current one; no subscription ever has two. */
  lemma RightNextAction(env: Environment, states: seq<System>, steps: seq<Step>, n: nat, ref: string)
    requires hide *; Run(env, states, steps) && n < |states| && ref in states[n].db.subs
    ensures states[n].db.subs[ref].family == Adyen && states[n].db.subs[ref].status == Status.Active ==>
              exists id :: NextRenewal(states[n].db, ref, id)
    ensures forall i, j :: RenewalWaiting(states[n].db, ref, i) && RenewalWaiting(states[n].db, ref, j) ==> i == j
    ensures forall id :: RenewalWaiting(states[n].db, ref, id) ==> NextRenewal(states[n].db, ref, id)
  {
    hide Bound, LedgerInv, WorkersAgree, Reads.ReadsInv, RenewalsPaid, SentInv, UniqueKeys, ClaimsRun, DeliveriesFenced,
         Run;
    hide GoodSubs, GoodAttempts, TruthfulAttempts, RefusedBefore, Numbered, Priced, WorkingAttempts, NotAhead, Counted;
    RunInv(env, states, steps, n);
    var s := states[n].db;
    assert forall id :: RenewalWaiting(s, ref, id) ==> NextRenewal(s, ref, id);
    assert !Concerns(s, None, ref);
    if s.subs[ref].family == Adyen && s.subs[ref].status == Status.Active {
      var id :| RenewalWaiting(s, ref, id);
      assert NextRenewal(s, ref, id);
    }
  }

  /** The bookkeeping fields of every stored subscription follow its status. */
  lemma BookkeepingFollowsStatus(env: Environment, states: seq<System>, steps: seq<Step>, n: nat, ref: string)
    requires hide *; Run(env, states, steps) && n < |states| && ref in states[n].db.subs
    ensures var sub := states[n].db.subs[ref];
            && sub.version >= 1 && sub.periodStart < sub.periodEnd && !sub.status.Other?
            && (sub.cancelAtPeriodEnd <==> sub.status.Canceled?)
            && (sub.status.PastDue? ==> sub.pastDueSince.Some?)
            && (sub.status.Canceled? ==> sub.canceledAt == Some(sub.stateChangedAt))
            && (sub.status.Active? || sub.status.Trialing? ==>
                  sub.pastDueSince.None? && sub.canceledAt.None? && !sub.chargingBlocked)
            && (sub.chargingBlocked <==> sub.blockReason.Some?)
  {
    hide ChargeInv, Bound, LedgerInv, WorkersAgree, Reads.ReadsInv, RenewalsPaid, SentInv, UniqueKeys, ClaimsRun,
         DeliveriesFenced, Run;
    RunInv(env, states, steps, n);
    GoodRows(env, states[n].db);
  }

  // ---------- the outbox ----------

  /** Outbox and state agree: a subscription's events are exactly its versions, each once, and the latest one says what
      reconciliation answers, which is a valid snapshot. */
  lemma OutboxAgrees(env: Environment, states: seq<System>, steps: seq<Step>, n: nat, ref: string)
    requires hide Leads; Run(env, states, steps) && n < |states| && ref in states[n].db.subs
    ensures forall v :: (1 <= v <= states[n].db.subs[ref].version) <==> HasVersion(states[n].db, ref, v)
    ensures forall v, i, j :: IsVersion(states[n].db, ref, v, i) && IsVersion(states[n].db, ref, v, j) ==> i == j
    ensures forall id :: IsVersion(states[n].db, ref, states[n].db.subs[ref].version, id) ==>
              SnapshotFromCallback(states[n].db.outbound[id].payload) == SnapshotOf(states[n].db.subs[ref])
    ensures ValidateSnapshot(SnapshotOf(states[n].db.subs[ref])).Success?
  {
    hide Run, Bound, ChargeInv, RenewalsPaid, Story, SnapshotOf, SnapshotFromCallback, ValidateSnapshot;
    RunLedger(env, states, steps, n);
    GoodRows(env, states[n].db);
    var s := states[n].db;
    forall v | HasVersion(s, ref, v) ensures 1 <= v <= s.subs[ref].version {
      var id :| IsVersion(s, ref, v, id);
      VersionReached(s, ref, v, id);
    }
    assert HasVersion(s, ref, s.subs[ref].version);
    var id :| IsVersion(s, ref, s.subs[ref].version, id);
    LatestValid(s, ref, id);
  }

  lemma LatestValid(s: Store, ref: string, id: string)
    requires GoodOutbox(s) && UpToDate(s) && ref in s.subs && IsVersion(s, ref, s.subs[ref].version, id)
    ensures ValidateSnapshot(SnapshotOf(s.subs[ref])).Success?
  {
    hide ValidateSnapshot, ValidateCallback, SnapshotOf;
    assert GoodEvent(s, id);
    CallbackSnapshotValid(s.outbound[id].payload);
  }

  /** The latest event tells everything about its subscription: who it is, where it stands, for which period, and since
      when. */
  lemma LatestTells(env: Environment, states: seq<System>, steps: seq<Step>, n: nat, ref: string, id: string)
    requires hide Leads; Run(env, states, steps) && n < |states| && ref in states[n].db.subs
             && IsVersion(states[n].db, ref, states[n].db.subs[ref].version, id)
    ensures var sub, c := states[n].db.subs[ref], states[n].db.outbound[id].payload;
            && c.subscriptionRef == ref && c.checkoutId == sub.checkoutId && c.planId == sub.planId
            && c.stateVersion == sub.version && c.status == sub.status && c.cancelAtPeriodEnd == sub.cancelAtPeriodEnd
            && c.eventId == id && c.eventType == states[n].db.outbound[id].eventType
            && ParseTime(c.periodStart) == Success(sub.periodStart)
            && ParseTime(c.periodEnd) == Success(sub.periodEnd)
            && ParseTime(c.stateChangedAt) == Success(sub.stateChangedAt)
  {
    hide Run, Bound, ChargeInv, RenewalsPaid, Story, SnapshotOf, SnapshotFromCallback, ValidateSnapshot, GoodOutbox,
         GoodSubs;
    RunLedger(env, states, steps, n);
    ChargeSteps.Basics(env, states[n].db, None);
    LedgerOutbox(states[n].db);
    EventTells(states[n].db, ref, id);
  }

  lemma EventTells(s: Store, ref: string, id: string)
    requires GoodOutbox(s) && UpToDate(s) && GoodSubs(s) && ref in s.subs && IsVersion(s, ref, s.subs[ref].version, id)
    ensures var sub, c := s.subs[ref], s.outbound[id].payload;
            && c.subscriptionRef == ref && c.checkoutId == sub.checkoutId && c.planId == sub.planId
            && c.stateVersion == sub.version && c.status == sub.status && c.cancelAtPeriodEnd == sub.cancelAtPeriodEnd
            && c.eventId == id && c.eventType == s.outbound[id].eventType
            && ParseTime(c.periodStart) == Success(sub.periodStart)
            && ParseTime(c.periodEnd) == Success(sub.periodEnd)
            && ParseTime(c.stateChangedAt) == Success(sub.stateChangedAt)
  {
    hide T.FormatUTC, T.ParseUTC, ValidOpaqueId, ValidPlanId, GoodRow;
    assert GoodEvent(s, id);
    var sub := s.subs[ref];
    assert sub.ref == ref;
    ChargeSteps.ParseFormatted(sub.periodStart);
    ChargeSteps.ParseFormatted(sub.periodEnd);
    ChargeSteps.ParseFormatted(sub.stateChangedAt);
  }

  /** A step changes what the consumer sees of a subscription if and only if it raises its version, and then by one; the
      other subscriptions stay as they are. */
  lemma VersionTellsChange(env: Environment, states: seq<System>, steps: seq<Step>, n: nat, ref: string)
    requires hide Leads; Run(env, states, steps) && n < |steps| && ref in states[n].db.subs
    ensures ref in states[n + 1].db.subs
    ensures var a, b := states[n].db.subs[ref], states[n + 1].db.subs[ref];
            && SameIdentity(a, b)
            && (b.version == a.version || b.version == a.version + 1)
            && (b.version == a.version <==> ContentOf(a) == ContentOf(b))
            && (b.version == a.version ==> a.stateChangedAt == b.stateChangedAt)
            && (a.status == Status.Expired ==> b.version == a.version)
  {
    hide Run, Enabled, Safe, DbAfter, WorkersAfter, ReadsAfter, SentAfter, Grows, Reads.ReadsInv, RenewalsPaid, SentInv,
         UniqueKeys, ClaimsRun, DeliveriesFenced;
    RunStep(env, states, steps, n);
    RunInv(env, states, steps, n);
    StepProgress(env, states[n], steps[n]);
    var s, s' := states[n].db, states[n + 1].db;
    var w :| Booked(s, s', w);
    RowChange(s, s', w, ref);
  }

  lemma RowChange(s: Store, s': Store, w: Written, ref: string)
    requires Booked(s, s', w) && ref in s.subs
    ensures ref in s'.subs
    ensures var a, b := s.subs[ref], s'.subs[ref];
            && SameIdentity(a, b) && (b.version == a.version || b.version == a.version + 1)
            && (b.version == a.version <==> ContentOf(a) == ContentOf(b))
            && (b.version == a.version ==> a.stateChangedAt == b.stateChangedAt)
            && (a.status == Status.Expired ==> b.version == a.version)
  {
    hide OneEvent, EventsKept, CheckoutsKept, Backed, GoodRow, Tiles, ContentOf;
  }

  /** The language of events: the first event and only the first is an activation, every other event may follow the
      status that the event before it left, and nothing follows an expiry. */
  lemma EventLanguage(env: Environment, states: seq<System>, steps: seq<Step>, n: nat, ref: string, v: int, i: string)
    requires hide Leads; Run(env, states, steps) && n < |states| && IsVersion(states[n].db, ref, v, i)
    ensures states[n].db.outbound[i].eventType == Activated <==> v == 1
    ensures states[n].db.outbound[i].eventType == WasExpired ==>
              ref in states[n].db.subs && v == states[n].db.subs[ref].version
    ensures forall j :: IsVersion(states[n].db, ref, v + 1, j) ==>
              MayFollow(states[n].db.outbound[i].payload.status, states[n].db.outbound[j].eventType)
    ensures v > 1 ==> states[n].db.outbound[i].payload.status == StatusAfter(states[n].db.outbound[i].eventType)
  {
    hide Run, Bound, ChargeInv, RenewalsPaid, UpToDate, ValidateCallback, T.FormatUTC;
    RunLedger(env, states, steps, n);
    var s := states[n].db;
    VersionReached(s, ref, v, i);
    assert GoodEvent(s, i);
    if v > 1 {
      assert HasVersion(s, ref, v - 1);
      var p :| IsVersion(s, ref, v - 1, p);
      assert Follows(s.subs[ref].family, s.outbound[p].payload, s.outbound[i].payload);
    }
    forall j | IsVersion(s, ref, v + 1, j)
      ensures GoodEvent(s, j) && Follows(s.subs[ref].family, s.outbound[i].payload, s.outbound[j].payload)
    {
      VersionReached(s, ref, v + 1, j);
    }
    if v < s.subs[ref].version {
      assert HasVersion(s, ref, v + 1);
      var j :| IsVersion(s, ref, v + 1, j);
      assert v == 1 ==> Opens(s.subs[ref].family, s.outbound[i].payload);
    }
  }

  /** Adyen billing periods tile time: a renewal starts exactly where the period before it ended and lasts one calendar
      month, and no other event moves the period. */
  lemma PeriodsTile(env: Environment, states: seq<System>, steps: seq<Step>, n: nat, ref: string, v: int, i: string,
          j: string)
    requires hide Leads; Run(env, states, steps) && n < |states| && ref in states[n].db.subs
             && states[n].db.subs[ref].family == Adyen
    requires IsVersion(states[n].db, ref, v, i) && IsVersion(states[n].db, ref, v + 1, j)
    ensures var a, b := states[n].db.outbound[i].payload, states[n].db.outbound[j].payload;
            if states[n].db.outbound[j].eventType == Renewed
            then (exists t :: a.periodEnd == T.FormatUTC(t) && IsMonth(b, t)) && PaidFor(states[n].db, ref, b)
            else a.periodStart == b.periodStart && a.periodEnd == b.periodEnd
  {
    hide Run, Bound, ChargeInv, UpToDate, ValidateCallback, Complete, Unique, T.FormatUTC, PaidFor;
    RunLedger(env, states, steps, n);
    assert GoodEvent(states[n].db, j);
    assert NeedsPayment(states[n].db, states[n].db.outbound[j]) <==> states[n].db.outbound[j].eventType == Renewed;
  }

  /** When the period of a callback ends. */
  function PeriodEnd(c: Callback): Instant
    requires ParseTime(c.periodEnd).Success?
  {
    ParseTime(c.periodEnd).value
  }

  /** What a stored callback says about its period can be read, and is in order. */
  lemma ReadablePeriod(s: Store, ref: string, v: int, id: string)
    requires GoodOutbox(s) && IsVersion(s, ref, v, id)
    ensures var c := s.outbound[id].payload;
            ParseTime(c.periodStart).Success? && ParseTime(c.periodEnd).Success?
            && ParseTime(c.periodStart).value < PeriodEnd(c)
  {
    hide T.ParseUTC, ValidOpaqueId, ValidPlanId;
    assert GoodEvent(s, id);
  }

  lemma PeriodNext(env: Environment, states: seq<System>, steps: seq<Step>, n: nat, ref: string, v: int, i: string,
          j: string)
    requires hide Leads; Run(env, states, steps) && n < |states| && ref in states[n].db.subs
             && states[n].db.subs[ref].family == Adyen
    requires IsVersion(states[n].db, ref, v, i) && IsVersion(states[n].db, ref, v + 1, j)
    ensures var a, b := states[n].db.outbound[i].payload, states[n].db.outbound[j].payload;
            && ParseTime(a.periodEnd).Success? && ParseTime(b.periodEnd).Success? && ParseTime(b.periodStart).Success?
            && if states[n].db.outbound[j].eventType == Renewed
               then ParseTime(b.periodStart).value == PeriodEnd(a) < PeriodEnd(b) else PeriodEnd(b) == PeriodEnd(a)
  {
    hide Run, ParseTime, LedgerInv, Bound, ChargeInv, RenewalsPaid, PaidFor, GoodOutbox;
    RunLedger(env, states, steps, n);
    LedgerOutbox(states[n].db);
    PeriodsTile(env, states, steps, n, ref, v, i, j);
    ReadablePeriod(states[n].db, ref, v, i);
    ReadablePeriod(states[n].db, ref, v + 1, j);
  }

  lemma LedgerOutbox(s: Store)
    requires LedgerInv(s)
    ensures GoodOutbox(s) && Complete(s)
  {
    hide GoodOutbox, Complete;
  }

  /** Boundaries never move back, however many events lie between two callbacks; a renewal never overlaps an earlier
      period. */
  lemma {:induction false} BoundariesIncrease(env: Environment, states: seq<System>, steps: seq<Step>, n: nat,
          ref: string, v: int, w: int, i: string, j: string)
    requires hide Leads; Run(env, states, steps) && n < |states| && ref in states[n].db.subs
             && states[n].db.subs[ref].family == Adyen
    requires v < w && IsVersion(states[n].db, ref, v, i) && IsVersion(states[n].db, ref, w, j)
    ensures var a, b := states[n].db.outbound[i].payload, states[n].db.outbound[j].payload;
            && ParseTime(a.periodEnd).Success? && ParseTime(b.periodEnd).Success? && ParseTime(b.periodStart).Success?
            && PeriodEnd(a) <= PeriodEnd(b)
            && (states[n].db.outbound[j].eventType == Renewed ==> PeriodEnd(a) <= ParseTime(b.periodStart).value)
    decreases w - v
  {
    hide Run, ParseTime, LedgerInv, Bound, ChargeInv, RenewalsPaid, GoodOutbox;
    if w == v + 1 {
      PeriodNext(env, states, steps, n, ref, v, i, j);
    } else {
      var p := VersionBefore(env, states, steps, n, ref, v, w, i, j);
      BoundariesIncrease(env, states, steps, n, ref, v, w - 1, i, p);
      PeriodNext(env, states, steps, n, ref, w - 1, p, j);
    }
  }

  /** Each attempt moves the period at most once: two renewals of one subscription are backed by different attempts. */
  lemma AttemptRenewsOnce(env: Environment, states: seq<System>, steps: seq<Step>, n: nat, ref: string, v: int, w: int,
          i: string, j: string, t: string)
    requires hide Leads; Run(env, states, steps) && n < |states| && ref in states[n].db.subs
             && states[n].db.subs[ref].family == Adyen
    requires IsVersion(states[n].db, ref, v, i) && IsVersion(states[n].db, ref, w, j)
    requires states[n].db.outbound[i].eventType == Renewed && states[n].db.outbound[j].eventType == Renewed
    requires PaysMonth(states[n].db, t, ref, states[n].db.outbound[i].payload)
             && PaysMonth(states[n].db, t, ref, states[n].db.outbound[j].payload)
    ensures v == w && i == j
  {
    hide Run, ParseTime, LedgerInv, Bound, ChargeInv, RenewalsPaid, GoodOutbox, SnapshotOf, SnapshotFromCallback,
         ValidateSnapshot;
    RunLedger(env, states, steps, n);
    LedgerOutbox(states[n].db);
    ReadablePeriod(states[n].db, ref, v, i);
    ReadablePeriod(states[n].db, ref, w, j);
    OutboxAgrees(env, states, steps, n, ref);
    if v < w {
      BoundariesIncrease(env, states, steps, n, ref, v, w, i, j);
    } else if w < v {
      BoundariesIncrease(env, states, steps, n, ref, w, v, j, i);
    }
  }

  lemma VersionBefore(env: Environment, states: seq<System>, steps: seq<Step>, n: nat, ref: string, v: int, w: int,
          i: string, j: string) returns (p: string)
    requires hide *; Run(env, states, steps) && n < |states| && ref in states[n].db.subs
    requires v < w - 1 && IsVersion(states[n].db, ref, v, i) && IsVersion(states[n].db, ref, w, j)
    ensures IsVersion(states[n].db, ref, w - 1, p)
  {
    hide Run, LedgerInv, Bound, ChargeInv, RenewalsPaid, GoodOutbox;
    RunLedger(env, states, steps, n);
    LedgerOutbox(states[n].db);
    VersionReached(states[n].db, ref, v, i);
    VersionReached(states[n].db, ref, w, j);
    assert HasVersion(states[n].db, ref, w - 1);
    p :| IsVersion(states[n].db, ref, w - 1, p);
  }

  /** While an Adyen subscription is active, the attempts on record as authorised are exactly those that the provider
      authorises for months before the end of the current period: no payment is left without service. */
  lemma PaidMonthsServed(env: Environment, states: seq<System>, steps: seq<Step>, n: nat, id: string)
    requires hide *; Run(env, states, steps) && n < |states| && id in states[n].db.attempts
    requires var ref := states[n].db.attempts[id].ref;
             ref in states[n].db.subs && states[n].db.subs[ref].family == Adyen
             && states[n].db.subs[ref].status == Status.Active
    ensures var t := states[n].db.attempts[id];
            t.status.Authorized? <==> Authorises(env, t) && t.periodStart < states[n].db.subs[t.ref].periodEnd
  {
    hide Run, LedgerInv, Bound, ChargeInv, RenewalsPaid;
    RunLedger(env, states, steps, n);
    PaidServed(env, states[n].db, id);
  }

  lemma PaidServed(env: Environment, s: Store, id: string)
    requires ChargeInv(env, s, None) && id in s.attempts
    requires var ref := s.attempts[id].ref;
             ref in s.subs && s.subs[ref].family == Adyen && s.subs[ref].status == Status.Active
    ensures var t := s.attempts[id];
            t.status.Authorized? <==> Authorises(env, t) && t.periodStart < s.subs[t.ref].periodEnd
  {
    hide GoodSubs, GoodAttempts, TruthfulAttempts, RefusedBefore, Numbered, WorkingAttempts, NotAhead, Counted, Priced,
         Authorises, Belongs;
    var t := s.attempts[id];
    AttemptFacts(env, s, id);
    assert !Concerns(s, None, t.ref);
    var x :| RenewalWaiting(s, t.ref, x);
    RenewalAhead(s, t, x);
  }

  lemma AttemptFacts(env: Environment, s: Store, id: string)
    requires ChargeInv(env, s, None) && id in s.attempts
    ensures hide *; var t := s.attempts[id];
            && t.actionId in s.actions && Belongs(t, s.actions[t.actionId]) && t.ref in s.subs
               && t.periodStart <= s.subs[t.ref].periodEnd
            && (t.status.Authorized? ==> Authorises(env, t) && !Claimable(s.actions[t.actionId].status))
            && (Authorises(env, t) && t.periodStart < s.subs[t.ref].periodEnd ==> t.status.Authorized?)
  {
    hide GoodSubs, GoodActions, GoodAttempts, TruthfulAttempts, RefusedBefore, Numbered, WorkingAttempts, OnTarget,
         NotAhead, Renewing, Counted, Priced;
    AttemptPlaced(s, id);
    AttemptRecorded(env, s, id);
  }

  lemma AttemptPlaced(s: Store, id: string)
    requires GoodActions(s) && GoodAttempts(s) && NotAhead(s) && id in s.attempts
    ensures var t := s.attempts[id];
            && t.actionId in s.actions && Belongs(t, s.actions[t.actionId]) && t.ref in s.subs
               && t.periodStart <= s.subs[t.ref].periodEnd
  {
    assert Belongs(s.attempts[id], s.actions[s.attempts[id].actionId]);
  }

  lemma AttemptRecorded(env: Environment, s: Store, id: string)
    requires TruthfulAttempts(env, s) && WorkingAttempts(env, s, None) && Counted(env, s)
             && id in s.attempts && s.attempts[id].ref in s.subs && s.attempts[id].actionId in s.actions
    ensures var t := s.attempts[id];
            && (t.status.Authorized? ==> Authorises(env, t) && !Claimable(s.actions[t.actionId].status))
            && (Authorises(env, t) && t.periodStart < s.subs[t.ref].periodEnd ==> t.status.Authorized?)
  {
    assert Truthful(env, s.attempts[id]);
  }

  /** A waiting renewal for an attempt's month is the action of that attempt. */
  lemma RenewalAhead(s: Store, t: ChargeAttempt, x: string)
    requires GoodActions(s) && OnTarget(s, None) && RenewalWaiting(s, t.ref, x) && t.actionId in s.actions
             && Belongs(t, s.actions[t.actionId])
    ensures t.ref in s.subs && (t.periodStart == s.subs[t.ref].periodEnd ==> x == t.actionId)
  {
  }

  // ---------- checkouts and reads ----------

  /** Checkouts and subscriptions correspond one to one, and a checkout once bound stays bound to the same
      subscription. */
  lemma CheckoutsStayBound(env: Environment, states: seq<System>, steps: seq<Step>, n: nat, ref: string, id: string)
    requires Run(env, states, steps) && n < |states|
    ensures hide *; ref in states[n].db.subs ==> var c := states[n].db.subs[ref].checkoutId;
              c in states[n].db.checkouts && states[n].db.checkouts[c].subscriptionRef == Some(ref)
    ensures ref in states[n].db.subs && id in states[n].db.checkouts ==>
              (states[n].db.subs[ref].checkoutId == id <==> states[n].db.checkouts[id].subscriptionRef == Some(ref))
    ensures ref in states[n].db.subs ==>
              forall other :: other in states[n].db.subs && other != ref ==>
                states[n].db.subs[other].checkoutId != states[n].db.subs[ref].checkoutId
    ensures n < |steps| && id in states[n].db.checkouts && states[n].db.checkouts[id].subscriptionRef.Some? ==>
              n + 1 < |states| && id in states[n + 1].db.checkouts
              && states[n + 1].db.checkouts[id].subscriptionRef == states[n].db.checkouts[id].subscriptionRef
  {
    hide Run, LedgerInv, ChargeInv, RenewalsPaid, Bound, Balanced, Grows, Enabled, DbAfter, WorkersAfter, ReadsAfter,
         SentAfter, Safe, Reads.ReadsInv, SentInv, UniqueKeys, ClaimsRun, DeliveriesFenced;
    RunLedger(env, states, steps, n);
    BoundNames(states[n].db, ref, id);
    if n < |steps| && id in states[n].db.checkouts && states[n].db.checkouts[id].subscriptionRef.Some? {
      RunStep(env, states, steps, n);
      RunInv(env, states, steps, n);
      StepProgress(env, states[n], steps[n]);
      BindingStays(states[n].db, states[n + 1].db, id);
    }
  }

  lemma BoundNames(s: Store, ref: string, id: string)
    requires Bound(s)
    ensures ref in s.subs ==>
              s.subs[ref].checkoutId in s.checkouts && s.checkouts[s.subs[ref].checkoutId].subscriptionRef == Some(ref)
    ensures ref in s.subs && id in s.checkouts ==>
              (s.subs[ref].checkoutId == id <==> s.checkouts[id].subscriptionRef == Some(ref))
    ensures ref in s.subs ==> forall other :: other in s.subs && other != ref ==>
              s.subs[other].checkoutId != s.subs[ref].checkoutId
  {
    if ref in s.subs {
      assert Names(s, s.subs[ref].checkoutId, ref);
      OneToOne(s, ref, s.subs[ref].checkoutId);
      if id in s.checkouts { OneToOne(s, ref, id); }
    }
  }

  /** Provider reads are linearised: commits under one processing key carry strictly rising fences, and the state that
      each applied was fetched after the commit before it. */
  lemma ReadsLinear(env: Environment, states: seq<System>, steps: seq<Step>, n: nat, i: nat, j: nat)
    requires hide *; Run(env, states, steps) && n < |states| && i < j < |states[n].readLog|
             && states[n].readLog[i].key == states[n].readLog[j].key
    ensures states[n].readLog[i].fence < states[n].readLog[j].fence
    ensures states[n].readLog[i].fetchedAt < states[n].readLog[i].committedAt < states[n].readLog[j].fetchedAt
  {
    hide Run, Safe, RenewalsPaid, SentInv, UniqueKeys, ClaimsRun, DeliveriesFenced;
    RunInv(env, states, steps, n);
  }

  /** A checkout that names a subscription names it in every later state. */
  lemma {:induction false} BindingForever(env: Environment, states: seq<System>, steps: seq<Step>, m: nat, n: nat,
          id: string)
    requires hide *; Run(env, states, steps) && m <= n < |states| && id in states[m].db.checkouts
             && states[m].db.checkouts[id].subscriptionRef.Some?
    ensures id in states[n].db.checkouts
            && states[n].db.checkouts[id].subscriptionRef == states[m].db.checkouts[id].subscriptionRef
    decreases n
  {
    hide Enabled, Next, Leads;
    if m < n {
      BindingForever(env, states, steps, m, n - 1, id);
      CheckoutsStayBound(env, states, steps, n - 1, "", id);
    }
  }
}
