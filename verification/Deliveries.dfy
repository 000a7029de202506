/**
 * What becomes of an outbound event, over every run: which answer of the consumer delivers it, has it tried again or
 * gives it up, that no event is forgotten, and that none is sent again before its time.
 */
module Deliveries {
  import opened Wrappers
  import opened Calendar
  import opened Protocol
  import opened Model
  import opened Engine
  import opened System
  import opened Books
  import opened Growth
  import opened StepSafety
  import opened Arrivals
  import opened Runs
  import opened Claims
  import opened Endings
  import opened DueTimes
  import Bindings
  import ChargeSafety
  import Ledger
  import Notify

  // ---------- answers ----------

  /** The consumer has accepted the event. */
  predicate Confirms(response: Notify.Response) {
    response.Code? && 200 <= response.code <= 299
  }

  /** The consumer will not accept the event, however often it is sent. */
  predicate Rejects(response: Notify.Response) {
    response.Code? && 400 <= response.code <= 499 && response.code != 408 && response.code != 425
    && response.code != 429
  }

  /** What the answer makes of an event that was sent under its current claim. */
  predicate Answered(e: OutboundEvent, f: OutboundEvent, response: Notify.Response, now: Instant, next: Instant) {
    && SameEvent(e, f) && f.claim == Claim(None, e.claim.fence, None) && f.attemptCount == e.attemptCount + 1
    && (if Confirms(response) then f.state.Delivered? && f.deliveredAt == Some(now) && f.nextAttemptAt.None?
        else if Rejects(response) then f.state.DeadLettered? && f.deadLetteredAt == Some(now) && f.nextAttemptAt.None?
        else f.state.Pending? && f.nextAttemptAt == Some(next))
  }

  /** A delivery is under way, under a claim that still holds. */
  predicate UnderWay(s: Store, id: string, token: string, fence: int) {
    id in s.outbound && s.outbound[id].state.Pending? && s.outbound[id].claim.token == Some(token)
    && s.outbound[id].claim.fence == fence
  }

  lemma ResponseOutcome(s: Store, e: OutboundEvent, token: string, response: Notify.Response, now: Instant,
          next: Instant)
    requires e.id in s.outbound
    ensures var s' := KeptStore(s, Notify.RecordResponse(s, e, token, response, now, next));
            if UnderWay(s, e.id, token, e.claim.fence)
            then e.id in s'.outbound && s' == s.(outbound := s.outbound[e.id := s'.outbound[e.id]])
                 && Answered(s.outbound[e.id], s'.outbound[e.id], response, now, next)
            else s' == s
  {
    hide Notify.StatusClass, CompleteOutbound, RetryOutbound, DeadLetterOutbound, SameEvent;
    ReportOutcomes(s, e.id, token, e.claim.fence, now, next, "network");
    if response.Code? {
      ReportOutcomes(s, e.id, token, e.claim.fence, now, next, Notify.StatusClass(response.code));
    }
  }

  /** The three reports under a claim that holds; under another they fail. */
  lemma ReportOutcomes(s: Store, id: string, token: string, fence: int, now: Instant, next: Instant, class_: string)
    requires id in s.outbound
    ensures var c, r, d := CompleteOutbound(s, id, token, fence, now), RetryOutbound(s, id, token, fence, next, class_),
            DeadLetterOutbound(s, id, token, fence, now, class_);
            if UnderWay(s, id, token, fence)
            then c.Success? && r.Success? && d.Success?
                 && Moved(s, c.value, id) && c.value.outbound[id].state.Delivered?
                 && c.value.outbound[id].deliveredAt == Some(now) && c.value.outbound[id].nextAttemptAt.None?
                 && Moved(s, r.value, id) && r.value.outbound[id].state.Pending?
                 && r.value.outbound[id].nextAttemptAt == Some(next)
                 && Moved(s, d.value, id) && d.value.outbound[id].state.DeadLettered?
                 && d.value.outbound[id].deadLetteredAt == Some(now) && d.value.outbound[id].nextAttemptAt.None?
            else c == Failure(Error.NotOwned) && r == Failure(Error.NotOwned) && d == Failure(Error.NotOwned)
  {
  }

  /** One event has been reported on, and its claim given back. */
  predicate Moved(s: Store, s': Store, id: string) {
    && id in s.outbound && id in s'.outbound && s' == s.(outbound := s.outbound[id := s'.outbound[id]])
    && SameEvent(s.outbound[id], s'.outbound[id])
       && s'.outbound[id].claim == Claim(None, s.outbound[id].claim.fence, None)
    && s'.outbound[id].attemptCount == s.outbound[id].attemptCount + 1
  }

  /** The worker of a record step and the event that it has sent. */
  ghost predicate Sends(sys: System, step: Step, id: string) {
    && step.RecordStep? && step.w in sys.workers && sys.workers[step.w].Delivering?
    && sys.workers[step.w].event.id == id
  }

  /** An answer delivers the event, has it tried again or gives it up, as the consumer has decided; the answer to a
      delivery whose claim was lost changes nothing. */
  lemma AnswerRecorded(env: Environment, states: seq<System>, steps: seq<Step>, n: nat, id: string)
    requires hide Leads; Run(env, states, steps) && n < |steps| && Sends(states[n], steps[n], id)
    ensures var s, s', k := states[n].db, states[n + 1].db, states[n].workers[steps[n].w];
            if UnderWay(s, id, k.token, k.event.claim.fence)
            then id in s'.outbound && Answered(s.outbound[id], s'.outbound[id], steps[n].response, steps[n].now,
                                               steps[n].next)
                 && s' == s.(outbound := s.outbound[id := s'.outbound[id]])
            else s' == s
  {
    hide Run, Safe, Enabled, DbAfter, WorkersAfter, ReadsAfter, SentAfter, ClaimsRun, Arrived, Answered, UnderWay;
    RunStep(env, states, steps, n);
    RunBasics(env, states, steps, n);
    StepAnswered(env, states[n], steps[n], id);
  }

  lemma StepAnswered(env: Environment, sys: System, step: Step, id: string)
    requires hide Safe, Enabled, DbAfter; Safe(env, sys) && Enabled(env, sys, step) && Sends(sys, step, id)
    ensures id in sys.db.outbound
    ensures var s, s' := sys.db, DbAfter(env, sys, step);
            && step.w in sys.workers && sys.workers[step.w].Delivering?
            && var k := sys.workers[step.w];
            if UnderWay(s, id, k.token, k.event.claim.fence)
            then id in s'.outbound && Answered(s.outbound[id], s'.outbound[id], step.response, step.now, step.next)
                 && s' == s.(outbound := s.outbound[id := s'.outbound[id]])
            else s' == s
  {
    hide ChargeSafety.ChargeInv, Bindings.Bound, Ledger.LedgerInv, Enabled, Notify.RecordResponse, Answered, UnderWay;
    assert Remembers(env, sys.db, sys.workers[step.w]);
    ResponseOutcome(sys.db, sys.workers[step.w].event, sys.workers[step.w].token, step.response, step.now, step.next);
  }

  // ---------- operators ----------

  /** Abandoning gives a waiting event up; nothing else is touched. */
  lemma AbandonOutcome(s: Store, id: string, reason: string, actor: string, now: Instant)
    ensures var s' := KeptStore(s, AbandonOutbound(s, id, reason, actor, now));
            if id in s.outbound && s.outbound[id].state.Pending?
            then id in s'.outbound && SameEvent(s.outbound[id], s'.outbound[id]) && s'.outbound[id].state.Abandoned?
                 && s'.outbound[id].abandonedAt == Some(now) && s'.outbound[id].nextAttemptAt.None?
                 && s'.outbound[id].claim == Claim(None, s.outbound[id].claim.fence, None)
                 && s' == s.(outbound := s.outbound[id := s'.outbound[id]], audits := s'.audits)
            else s' == s
  {
  }

  /** Requeuing has an event that was given up delivered again, at once; nothing else is touched. */
  lemma RequeueOutcome(s: Store, id: string, reason: string, actor: string, now: Instant)
    ensures var s' := KeptStore(s, RequeueOutbound(s, id, reason, actor, now));
            if id in s.outbound && (s.outbound[id].state.DeadLettered? || s.outbound[id].state.Abandoned?)
            then id in s'.outbound && SameEvent(s.outbound[id], s'.outbound[id]) && s'.outbound[id].state.Pending?
                 && s'.outbound[id].nextAttemptAt == Some(now) && s'.outbound[id].deadLetteredAt.None?
                 && s'.outbound[id].abandonedAt.None?
                 && s'.outbound[id].claim == Claim(None, s.outbound[id].claim.fence, None)
                 && s' == s.(outbound := s.outbound[id := s'.outbound[id]], audits := s'.audits)
            else s' == s
  {
  }

  /** Replaying has a given-up event delivered again, at once, leaves a waiting one as it is, and fails for others. */
  lemma ReplayOutcome(s: Store, id: string, reason: string, actor: string, now: Instant)
    ensures var r := ReplayLatest(s, id, reason, actor, now);
            && (r.Success? <==> id in s.outbound && !s.outbound[id].state.Delivered?)
            && (r.Success? && s.outbound[id].state.Pending? ==> r.value == s)
            && (r.Success? && !s.outbound[id].state.Pending? ==>
                  id in r.value.outbound && SameEvent(s.outbound[id], r.value.outbound[id])
                  && r.value.outbound[id].state.Pending? && r.value.outbound[id].nextAttemptAt == Some(now)
                  && r.value == s.(outbound := s.outbound[id := r.value.outbound[id]], audits := r.value.audits))
  {
  }

  // ---------- every event in every state ----------

  /** A waiting event has a time at which it is sent. */
  predicate Remembered(e: OutboundEvent) {
    e.state.Pending? ==> e.nextAttemptAt.Some?
  }

  /** What one step makes of an event: it stays remembered, and it becomes delivered by a confirmation only. */
  ghost predicate Honest(sys: System, s': Store, step: Step, id: string)
  {
    && (id in sys.db.outbound ==>
          id in s'.outbound && (Remembered(sys.db.outbound[id]) ==> Remembered(s'.outbound[id])))
    && (id !in sys.db.outbound && id in s'.outbound ==> Remembered(s'.outbound[id]))
    && (id in s'.outbound && s'.outbound[id].state.Delivered? ==>
          (id in sys.db.outbound && sys.db.outbound[id].state.Delivered?) || ConfirmedBy(sys, step, id))
  }

  ghost predicate ConfirmedBy(sys: System, step: Step, id: string) {
    && Sends(sys, step, id) && Confirms(step.response)
    && UnderWay(sys.db, id, sys.workers[step.w].token, sys.workers[step.w].event.claim.fence)
  }

  lemma RecordHonest(env: Environment, sys: System, step: Step, id: string)
    requires hide *; Safe(env, sys) && Enabled(env, sys, step) && step.RecordStep?
    ensures Honest(sys, DbAfter(env, sys, step), step, id)
  {
    hide Safe, Enabled, DbAfter, UnderWay;
    assert step.w in sys.workers && sys.workers[step.w].Delivering? by { RecordWorker(env, sys, step); }
    StepAnswered(env, sys, step, sys.workers[step.w].event.id);
  }

  lemma RecordWorker(env: Environment, sys: System, step: Step)
    requires Enabled(env, sys, step) && step.RecordStep?
    ensures step.w in sys.workers && sys.workers[step.w].Delivering?
  {
  }

  /** No event is added, forgotten or newly delivered. */
  ghost predicate Decent(s: Store, s': Store, id: string) {
    if id in s.outbound
    then id in s'.outbound && (Remembered(s.outbound[id]) ==> Remembered(s'.outbound[id]))
         && (s'.outbound[id].state.Delivered? ==> s.outbound[id].state.Delivered?)
    else id !in s'.outbound
  }

  lemma OperatorDecent(s: Store, x: string, reason: string, actor: string, now: Instant, id: string)
    ensures Decent(s, KeptStore(s, AbandonOutbound(s, x, reason, actor, now)), id)
    ensures Decent(s, KeptStore(s, RequeueOutbound(s, x, reason, actor, now)), id)
    ensures Decent(s, s, id)
  {
    hide AbandonOutbound, RequeueOutbound, SameEvent;
    AbandonOutcome(s, x, reason, actor, now);
    RequeueOutcome(s, x, reason, actor, now);
  }

  lemma OperatorStepDecent(env: Environment, sys: System, step: Step, id: string)
    requires hide *; Enabled(env, sys, step) && (step.AbandonStep? || step.RequeueStep? || step.ReplayStep?)
    ensures Decent(sys.db, DbAfter(env, sys, step), id)
  {
    hide Enabled, AbandonOutbound, RequeueOutbound, Decent;
    OperatorDecent(sys.db, step.id, step.reason, step.actor, step.now, id);
    if step.ReplayStep? {
      OperatorDecent(sys.db, step.id, if step.reason == "" then "mock-replay" else step.reason,
                     if step.actor == "" then "mock" else step.actor, step.now, id);
    }
  }

  lemma TakeStepDecent(env: Environment, sys: System, step: Step, id: string)
    requires hide *; Enabled(env, sys, step) && step.TakeEventStep?
    ensures Decent(sys.db, DbAfter(env, sys, step), id)
  {
    hide Enabled, DbAfter;
    SentWhenDue(env, sys, step);
    TakenAlone(env, sys, step);
  }

  lemma DecentHonest(sys: System, s': Store, step: Step, id: string)
    requires Decent(sys.db, s', id)
    ensures Honest(sys, s', step, id)
  {
  }

  lemma TakenAlone(env: Environment, sys: System, step: Step)
    requires hide *; Enabled(env, sys, step) && step.TakeEventStep?
    ensures forall x :: x != step.id ==> (x in DbAfter(env, sys, step).outbound <==> x in sys.db.outbound)
    ensures forall x :: x != step.id && x in sys.db.outbound ==>
              DbAfter(env, sys, step).outbound[x] == sys.db.outbound[x]
  {
    hide OutboundDue;
  }

  lemma StepHonest(env: Environment, sys: System, step: Step, id: string)
    requires hide *; Safe(env, sys) && Enabled(env, sys, step)
    ensures Honest(sys, DbAfter(env, sys, step), step, id)
  {
    hide Safe, Enabled, DbAfter, Balanced, ActionsSteady, AttemptsGrow, LeasesSteady, ProcsSteady, ConfirmedBy;
    if step.RecordStep? {
      RecordHonest(env, sys, step, id);
    } else if step.TakeEventStep? {
      TakeStepDecent(env, sys, step, id);
      DecentHonest(sys, DbAfter(env, sys, step), step, id);
    } else if step.AbandonStep? || step.RequeueStep? || step.ReplayStep? {
      OperatorStepDecent(env, sys, step, id);
      DecentHonest(sys, DbAfter(env, sys, step), step, id);
    } else if Takes(step) {
      WebhookStepTables(env, sys, step);
    } else {
      StepAdvance(env, sys, step);
    }
  }

  /** No event is forgotten: in every state of every run it is delivered or given up, or a time is set at which it is
      sent. */
  lemma {:induction false} NoneForgotten(env: Environment, states: seq<System>, steps: seq<Step>, n: nat, id: string)
    requires hide Leads; Run(env, states, steps) && n < |states| && id in states[n].db.outbound
    ensures Remembered(states[n].db.outbound[id])
  {
    hide Run, Safe, Enabled, DbAfter, WorkersAfter, ReadsAfter, SentAfter, ClaimsRun, Arrived, Remembered, ConfirmedBy;
    RunLength(env, states, steps);
    StartsEmpty(env, states, steps);
    RunBasics(env, states, steps, n - 1);
    RunStep(env, states, steps, n - 1);
    StepHonest(env, states[n - 1], steps[n - 1], id);
    if id in states[n - 1].db.outbound {
      NoneForgotten(env, states, steps, n - 1, id);
    }
  }

  /** An event is delivered only if its consumer has confirmed it: some earlier step recorded an answer between 200 and
      299 to a delivery under way. */
  lemma {:induction false} DeliveredWasConfirmed(env: Environment, states: seq<System>, steps: seq<Step>, n: nat,
          id: string)
    requires hide Leads; Run(env, states, steps) && n < |states| && id in states[n].db.outbound
             && states[n].db.outbound[id].state.Delivered?
    ensures exists m: nat :: m < n && m < |steps| && ConfirmedBy(states[m], steps[m], id)
  {
    hide Run, Safe, Enabled, DbAfter, WorkersAfter, ReadsAfter, SentAfter, ClaimsRun, Arrived, Remembered, ConfirmedBy;
    RunLength(env, states, steps);
    StartsEmpty(env, states, steps);
    RunBasics(env, states, steps, n - 1);
    RunStep(env, states, steps, n - 1);
    StepHonest(env, states[n - 1], steps[n - 1], id);
    if !ConfirmedBy(states[n - 1], steps[n - 1], id) {
      DeliveredWasConfirmed(env, states, steps, n - 1, id);
    }
  }

  // ---------- when an event is sent ----------

  /** An event is sent when it is due and nobody else is at it, under a lease of its own. */
  lemma SentWhenDue(env: Environment, sys: System, step: Step)
    requires hide Enabled, DbAfter; Enabled(env, sys, step) && step.TakeEventStep?
    ensures step.id in sys.db.outbound && step.id in DbAfter(env, sys, step).outbound
    ensures var e, f := sys.db.outbound[step.id], DbAfter(env, sys, step).outbound[step.id];
            && e.state.Pending? && e.nextAttemptAt.Some? && e.nextAttemptAt.value <= step.now
            && (e.claim.leaseUntil.Some? ==> e.claim.leaseUntil.value <= step.now)
            && f == e.(claim := Claim(Some(step.token), e.claim.fence + 1, Some(step.now + step.lease)))
  {
  }

  /** An event that is to be sent at a given time. */
  predicate SentAt(s: Store, id: string, next: Instant) {
    id in s.outbound && s.outbound[id].state.Pending? && s.outbound[id].nextAttemptAt == Some(next)
  }

  lemma SentAtOn(env: Environment, sys: System, step: Step, id: string, next: Instant)
    requires hide *; Safe(env, sys) && Enabled(env, sys, step) && SentAt(sys.db, id, next)
             && !EventGivenBack(sys.db, DbAfter(env, sys, step), step, id)
    ensures SentAt(DbAfter(env, sys, step), id, next)
  {
    hide Safe, Enabled, DbAfter, EventGivenBack;
    if TakesEvent(step, id) {
      SentWhenDue(env, sys, step);
    } else {
      EventAfterStep(env, sys, step, id);
    }
  }

  lemma {:induction false} SentAtAlong(env: Environment, states: seq<System>, steps: seq<Step>, m: nat, n: nat,
          id: string, next: Instant)
    requires hide Leads; Run(env, states, steps) && m <= n < |states| && SentAt(states[m].db, id, next)
    requires forall j: nat :: m <= j < n ==> !EventGivenBack(states[j].db, states[j + 1].db, steps[j], id)
    ensures SentAt(states[n].db, id, next)
    decreases n
  {
    hide Run, Safe, Enabled, DbAfter, WorkersAfter, ReadsAfter, SentAfter, ClaimsRun, Arrived, EventGivenBack, SentAt;
    RunLength(env, states, steps);
    if m < n {
      SentAtAlong(env, states, steps, m, n - 1, id, next);
      RunBasics(env, states, steps, n - 1);
      RunStep(env, states, steps, n - 1);
      SentAtOn(env, states[n - 1], steps[n - 1], id, next);
    }
  }

  ghost predicate GivenBackBy(states: seq<System>, steps: seq<Step>, j: nat, id: string) {
    j < |steps| && j + 1 < |states| && EventGivenBack(states[j].db, states[j + 1].db, steps[j], id)
  }

  /** After a failed delivery the event is not sent again before the time that was set, unless it was abandoned or
      another delivery of it reported in between. */
  lemma ResentWhenDue(env: Environment, states: seq<System>, steps: seq<Step>, m: nat, n: nat, id: string,
          next: Instant)
    requires hide Leads; Run(env, states, steps) && m <= n < |steps| && m < |states| && SentAt(states[m].db, id, next)
             && TakesEvent(steps[n], id)
    ensures steps[n].now >= next || exists j: nat :: m <= j < n && GivenBackBy(states, steps, j, id)
  {
    hide Run, Enabled, DbAfter, WorkersAfter, ReadsAfter, SentAfter, EventGivenBack;
    RunLength(env, states, steps);
    if forall j: nat :: m <= j < n ==> !GivenBackBy(states, steps, j, id) {
      forall j: nat | m <= j < n ensures !EventGivenBack(states[j].db, states[j + 1].db, steps[j], id) {
        assert !GivenBackBy(states, steps, j, id);
      }
      SentAtAlong(env, states, steps, m, n, id, next);
      RunStep(env, states, steps, n);
      SentWhenDue(env, states[n], steps[n]);
    }
  }

  /** As soon as an event is due and nobody is at it, a notifier with nothing else to do is offered one. */
  lemma DeliveryOffered(env: Environment, sys: System, x: string, w: nat, token: string, now: Instant, lease: int)
    returns (id: string)
    requires w !in sys.workers && x in sys.db.outbound && sys.db.outbound[x].state.Pending?
             && sys.db.outbound[x].nextAttemptAt.Some? && sys.db.outbound[x].nextAttemptAt.value <= now
             && (sys.db.outbound[x].claim.leaseUntil.None? || sys.db.outbound[x].claim.leaseUntil.value <= now)
    ensures Enabled(env, sys, TakeEventStep(w, id, token, now, lease))
  {
    var s := sys.db;
    var due := map y | y in s.outbound && OutboundDue(s.outbound[y], now) :: s.outbound[y].nextAttemptAt.value;
    assert x in due;
    id := Least(due);
    forall other | other in s.outbound && OutboundDue(s.outbound[other], now)
      ensures s.outbound[id].nextAttemptAt.value <= s.outbound[other].nextAttemptAt.value
    {
      assert other in due;
    }
  }
}
