/**
 * How long a claim lasts: along a run, nobody takes what somebody else has taken before that lease has run out, unless
 * it was given back in between.
 */
module Claims {
  import opened Wrappers
  import opened Calendar
  import opened Model
  import opened Engine
  import opened Scheduler
  import opened System
  import opened Books
  import ChargeRefusals
  import opened Growth
  import opened StepSafety
  import opened Arrivals
  import opened Runs
  import opened Fencing
  import Notify
  import Reads
  import Payments

  // ---------- scheduled actions ----------

  /** A step takes action `id`. */
  ghost predicate TakesAction(env: Environment, sys: System, step: Step, id: string) {
    && Enabled(env, sys, step)
    && match step
       case ClaimStep(w, token, now) =>
         sys.workers[w].actionId == id
         && ClaimCharge(sys.db, env.cfg, id, sys.workers[w].attemptId, token, now).Success?
       case ExpireStep(x, token, now, ids, txNow) =>
         x == id && RunExpire(sys.db, id, token, env.cfg, now, ids, txNow).Success?
       case _ => false
  }

  /** The clock by which a step takes something. */
  function TakenAt(step: Step): Instant {
    match step
    case ClaimStep(_, _, now) => now
    case ExpireStep(_, _, now, _, _) => now
    case TakeEventStep(_, _, _, now, _) => now
    case LeaseStep(_, _, now) => now
    case _ => 0
  }

  /** When the lease that a step takes runs out. */
  function Until(env: Environment, step: Step): Instant {
    match step
    case TakeEventStep(_, _, _, now, lease) => now + lease
    case LeaseStep(_, _, now) => now + 120
    case _ => TakenAt(step) + (if env.cfg.schedulerLease > 0 then env.cfg.schedulerLease else 120)
  }

  /** Between two stores an action ceases to run and its claim is given back: it was finished, or finished by force. */
  ghost predicate ActionGivenBack(s: Store, s': Store, id: string) {
    && id in s.actions && id in s'.actions && s.actions[id].status.Running? && !s'.actions[id].status.Running?
    && s'.actions[id].claim == s.actions[id].claim.Release()
  }

  lemma ClaimedWhenFree(s: Store, id: string, token: string, now: Instant, lease: int)
    requires ClaimsRun(s.actions) && ClaimAction(s, id, token, now, lease).Success?
    ensures id in s.actions && !(s.actions[id].claim.token.Some? && s.actions[id].claim.Live(now))
  {
    hide Blocked, ClaimsRun;
    if id in s.actions && s.actions[id].claim.token.Some? && s.actions[id].claim.Live(now) {
      LiveClaimExcludes(s, id, token, now, lease);
    }
  }

  /** What is taken is not under a live claim, and is not finished. */
  lemma TakenWhenFree(env: Environment, sys: System, step: Step, id: string)
    requires ClaimsRun(sys.db.actions) && TakesAction(env, sys, step, id)
    ensures hide *; id in sys.db.actions && Claimable(sys.db.actions[id].status)
    ensures !(sys.db.actions[id].claim.token.Some? && sys.db.actions[id].claim.Live(TakenAt(step)))
  {
    hide Enabled, ClaimsRun, ClaimAction, Observe;
    match step {
      case ClaimStep(w, token, now) =>
        ClaimedWhenFree(sys.db, id, token, now, Lease(env.cfg));
        ClaimedStatus(sys.db, id, token, now, Lease(env.cfg));
      case ExpireStep(_, token, now, _, _) =>
        ClaimedWhenFree(sys.db, id, token, now, Lease(env.cfg));
        ClaimedStatus(sys.db, id, token, now, Lease(env.cfg));
      case _ =>
    }
  }

  lemma ClaimedStatus(s: Store, id: string, token: string, now: Instant, lease: int)
    requires ClaimAction(s, id, token, now, lease).Success?
    ensures id in s.actions && Claimable(s.actions[id].status)
    ensures var a := ClaimAction(s, id, token, now, lease).value.1;
            a.claim == s.actions[id].claim.Take(token, now + lease)
            && ClaimAction(s, id, token, now, lease).value.0.actions == s.actions[id := a]
  {
    hide Blocked;
  }

  /** The claim of an action that a charging worker has taken. */
  lemma ClaimOfStep(env: Environment, sys: System, step: Step, id: string)
    requires TakesAction(env, sys, step, id) && step.ClaimStep?
    ensures hide DbAfter; id in sys.db.actions && id in DbAfter(env, sys, step).actions
    ensures DbAfter(env, sys, step).actions[id].claim == sys.db.actions[id].claim.Take(step.token, Until(env, step))
  {
    hide ClaimAction;
    ClaimedStatus(sys.db, id, step.token, step.now, Lease(env.cfg));
  }

  lemma ExpiryFinished(s: Store, id: string, token: string, cfg: Config, now: Instant, ids: Ids, txNow: Instant)
    requires RunExpire(s, id, token, cfg, now, ids, txNow).Success?
    ensures var s' := RunExpire(s, id, token, cfg, now, ids, txNow).value;
            id in s'.actions && !Claimable(s'.actions[id].status)
  {
    hide ClaimAction, Observe;
  }

  lemma ExpiryDone(env: Environment, sys: System, step: Step, id: string)
    requires TakesAction(env, sys, step, id) && step.ExpireStep?
    ensures hide DbAfter;
            id in DbAfter(env, sys, step).actions && !Claimable(DbAfter(env, sys, step).actions[id].status)
  {
    hide RunExpire, EarliestAction;
    ExpiryFinished(sys.db, id, step.token, env.cfg, step.now, step.ids, step.txNow);
  }

  lemma UntakenClaim(x: Option<string>, s: Store, s': Store, id: string)
    requires Steady(x, s, s') && ClaimsRun(s.actions) && id in s.actions && s.actions[id].claim.token.Some?
             && x != Some(id)
    ensures id in s'.actions && (s'.actions[id].claim == s.actions[id].claim || ActionGivenBack(s, s', id))
  {
    hide AttemptsGrow, OutboxSteady, LeasesSteady, ProcsSteady;
  }

  lemma NotTaken(env: Environment, sys: System, step: Step, id: string)
    requires Enabled(env, sys, step) && ActionTaken(sys, step) == Some(id) && !TakesAction(env, sys, step, id)
    ensures hide *; DbAfter(env, sys, step) == sys.db
  {
    hide ClaimCharge, RunExpire, EarliestAction;
  }

  /** A step leaves a claim alone, gives it back, or takes the action. */
  lemma ClaimAfterStep(env: Environment, sys: System, step: Step, id: string)
    requires hide *; Safe(env, sys) && ClaimsRun(sys.db.actions) && Enabled(env, sys, step)
    requires id in sys.db.actions && sys.db.actions[id].claim.token.Some?
    ensures id in DbAfter(env, sys, step).actions
    ensures || DbAfter(env, sys, step).actions[id].claim == sys.db.actions[id].claim
            || ActionGivenBack(sys.db, DbAfter(env, sys, step), id)
            || TakesAction(env, sys, step, id)
  {
    hide Safe, Enabled, DbAfter, ClaimsRun, ActionGivenBack, TakesAction, Balanced, ActionsSteady, AttemptsGrow,
         OutboxSteady, LeasesSteady, ProcsSteady;
    if Takes(step) {
      AsideTables(env, sys, step);
    } else if ActionTaken(sys, step) != Some(id) {
      StepAdvance(env, sys, step);
      UntakenClaim(ActionTaken(sys, step), sys.db, DbAfter(env, sys, step), id);
    } else if !TakesAction(env, sys, step, id) {
      NotTaken(env, sys, step, id);
    } else {
      StepAdvance(env, sys, step);
      StillThere(ActionTaken(sys, step), sys.db, DbAfter(env, sys, step), id);
    }
  }

  lemma StillThere(x: Option<string>, s: Store, s': Store, id: string)
    requires Steady(x, s, s') && id in s.actions
    ensures id in s'.actions
  {
    hide AttemptsGrow, OutboxSteady, LeasesSteady, ProcsSteady;
  }

  /** What may end a claim on an action between two steps of a run: it is given back, or taken after the lease has run
      out. */
  ghost predicate ActionClaimEnds(env: Environment, states: seq<System>, steps: seq<Step>, j: nat, id: string,
          until: Instant)
    requires j < |steps| && |states| == |steps| + 1
  {
    ActionGivenBack(states[j].db, states[j + 1].db, id)
    || (TakesAction(env, states[j], steps[j], id) && TakenAt(steps[j]) >= until)
  }

  lemma RunLength(env: Environment, states: seq<System>, steps: seq<Step>)
    requires Run(env, states, steps)
    ensures |states| == |steps| + 1
  {
    hide Leads;
  }

  lemma RunBasics(env: Environment, states: seq<System>, steps: seq<Step>, n: nat)
    requires Run(env, states, steps) && n < |states|
    ensures hide *; Safe(env, states[n]) && ClaimsRun(states[n].db.actions) && Arrived(states[n])
  {
    hide Run, Safe, Reads.ReadsInv, Payments.RenewalsPaid, Payments.SentInv, UniqueKeys, ClaimsRun, DeliveriesFenced,
         Arrived;
    RunInv(env, states, steps, n);
  }

  /** Until something ends it, the claim made in step `m` stands. */
  lemma {:induction false} ActionHeld(env: Environment, states: seq<System>, steps: seq<Step>, m: nat, k: nat,
          id: string)
    requires hide Leads; Run(env, states, steps) && m < k < |states|
    requires TakesAction(env, states[m], steps[m], id) && steps[m].ClaimStep?
    requires forall j: nat :: m < j < k ==> !ActionClaimEnds(env, states, steps, j, id, Until(env, steps[m]))
    ensures id in states[m].db.actions && id in states[k].db.actions
    ensures states[k].db.actions[id].claim == states[m].db.actions[id].claim.Take(steps[m].token, Until(env, steps[m]))
    decreases k
  {
    hide Run, Safe, Enabled, DbAfter, WorkersAfter, ReadsAfter, SentAfter, ClaimsRun, Arrived, TakesAction,
         ActionGivenBack;
    RunLength(env, states, steps);
    if k == m + 1 {
      RunStep(env, states, steps, m);
      ClaimOfStep(env, states[m], steps[m], id);
    } else {
      ActionHeld(env, states, steps, m, k - 1, id);
      RunBasics(env, states, steps, k - 1);
      RunStep(env, states, steps, k - 1);
      ClaimAfterStep(env, states[k - 1], steps[k - 1], id);
      if TakesAction(env, states[k - 1], steps[k - 1], id) {
        TakenWhenFree(env, states[k - 1], steps[k - 1], id);
      }
      assert !ActionClaimEnds(env, states, steps, k - 1, id, Until(env, steps[m]));
    }
  }

  lemma ExpiryTakenOnce(env: Environment, states: seq<System>, steps: seq<Step>, m: nat, n: nat, id: string)
    requires hide Leads; Run(env, states, steps) && m < n < |steps| && TakesAction(env, states[m], steps[m], id)
             && steps[m].ExpireStep?
    ensures !TakesAction(env, states[n], steps[n], id)
  {
    hide Run, Safe, Enabled, DbAfter, WorkersAfter, ReadsAfter, SentAfter, ClaimsRun, Arrived, TakesAction,
         AttemptsGrow, OutboxGrows, LeasesGrow, ProcsGrow;
    RunLength(env, states, steps);
    RunStep(env, states, steps, m);
    ExpiryDone(env, states[m], steps[m], id);
    RunGrows(env, states, steps, m + 1, n);
    RunBasics(env, states, steps, n);
    if TakesAction(env, states[n], steps[n], id) {
      TakenWhenFree(env, states[n], steps[n], id);
    }
  }

  /** No second claim of an action succeeds before the lease of the first has run out, unless the action was finished or
      finished by force in between, or somebody whose clock was past the lease had taken it. */
  lemma ActionTakenTwice(env: Environment, states: seq<System>, steps: seq<Step>, m: nat, n: nat, id: string)
    requires hide Leads; Run(env, states, steps) && m < n < |steps|
    requires TakesAction(env, states[m], steps[m], id) && TakesAction(env, states[n], steps[n], id)
    requires TakenAt(steps[n]) < Until(env, steps[m])
    ensures exists j: nat :: m < j < n && ActionClaimEnds(env, states, steps, j, id, Until(env, steps[m]))
  {
    hide Run, Safe, Enabled, ClaimsRun, Arrived, ActionClaimEnds;
    RunLength(env, states, steps);
    if steps[m].ExpireStep? {
      ExpiryTakenOnce(env, states, steps, m, n, id);
    } else if forall j: nat :: m < j < n ==> !ActionClaimEnds(env, states, steps, j, id, Until(env, steps[m])) {
      ActionHeld(env, states, steps, m, n, id);
      RunBasics(env, states, steps, n);
      TakenWhenFree(env, states[n], steps[n], id);
    }
  }

  // ---------- deliveries ----------

  /** Between two stores the claim of an event is given back by a report of its delivery, or the event is abandoned. */
  ghost predicate EventGivenBack(s: Store, s': Store, step: Step, id: string) {
    && id in s.outbound && id in s'.outbound && s'.outbound[id].claim == s.outbound[id].claim.Release()
    && (|| (step.RecordStep? && s'.outbound[id].attemptCount == s.outbound[id].attemptCount + 1)
        || (step.AbandonStep? && s'.outbound[id].state.Abandoned?))
  }

  predicate TakesEvent(step: Step, id: string) {
    step.TakeEventStep? && step.id == id
  }

  lemma ReportTouches(s: Store, x: string, token: string, fence: int, at: Instant, class_: string, id: string)
    requires id in s.outbound
    ensures var r := CompleteOutbound(s, x, token, fence, at); r.Success? ==> EventReported(s, r.value, id)
    ensures var r := RetryOutbound(s, x, token, fence, at, class_); r.Success? ==> EventReported(s, r.value, id)
    ensures var r := DeadLetterOutbound(s, x, token, fence, at, class_); r.Success? ==> EventReported(s, r.value, id)
  {
  }

  /** An event is as it was, or one more attempt to deliver it has been reported and its claim given back. */
  ghost predicate EventReported(s: Store, s': Store, id: string)
    requires id in s.outbound
  {
    && id in s'.outbound
    && (|| s'.outbound[id] == s.outbound[id]
        || (s'.outbound[id].claim == s.outbound[id].claim.Release()
            && s'.outbound[id].attemptCount == s.outbound[id].attemptCount + 1))
  }

  lemma ResponseTouches(s: Store, e: OutboundEvent, token: string, response: Notify.Response, now: Instant,
          next: Instant, id: string)
    requires id in s.outbound
    ensures EventReported(s, KeptStore(s, Notify.RecordResponse(s, e, token, response, now, next)), id)
  {
    hide Notify.StatusClass, CompleteOutbound, RetryOutbound, DeadLetterOutbound, EventReported;
    assert EventReported(s, s, id) by { ReportNothing(s, id); }
    ReportTouches(s, e.id, token, e.claim.fence, now, "", id);
    ReportTouches(s, e.id, token, e.claim.fence, next, "network", id);
    if response.Code? {
      ReportTouches(s, e.id, token, e.claim.fence, now, Notify.StatusClass(response.code), id);
      ReportTouches(s, e.id, token, e.claim.fence, next, Notify.StatusClass(response.code), id);
    }
  }

  lemma ReportNothing(s: Store, id: string)
    requires id in s.outbound
    ensures EventReported(s, s, id)
  {
  }

  lemma RecordAfterStep(env: Environment, sys: System, step: Step, id: string)
    requires Enabled(env, sys, step) && step.RecordStep? && id in sys.db.outbound
    ensures hide *; EventReported(sys.db, DbAfter(env, sys, step), id)
  {
    hide Notify.RecordResponse, EventReported;
    ResponseTouches(sys.db, sys.workers[step.w].event, sys.workers[step.w].token, step.response, step.now, step.next,
                    id);
  }

  lemma OutboxTouches(s: Store, x: string, reason: string, actor: string, now: Instant, id: string)
    requires id in s.outbound && s.outbound[id].state.Pending?
    ensures var r := AbandonOutbound(s, x, reason, actor, now);
            r.Success? ==> id in r.value.outbound
                           && (|| r.value.outbound[id] == s.outbound[id]
                               || (r.value.outbound[id].state.Abandoned?
                                   && r.value.outbound[id].claim == s.outbound[id].claim.Release()))
    ensures var r := RequeueOutbound(s, x, reason, actor, now);
            r.Success? ==> id in r.value.outbound && r.value.outbound[id] == s.outbound[id]
    ensures var r := ReplayLatest(s, x, reason, actor, now);
            r.Success? ==> id in r.value.outbound && r.value.outbound[id] == s.outbound[id]
  {
  }

  lemma AbandonAfterStep(env: Environment, sys: System, step: Step, id: string)
    requires hide *;
             Enabled(env, sys, step) && step.AbandonStep? && id in sys.db.outbound && sys.db.outbound[id].state.Pending?
    ensures id in DbAfter(env, sys, step).outbound
    ensures DbAfter(env, sys, step).outbound[id] == sys.db.outbound[id]
            || EventGivenBack(sys.db, DbAfter(env, sys, step), step, id)
  {
    hide Enabled, AbandonOutbound;
    OutboxTouches(sys.db, step.id, step.reason, step.actor, step.now, id);
  }

  lemma RequeueAfterStep(env: Environment, sys: System, step: Step, id: string)
    requires hide *; Enabled(env, sys, step) && (step.RequeueStep? || step.ReplayStep?) && id in sys.db.outbound
             && sys.db.outbound[id].state.Pending?
    ensures id in DbAfter(env, sys, step).outbound && DbAfter(env, sys, step).outbound[id] == sys.db.outbound[id]
  {
    hide Enabled, RequeueOutbound, ReplayLatest;
    OutboxTouches(sys.db, step.id, step.reason, step.actor, step.now, id);
  }

  lemma TakeAfterStep(env: Environment, sys: System, step: Step, id: string)
    requires hide *; Enabled(env, sys, step) && step.TakeEventStep? && step.id != id && id in sys.db.outbound
    ensures id in DbAfter(env, sys, step).outbound && DbAfter(env, sys, step).outbound[id] == sys.db.outbound[id]
  {
    hide OutboundDue;
  }

  /** A step leaves a claimed event alone, gives it back, or takes it. */
  lemma EventAfterStep(env: Environment, sys: System, step: Step, id: string)
    requires hide *; Safe(env, sys) && Enabled(env, sys, step) && !TakesEvent(step, id)
    requires id in sys.db.outbound && sys.db.outbound[id].state.Pending?
    ensures id in DbAfter(env, sys, step).outbound
    ensures DbAfter(env, sys, step).outbound[id] == sys.db.outbound[id]
            || EventGivenBack(sys.db, DbAfter(env, sys, step), step, id)
  {
    hide Safe, Enabled, DbAfter, Balanced, ActionsSteady, AttemptsGrow, LeasesSteady, ProcsSteady;
    if step.RecordStep? {
      RecordAfterStep(env, sys, step, id);
    } else if step.AbandonStep? {
      AbandonAfterStep(env, sys, step, id);
    } else if step.RequeueStep? || step.ReplayStep? {
      RequeueAfterStep(env, sys, step, id);
    } else if step.TakeEventStep? {
      TakeAfterStep(env, sys, step, id);
    } else if Takes(step) {
      WebhookStepTables(env, sys, step);
    } else {
      StepAdvance(env, sys, step);
    }
  }

  lemma TakenEvent(env: Environment, sys: System, step: Step, id: string)
    requires Enabled(env, sys, step) && TakesEvent(step, id)
    ensures hide Enabled, DbAfter; id in sys.db.outbound
            && !(sys.db.outbound[id].claim.token.Some? && sys.db.outbound[id].claim.Live(TakenAt(step)))
    ensures id in DbAfter(env, sys, step).outbound && DbAfter(env, sys, step).outbound[id].state.Pending?
            && DbAfter(env, sys, step).outbound[id].claim == sys.db.outbound[id].claim.Take(step.token,
                Until(env, step))
  {
  }

  /** What may end a claim on a delivery: it is reported or abandoned, or taken after the lease has run out. */
  ghost predicate EventClaimEnds(states: seq<System>, steps: seq<Step>, j: nat, id: string, until: Instant)
    requires j < |steps| && |states| == |steps| + 1
  {
    EventGivenBack(states[j].db, states[j + 1].db, steps[j], id)
    || (TakesEvent(steps[j], id) && TakenAt(steps[j]) >= until)
  }

  lemma {:induction false} EventHeld(env: Environment, states: seq<System>, steps: seq<Step>, m: nat, k: nat,
          id: string)
    requires hide Leads; Run(env, states, steps) && m < k < |states| && TakesEvent(steps[m], id)
    requires forall j: nat :: m < j < k ==> !EventClaimEnds(states, steps, j, id, Until(env, steps[m]))
    ensures id in states[m].db.outbound && id in states[k].db.outbound && states[k].db.outbound[id].state.Pending?
    ensures states[k].db.outbound[id].claim == states[m].db.outbound[id].claim.Take(steps[m].token,
        Until(env, steps[m]))
    decreases k
  {
    hide Run, Safe, Enabled, DbAfter, WorkersAfter, ReadsAfter, SentAfter, ClaimsRun, Arrived, EventGivenBack;
    RunLength(env, states, steps);
    if k == m + 1 {
      RunStep(env, states, steps, m);
      TakenEvent(env, states[m], steps[m], id);
    } else {
      EventHeld(env, states, steps, m, k - 1, id);
      RunBasics(env, states, steps, k - 1);
      RunStep(env, states, steps, k - 1);
      if TakesEvent(steps[k - 1], id) {
        TakenEvent(env, states[k - 1], steps[k - 1], id);
      } else {
        EventAfterStep(env, states[k - 1], steps[k - 1], id);
      }
      assert !EventClaimEnds(states, steps, k - 1, id, Until(env, steps[m]));
    }
  }

  /** No second claim of a delivery succeeds before the lease of the first has run out, unless the delivery was reported
      or the event abandoned in between, or somebody whose clock was past the lease had taken it. */
  lemma EventTakenTwice(env: Environment, states: seq<System>, steps: seq<Step>, m: nat, n: nat, id: string)
    requires hide Leads;
             Run(env, states, steps) && m < n < |steps| && TakesEvent(steps[m], id) && TakesEvent(steps[n], id)
    requires TakenAt(steps[n]) < Until(env, steps[m])
    ensures exists j: nat :: m < j < n && EventClaimEnds(states, steps, j, id, Until(env, steps[m]))
  {
    hide Run, Enabled, Next, EventClaimEnds;
    RunLength(env, states, steps);
    if forall j: nat :: m < j < n ==> !EventClaimEnds(states, steps, j, id, Until(env, steps[m])) {
      EventHeld(env, states, steps, m, n, id);
      RunStep(env, states, steps, n);
      TakenEvent(env, states[n], steps[n], id);
    }
  }

  // ---------- processing leases ----------

  /** A step takes the processing lease of a key. */
  ghost predicate TakesLease(env: Environment, sys: System, step: Step, key: string) {
    && Enabled(env, sys, step) && step.LeaseStep? && ProcessingKey(sys.workers[step.w].ev) == key
    && ClaimProcessorEvent(sys.db, sys.workers[step.w].ev.key, key, step.token, step.now, 120).Success?
  }

  ghost predicate LeaseGivenBack(s: Store, s': Store, key: string) {
    && key in s.leases && key in s'.leases && s.leases[key].running && !s'.leases[key].running
    && s'.leases[key].claim == s.leases[key].claim.Release()
  }

  /** A lease that is held for the processing of an event: running, for that event, until then. */
  ghost predicate HeldFor(s: Store, key: string, actionId: string, until: Instant) {
    && key in s.leases && s.leases[key].running && s.leases[key].activeActionId == Some(actionId)
       && s.leases[key].claim.leaseUntil == Some(until)
  }

  lemma LeaseAfterStep(env: Environment, sys: System, step: Step, key: string, actionId: string, until: Instant)
    requires Safe(env, sys) && Enabled(env, sys, step) && HeldFor(sys.db, key, actionId, until)
    ensures hide *; || HeldFor(DbAfter(env, sys, step), key, actionId, until)
            || LeaseGivenBack(sys.db, DbAfter(env, sys, step), key)
            || TakesLease(env, sys, step, key)
  {
    hide Safe, Enabled, DbAfter, TakesLease, Balanced, ActionsSteady, AttemptsGrow, OutboxSteady, ProcsSteady;
    if step.LeaseStep? {
      OtherLease(env, sys, step, key, actionId, until);
    } else if step.ReceiveStep? {
      ReceiveLeases(env, sys, step);
    } else if Takes(step) {
      DeliveryStepTables(env, sys, step);
    } else {
      StepAdvance(env, sys, step);
    }
  }

  lemma ReceiveLeases(env: Environment, sys: System, step: Step)
    requires Enabled(env, sys, step) && step.ReceiveStep?
    ensures hide *; DbAfter(env, sys, step).leases == sys.db.leases
  {
    hide Enabled;
  }

  lemma LeasedRow(s: Store, event: EventKey, key: string, token: string, now: Instant)
    requires ClaimProcessorEvent(s, event, key, token, now, 120).Success?
    ensures var s' := ClaimProcessorEvent(s, event, key, token, now, 120).value.0;
            && event in s.procEvents && HeldFor(s', key, s.procEvents[event].actionId, now + 120)
            && event in s'.procEvents && !s'.procEvents[event].state.Pending?
               && s'.procEvents[event].actionId == s.procEvents[event].actionId
            && forall other :: other in s.leases && other != key ==>
                 other in s'.leases && s'.leases[other] == s.leases[other]
  {
  }

  lemma OtherLease(env: Environment, sys: System, step: Step, key: string, actionId: string, until: Instant)
    requires Enabled(env, sys, step) && step.LeaseStep? && HeldFor(sys.db, key, actionId, until)
    ensures hide *; HeldFor(DbAfter(env, sys, step), key, actionId, until) || TakesLease(env, sys, step, key)
  {
    hide ClaimProcessorEvent, ProcessingKey;
    var ev := sys.workers[step.w].ev;
    if ClaimProcessorEvent(sys.db, ev.key, ProcessingKey(ev), step.token, step.now, 120).Success? {
      LeasedRow(sys.db, ev.key, ProcessingKey(ev), step.token, step.now);
    }
  }

  /** The event for which a step takes a lease. */
  lemma LeaseOfStep(env: Environment, sys: System, step: Step, key: string)
    requires TakesLease(env, sys, step, key)
    ensures hide DbAfter; step.LeaseStep? && step.w in sys.workers && sys.workers[step.w].Received?
            && sys.workers[step.w].ev.key in sys.db.procEvents
    ensures var event, s' := sys.workers[step.w].ev.key, DbAfter(env, sys, step);
            && HeldFor(s', key, sys.db.procEvents[event].actionId, Until(env, step))
            && event in s'.procEvents && !s'.procEvents[event].state.Pending?
               && s'.procEvents[event].actionId == sys.db.procEvents[event].actionId
  {
    hide ClaimProcessorEvent, ProcessingKey;
    LeasedRow(sys.db, sys.workers[step.w].ev.key, key, step.token, step.now);
  }

  /** A lease that is held and live keeps every other event out. */
  lemma HeldExcludes(env: Environment, sys: System, step: Step, key: string, actionId: string, until: Instant)
    requires TakesLease(env, sys, step, key) && HeldFor(sys.db, key, actionId, until) && TakenAt(step) < until
    ensures hide *; step.LeaseStep? && step.w in sys.workers && sys.workers[step.w].Received?
            && sys.workers[step.w].ev.key in sys.db.procEvents
    ensures sys.db.procEvents[sys.workers[step.w].ev.key].actionId == actionId
  {
    hide ProcessingKey, ClaimProcessorEvent;
    var event := sys.workers[step.w].ev.key;
    LeasedRow(sys.db, event, key, step.token, step.now);
    if sys.db.procEvents[event].actionId != actionId {
      LiveLeaseExcludes(sys.db, event, key, step.token, step.now, 120);
    }
  }

  /** What may end a processing lease: it is given back, or taken after it has run out. */
  ghost predicate LeaseEnds(env: Environment, states: seq<System>, steps: seq<Step>, j: nat, key: string,
          until: Instant)
    requires j < |steps| && |states| == |steps| + 1
  {
    LeaseGivenBack(states[j].db, states[j + 1].db, key)
    || (TakesLease(env, states[j], steps[j], key) && TakenAt(steps[j]) >= until)
  }

  /** The identifier under which the event of a lease step is processed. */
  ghost function WorkOf(sys: System, step: Step): string {
    if step.LeaseStep? && step.w in sys.workers && sys.workers[step.w].Received?
         && sys.workers[step.w].ev.key in sys.db.procEvents
    then sys.db.procEvents[sys.workers[step.w].ev.key].actionId else ""
  }

  /** Every event is taken up once, so a later taker works on another event. */
  lemma OtherEvent(env: Environment, states: seq<System>, steps: seq<Step>, m: nat, n: nat, key: string, key': string)
    requires hide Leads; Run(env, states, steps) && m < n < |steps| && TakesLease(env, states[m], steps[m], key)
             && TakesLease(env, states[n], steps[n], key')
    ensures WorkOf(states[m], steps[m]) != WorkOf(states[n], steps[n])
  {
    hide Run, Safe, Enabled, DbAfter, WorkersAfter, ReadsAfter, SentAfter, ClaimsRun, TakesLease, ActionsGrow,
         AttemptsGrow, OutboxGrows, LeasesGrow;
    RunLength(env, states, steps);
    LeaseOfStep(env, states[m], steps[m], key);
    RunStep(env, states, steps, m);
    RunGrows(env, states, steps, m + 1, n);
    RunBasics(env, states, steps, n);
    LeaseOfStep(env, states[n], steps[n], key');
    assert Untouched(states[n].db, states[n].workers[steps[n].w]);
  }

  lemma {:induction false} LeaseHeld(env: Environment, states: seq<System>, steps: seq<Step>, m: nat, k: nat,
          key: string)
    requires hide Leads; Run(env, states, steps) && m < k < |states| && TakesLease(env, states[m], steps[m], key)
    requires forall j: nat :: m < j < k ==> !LeaseEnds(env, states, steps, j, key, Until(env, steps[m]))
    ensures HeldFor(states[k].db, key, WorkOf(states[m], steps[m]), Until(env, steps[m]))
    decreases k
  {
    hide Run, Safe, Enabled, DbAfter, WorkersAfter, ReadsAfter, SentAfter, ClaimsRun, Arrived, TakesLease,
         LeaseGivenBack, HeldFor;
    RunLength(env, states, steps);
    var work, until := WorkOf(states[m], steps[m]), Until(env, steps[m]);
    if k == m + 1 {
      RunStep(env, states, steps, m);
      LeaseOfStep(env, states[m], steps[m], key);
    } else {
      LeaseHeld(env, states, steps, m, k - 1, key);
      RunBasics(env, states, steps, k - 1);
      RunStep(env, states, steps, k - 1);
      LeaseAfterStep(env, states[k - 1], steps[k - 1], key, work, until);
      LeaseTakenLate(env, states, steps, m, k - 1, key);
      assert !LeaseEnds(env, states, steps, k - 1, key, until);
    }
  }

  lemma LeaseTakenLate(env: Environment, states: seq<System>, steps: seq<Step>, m: nat, n: nat, key: string)
    requires hide Leads; Run(env, states, steps) && m < n < |steps| && TakesLease(env, states[m], steps[m], key)
    requires HeldFor(states[n].db, key, WorkOf(states[m], steps[m]), Until(env, steps[m]))
    ensures TakesLease(env, states[n], steps[n], key) ==> TakenAt(steps[n]) >= Until(env, steps[m])
  {
    hide Run, Enabled, TakesLease, HeldFor;
    RunLength(env, states, steps);
    if TakesLease(env, states[n], steps[n], key) && TakenAt(steps[n]) < Until(env, steps[m]) {
      OtherEvent(env, states, steps, m, n, key, key);
      HeldExcludes(env, states[n], steps[n], key, WorkOf(states[m], steps[m]), Until(env, steps[m]));
    }
  }

  /** No second event is taken up under a processing key before the lease of the first has run out, unless that lease
      was given back in between, or somebody whose clock was past it had taken it. */
  lemma LeaseTakenTwice(env: Environment, states: seq<System>, steps: seq<Step>, m: nat, n: nat, key: string)
    requires hide Leads; Run(env, states, steps) && m < n < |steps|
    requires TakesLease(env, states[m], steps[m], key) && TakesLease(env, states[n], steps[n], key)
    requires TakenAt(steps[n]) < Until(env, steps[m])
    ensures exists j: nat :: m < j < n && LeaseEnds(env, states, steps, j, key, Until(env, steps[m]))
  {
    hide Run, Enabled, TakesLease, LeaseEnds, HeldFor;
    RunLength(env, states, steps);
    if forall j: nat :: m < j < n ==> !LeaseEnds(env, states, steps, j, key, Until(env, steps[m])) {
      LeaseHeld(env, states, steps, m, n, key);
      LeaseTakenLate(env, states, steps, m, n, key);
    }
  }

  // ---------- blocked subscriptions ----------

  ghost predicate ChargingBlocked(s: Store, ref: string) {
    ref in s.subs && s.subs[ref].chargingBlocked
  }

  lemma NotBlockedWhenTaken(env: Environment, sys: System, step: Step, id: string)
    requires hide *; TakesAction(env, sys, step, id) && id in sys.db.actions && sys.db.actions[id].kind.Renew?
    ensures !ChargingBlocked(sys.db, sys.db.actions[id].ref)
  {
    hide Enabled, ClaimAttemptWithAction, Observe, FinishAction, ClaimAction;
    if ChargingBlocked(sys.db, sys.db.actions[id].ref) {
      ChargeRefusals.BlockedNotClaimed(sys.db, id, step.token, step.now, Lease(env.cfg));
    }
  }

  /** From the moment a subscription is blocked, none of its renewals is taken until some step has lifted the block. */
  lemma {:induction false} BlockedUntilLifted(env: Environment, states: seq<System>, steps: seq<Step>, m: nat, n: nat,
          id: string)
    requires hide Leads; Run(env, states, steps) && m <= n < |steps| && TakesAction(env, states[n], steps[n], id)
    requires id in states[n].db.actions && states[n].db.actions[id].kind.Renew?
             && ChargingBlocked(states[m].db, states[n].db.actions[id].ref)
    ensures exists k: nat :: m <= k < n && Lifts(states, k, states[n].db.actions[id].ref)
    decreases n - m
  {
    hide Run, TakesAction, ChargingBlocked;
    RunLength(env, states, steps);
    if m == n {
      NotBlockedWhenTaken(env, states[n], steps[n], id);
    } else if ChargingBlocked(states[m + 1].db, states[n].db.actions[id].ref) {
      BlockedUntilLifted(env, states, steps, m + 1, n, id);
    } else {
      assert Lifts(states, m, states[n].db.actions[id].ref);
    }
  }

  /** Step `k` lifts the block of a subscription. */
  ghost predicate Lifts(states: seq<System>, k: nat, ref: string) {
    k + 1 < |states| && ChargingBlocked(states[k].db, ref) && !ChargingBlocked(states[k + 1].db, ref)
  }
}
