/** Claims: only the newest claim can finish, a finish happens once, and a live claim keeps others out. */
module Fencing {
  import opened Wrappers
  import opened Calendar
  import opened Protocol
  import opened Model
  import opened Scheduler
  import opened System
  import opened Growth
  import opened StepSafety
  import opened Runs

  // ---------- scheduled actions ----------

  /** Along a run: whoever finishes an action under a fence that is no newer than one on record earlier held its claim,
      under that fence, at that time. */
  lemma NewestClaimFinishes(env: Environment, states: seq<System>, steps: seq<Step>, m: nat, n: nat, id: string,
          token: string, fence: int, status: ActionStatus, due: Option<Instant>, class_: Option<string>)
    requires hide *; Run(env, states, steps) && m <= n < |states| && id in states[m].db.actions
    requires FinishAction(states[n].db, id, token, fence, status, due, class_).Success?
             && fence <= states[m].db.actions[id].claim.fence
    ensures states[m].db.actions[id].claim.Owned(token, fence) && states[m].db.actions[id].status.Running?
  {
    hide Run, AttemptsGrow, OutboxGrows, LeasesGrow, ProcsGrow;
    RunGrows(env, states, steps, m, n);
    assert ActionGrows(states[m].db.actions[id], states[n].db.actions[id]);
    RunClaims(env, states, steps, m);
  }

  lemma RunClaims(env: Environment, states: seq<System>, steps: seq<Step>, n: nat)
    requires Run(env, states, steps) && n < |states|
    ensures hide *; ClaimsRun(states[n].db.actions)
  {
    hide Run, Safe, Reads.ReadsInv, Payments.RenewalsPaid, Payments.SentInv, UniqueKeys, ClaimsRun, DeliveriesFenced,
         Arrivals.Arrived;
    RunInv(env, states, steps, n);
  }

  /** An action is finished at most once per fence. */
  lemma FinishedOnce(s: Store, id: string, token: string, fence: int, status: ActionStatus, due: Option<Instant>,
          class_: Option<string>, later: Store,
                     token': string, status': ActionStatus, due': Option<Instant>, class': Option<string>)
    requires FinishAction(s, id, token, fence, status, due, class_).Success? && !status.Running?
    requires Grows(FinishAction(s, id, token, fence, status, due, class_).value, later)
    ensures FinishAction(later, id, token', fence, status', due', class') == Failure(NotOwned)
  {
    hide AttemptsGrow, OutboxGrows, LeasesGrow, ProcsGrow;
    var s1 := FinishAction(s, id, token, fence, status, due, class_).value;
    assert ActionGrows(s1.actions[id], later.actions[id]);
  }

  /** A claim that is live keeps every other claim out, until the action is finished, forced or the lease runs out. */
  lemma LiveClaimExcludes(s: Store, id: string, token: string, now: Instant, lease: int)
    requires ClaimsRun(s.actions) && id in s.actions
    requires s.actions[id].claim.token.Some? && s.actions[id].claim.Live(now)
    ensures ClaimAction(s, id, token, now, lease) == Failure(NotOwned)
  {
  }

  /** Along a run: a worker takes a charge only if nobody holds a live claim on its action. */
  lemma ChargesExclusive(env: Environment, states: seq<System>, steps: seq<Step>, n: nat)
    requires hide Leads;
             Run(env, states, steps) && n < |steps| && steps[n].ClaimStep? && Enabled(env, states[n], steps[n])
    requires var w := states[n].workers[steps[n].w];
             w.actionId in states[n].db.actions
             && states[n].db.actions[w.actionId].claim.token.Some?
                && states[n].db.actions[w.actionId].claim.Live(steps[n].now)
    ensures WorkerAfter(env, states[n], steps[n]).None? && DbAfter(env, states[n], steps[n]) == states[n].db
  {
    hide Run, ClaimAction, Safe, Reads.ReadsInv, Payments.RenewalsPaid, Payments.SentInv, UniqueKeys, ClaimsRun,
         DeliveriesFenced;
    RunStep(env, states, steps, n);
    RunInv(env, states, steps, n);
    LiveClaimExcludes(states[n].db, states[n].workers[steps[n].w].actionId, steps[n].token, steps[n].now,
                      Lease(env.cfg));
  }

  // ---------- deliveries ----------

  /** What a delivery reports under a claim. */
  datatype Report = Complete(at: Instant) | Retry(next: Instant, class_: string) | DeadLetter(at: Instant,
      class_: string)

  function Reported(s: Store, id: string, token: string, fence: int, r: Report): Result<Store, Error> {
    match r
    case Complete(at) => CompleteOutbound(s, id, token, fence, at)
    case Retry(next, class_) => RetryOutbound(s, id, token, fence, next, class_)
    case DeadLetter(at, class_) => DeadLetterOutbound(s, id, token, fence, at, class_)
  }

  lemma ReportReleases(s: Store, id: string, token: string, fence: int, r: Report)
    requires Reported(s, id, token, fence, r).Success?
    ensures var s' := Reported(s, id, token, fence, r).value;
            && id in s.outbound && s.outbound[id].claim.Owned(token, fence) && s.outbound[id].state.Pending?
            && id in s'.outbound && s'.outbound[id].claim == s.outbound[id].claim.Release()
            && s'.outbound[id].attemptCount == s.outbound[id].attemptCount + 1
  {
  }

  /** A delivery is reported at most once per claim. */
  lemma ReportedOnce(s: Store, id: string, token: string, fence: int, r: Report, later: Store, token': string,
          r': Report)
    requires Reported(s, id, token, fence, r).Success? && Grows(Reported(s, id, token, fence, r).value, later)
    ensures Reported(later, id, token', fence, r') == Failure(NotOwned)
  {
    hide Reported, ActionsGrow, AttemptsGrow, LeasesGrow, ProcsGrow;
    var s1 := Reported(s, id, token, fence, r).value;
    ReportReleases(s, id, token, fence, r);
    assert OutboundGrows(s1.outbound[id], later.outbound[id]);
    ReportNeedsClaim(later, id, token', fence, r');
  }

  lemma ReportNeedsClaim(s: Store, id: string, token: string, fence: int, r: Report)
    requires id in s.outbound && !s.outbound[id].claim.Owned(token, fence)
    ensures Reported(s, id, token, fence, r) == Failure(NotOwned)
  {
  }

  /** A delivered event is never touched again: neither delivered twice nor requeued nor abandoned. */
  lemma DeliveredStays(env: Environment, states: seq<System>, steps: seq<Step>, m: nat, n: nat, id: string)
    requires hide *; Run(env, states, steps) && m <= n < |states| && id in states[m].db.outbound
    ensures id in states[n].db.outbound
    ensures var e, f := states[m].db.outbound[id], states[n].db.outbound[id];
            && e.payload == f.payload && e.id == f.id && e.version == f.version && e.ref == f.ref
               && e.eventType == f.eventType
            && e.claim.fence <= f.claim.fence && e.attemptCount <= f.attemptCount
            && (e.state.Delivered? ==> f == e)
  {
    hide Run, ActionsGrow, AttemptsGrow, LeasesGrow, ProcsGrow;
    RunGrows(env, states, steps, m, n);
  }

  /** Every delivery attempt was made under a fence of its own, also the one that is under way. */
  lemma AttemptsFenced(env: Environment, states: seq<System>, steps: seq<Step>, n: nat, id: string)
    requires hide *; Run(env, states, steps) && n < |states| && id in states[n].db.outbound
    ensures var e := states[n].db.outbound[id]; e.attemptCount + (if e.claim.token.Some? then 1 else 0) <= e.claim.fence
  {
    hide Run, Safe, Reads.ReadsInv, Payments.RenewalsPaid, Payments.SentInv, UniqueKeys, ClaimsRun;
    RunInv(env, states, steps, n);
  }

  /** Along a run: whoever reports a delivery under a fence that is no newer than one on record earlier held its claim,
      under that fence, at that time. */
  lemma NewestClaimReports(env: Environment, states: seq<System>, steps: seq<Step>, m: nat, n: nat, id: string,
          token: string, fence: int, r: Report)
    requires hide *; Run(env, states, steps) && m <= n < |states| && id in states[m].db.outbound
    requires Reported(states[n].db, id, token, fence, r).Success? && fence <= states[m].db.outbound[id].claim.fence
    ensures states[m].db.outbound[id].claim.Owned(token, fence)
  {
    hide Run, Reported, ActionsGrow, AttemptsGrow, LeasesGrow, ProcsGrow;
    RunGrows(env, states, steps, m, n);
    ReportReleases(states[n].db, id, token, fence, r);
    assert OutboundGrows(states[m].db.outbound[id], states[n].db.outbound[id]);
  }

  // ---------- processing leases ----------

  /** A processing lease is given back at most once per fence. */
  lemma ReleasedOnce(s: Store, key: string, token: string, fence: int, later: Store, token': string)
    requires ReleaseProcessorLease(s, key, token, fence).Success?
             && Grows(ReleaseProcessorLease(s, key, token, fence).value, later)
    ensures ReleaseProcessorLease(later, key, token', fence) == Failure(NotOwned)
  {
    hide ActionsGrow, AttemptsGrow, OutboxGrows, ProcsGrow;
    var s1 := ReleaseProcessorLease(s, key, token, fence).value;
    assert ClaimGrows(s1.leases[key].claim, later.leases[key].claim);
  }

  /** Along a run: whoever gives a processing lease back under a fence that is no newer than one on record earlier held
      it, under that fence, at that time. */
  lemma NewestLeaseReleases(env: Environment, states: seq<System>, steps: seq<Step>, m: nat, n: nat, key: string,
          token: string, fence: int)
    requires hide *; Run(env, states, steps) && m <= n < |states| && key in states[m].db.leases
    requires ReleaseProcessorLease(states[n].db, key, token, fence).Success?
             && fence <= states[m].db.leases[key].claim.fence
    ensures states[m].db.leases[key].claim.Owned(token, fence)
  {
    hide Run, ActionsGrow, AttemptsGrow, OutboxGrows, ProcsGrow;
    RunGrows(env, states, steps, m, n);
    assert ClaimGrows(states[m].db.leases[key].claim, states[n].db.leases[key].claim);
  }

  /** While a processing lease is live, no other event is processed under its key. */
  lemma LiveLeaseExcludes(s: Store, event: EventKey, key: string, token: string, now: Instant, lease: int)
    requires event in s.procEvents && key in s.leases && s.leases[key].running && s.leases[key].claim.Live(now)
    requires s.leases[key].activeActionId != Some(s.procEvents[event].actionId)
    ensures ClaimProcessorEvent(s, event, key, token, now, lease) == Failure(Error.Conflict)
  {
  }
}
