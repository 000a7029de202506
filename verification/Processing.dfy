/** How the processing of a webhook ends, over every run: applied, set aside, or left for somebody else. */
module Processing {
  import opened Wrappers
  import opened Calendar
  import opened Protocol
  import opened Model
  import opened Engine
  import opened System
  import opened ChargeSafety
  import opened StepSafety
  import opened Arrivals
  import opened Runs
  import opened Claims
  import Bindings
  import ChargeSteps
  import Ledger

  /** Only the two tables about processing differ. */
  predicate SameRecords(s: Store, s': Store) {
    s' == s.(procEvents := s'.procEvents, leases := s'.leases)
  }

  /** An event is closed in a state by the worker that holds it, and its lease given back. */
  predicate ClosedAs(s: Store, s': Store, ev: NormalizedEvent, state: ProcessingState, now: Instant) {
    && ev.key in s.procEvents && ev.key in s'.procEvents
    && (var e, f := s.procEvents[ev.key], s'.procEvents[ev.key];
        && f.key == e.key && f.actionId == e.actionId && f.state == state
        && f.claim == Claim(None, e.claim.fence, None)
        && f.processedAt == (if state.Processed? then Some(now) else e.processedAt)
        && s'.procEvents == s.procEvents[ev.key := f])
    && ProcessingKey(ev) in s.leases && ProcessingKey(ev) in s'.leases
    && (var l := s.leases[ProcessingKey(ev)];
        s'.leases == s.leases[ProcessingKey(ev) :=
                                ProcessingLease(l.key, false, None, Claim(None, l.claim.fence, None))])
  }

  lemma CloseOutcome(s: Store, ev: NormalizedEvent, lease: EventLease, state: ProcessingState, ref: Option<string>,
          now: Instant)
    requires CloseEvent(s, ev, lease, state, ref, now).Success?
    ensures hide *; var s' := CloseEvent(s, ev, lease, state, ref, now).value;
            SameRecords(s, s') && ClosedAs(s, s', ev, state, now)
  {
    hide ProcessingKey;
  }

  /** How a webhook ends: nothing happens, or its event is closed, and then it was applied, or no record has changed. */
  ghost predicate EndsAs(s: Store, s': Store, cfg: Config, ev: NormalizedEvent, state: Option<SubscriptionState>,
          hits: Hits, now: Instant, ids: Ids, txNow: Instant) {
    || s' == s
    || (var r := ApplyObservation(s, cfg, ev, state, hits, now, ids, txNow);
        r.Success? && SameRecords(r.value.0, s') && ClosedAs(r.value.0, s', ev, Processed, now))
    || (SameRecords(s, s') && (ClosedAs(s, s', ev, Quarantined, now)
                               || ClosedAs(s, s', ev, ProcessingState.ManualReview, now)))
  }

  lemma EventEnds(s: Store, cfg: Config, ev: NormalizedEvent, lease: EventLease, state: Option<SubscriptionState>,
          hits: Hits, now: Instant, ids: Ids, txNow: Instant)
    ensures hide *; var s' := KeptStore(s, CommitEvent(s, cfg, ev, lease, state, hits, now, ids, txNow));
            EndsAs(s, s', cfg, ev, state, hits, now, ids, txNow)
  {
    hide ApplyObservation, CloseEvent, StripeSubject, ClosedAs;
    match ApplyObservation(s, cfg, ev, state, hits, now, ids, txNow) {
      case Success((s1, ref)) =>
        if CloseEvent(s1, ev, lease, Processed, ref, now).Success? {
          CloseOutcome(s1, ev, lease, Processed, ref, now);
        }
      case Failure(e) =>
        var quarantined := CloseEvent(s, ev, lease, Quarantined,
                                      if state.Some? then StripeSubject(ev, state.value, hits) else None, now);
        if quarantined.Success? {
          CloseOutcome(s, ev, lease, Quarantined, if state.Some? then StripeSubject(ev, state.value, hits) else None,
                       now);
        }
        if CloseEvent(s, ev, lease, ProcessingState.ManualReview, None, now).Success? {
          CloseOutcome(s, ev, lease, ProcessingState.ManualReview, None, now);
        }
    }
  }

  /** A transaction that leaves its event processed has applied it. */
  lemma ProcessedApplies(s: Store, s': Store, cfg: Config, ev: NormalizedEvent, state: Option<SubscriptionState>,
          hits: Hits, now: Instant, ids: Ids, txNow: Instant)
    requires hide *; EndsAs(s, s', cfg, ev, state, hits, now, ids, txNow)
    requires ev.key in s.procEvents && !s.procEvents[ev.key].state.Processed?
             && ev.key in s'.procEvents && s'.procEvents[ev.key].state.Processed?
    ensures var r := ApplyObservation(s, cfg, ev, state, hits, now, ids, txNow);
            r.Success? && SameRecords(r.value.0, s')
  {
    hide ApplyObservation, ProcessingKey;
  }

  // ---------- runs ----------

  /** Step `n` processes a webhook of the given kind, for which `state` was fetched. */
  ghost predicate Processes(states: seq<System>, steps: seq<Step>, n: nat) {
    && n < |steps| && n + 1 < |states| && steps[n].CommitEventStep? && steps[n].w in states[n].workers
    && (var k := states[n].workers[steps[n].w];
        && k.Fetched? && k.ev.key in states[n].db.procEvents && !states[n].db.procEvents[k.ev.key].state.Processed?
        && k.ev.key in states[n + 1].db.procEvents && states[n + 1].db.procEvents[k.ev.key].state.Processed?)
  }

  lemma StepEnds(env: Environment, sys: System, step: Step)
    requires hide *; Safe(env, sys) && Enabled(env, sys, step) && step.CommitEventStep?
    ensures step.w in sys.workers && sys.workers[step.w].Fetched? && GoodSubs(sys.db)
            && TruthfulEvent(env, sys.workers[step.w].ev)
    ensures HitsAgree(sys.db, sys.workers[step.w].ev, sys.workers[step.w].state, step.hits)
    ensures var k := sys.workers[step.w];
            EndsAs(sys.db, DbAfter(env, sys, step), env.cfg, k.ev, k.state, step.hits, step.now, step.ids, step.txNow)
  {
    hide ChargeInv, Bindings.Bound, Ledger.LedgerInv, CommitEvent, HitsAgree, OwnCheckout, GoodSubs, GoodActions,
         GoodAttempts, TruthfulAttempts, NotAhead, EndsAs, TruthfulEvent;
    var k := sys.workers[step.w];
    assert Remembers(env, sys.db, k);
    ChargeSteps.Basics(env, sys.db, None);
    EventEnds(sys.db, env.cfg, k.ev, k.lease, k.state, step.hits, step.now, step.ids, step.txNow);
  }

  /** In every run the last step of a webhook changes nothing at all, or closes the event and gives its lease back; if
      it does not leave the event processed, no other record has changed. */
  lemma WebhookEnds(env: Environment, states: seq<System>, steps: seq<Step>, n: nat)
    requires hide Leads; Run(env, states, steps) && n < |steps| && n + 1 < |states| && steps[n].CommitEventStep?
    ensures steps[n].w in states[n].workers && states[n].workers[steps[n].w].Fetched?
    ensures var s, s', ev := states[n].db, states[n + 1].db, states[n].workers[steps[n].w].ev;
            || s' == s
            || (ev.key in s'.procEvents && s'.procEvents[ev.key].state.Processed?)
            || (&& SameRecords(s, s')
                && (ClosedAs(s, s', ev, Quarantined, steps[n].now)
                    || ClosedAs(s, s', ev, ProcessingState.ManualReview, steps[n].now)))
  {
    hide Run, Safe, Enabled, DbAfter, WorkersAfter, ReadsAfter, SentAfter, Arrived, ApplyObservation, HitsAgree,
         TruthfulEvent, GoodSubs, ProcessingKey;
    RunStep(env, states, steps, n);
    RunBasics(env, states, steps, n);
    StepEnds(env, states[n], steps[n]);
  }

  /** In every run a step that leaves its event processed has written what applying the event writes. */
  lemma WebhookApplied(env: Environment, states: seq<System>, steps: seq<Step>, n: nat)
    requires hide Leads; Run(env, states, steps) && Processes(states, steps, n)
    ensures GoodSubs(states[n].db) && TruthfulEvent(env, states[n].workers[steps[n].w].ev)
    ensures var s, s', k, step := states[n].db, states[n + 1].db, states[n].workers[steps[n].w], steps[n];
            var r := ApplyObservation(s, env.cfg, k.ev, k.state, step.hits, step.now, step.ids, step.txNow);
            HitsAgree(s, k.ev, k.state, step.hits) && r.Success? && SameRecords(r.value.0, s')
  {
    hide Run, Safe, Enabled, DbAfter, WorkersAfter, ReadsAfter, SentAfter, Arrived, ApplyObservation, HitsAgree,
         TruthfulEvent, GoodSubs, EndsAs;
    RunStep(env, states, steps, n);
    RunBasics(env, states, steps, n);
    StepEnds(env, states[n], steps[n]);
    var k := states[n].workers[steps[n].w];
    ProcessedApplies(states[n].db, states[n + 1].db, env.cfg, k.ev, k.state, steps[n].hits, steps[n].now, steps[n].ids,
                     steps[n].txNow);
  }
}
