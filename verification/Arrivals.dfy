/** Processor events that have arrived: each is taken up by one worker only, under an identifier of its own. */
module Arrivals {
  import opened Wrappers
  import opened Calendar
  import opened Model
  import opened Engine
  import opened System
  import opened Books
  import opened Growth
  import opened StepSafety

  /** The event that a worker has just received is still waiting to be taken up. */
  ghost predicate Untouched(s: Store, k: Worker) {
    k.Received? ==> k.ev.key in s.procEvents && s.procEvents[k.ev.key].state.Pending?
  }

  /** Two workers that have received one and the same event. */
  predicate Rivals(k: Worker, l: Worker) {
    k.Received? && l.Received? && k.ev.key == l.ev.key
  }

  ghost predicate Arrived(sys: System) {
    && UniqueWork(sys.db.procEvents)
    && (forall w :: w in sys.workers ==> Untouched(sys.db, sys.workers[w]))
    && (forall v, w :: v in sys.workers && w in sys.workers && Rivals(sys.workers[v], sys.workers[w]) ==> v == w)
  }

  /** Only the taking of an event ends its waiting. */
  lemma WaitsOn(env: Environment, sys: System, step: Step, key: EventKey)
    requires hide *; Safe(env, sys) && Enabled(env, sys, step) && key in sys.db.procEvents
             && sys.db.procEvents[key].state.Pending?
    requires step.LeaseStep? ==>
               step.w in sys.workers && sys.workers[step.w].Received? && sys.workers[step.w].ev.key != key
    ensures key in DbAfter(env, sys, step).procEvents && DbAfter(env, sys, step).procEvents[key].state.Pending?
  {
    hide Safe, Enabled, DbAfter, ActionsSteady, AttemptsGrow, OutboxSteady, LeasesSteady, Balanced;
    if Takes(step) {
      TakesKeep(env, sys, step, key);
    } else {
      StepAdvance(env, sys, step);
    }
  }

  lemma OthersKept(s: Store, taken: EventKey, processingKey: string, token: string, now: Instant, key: EventKey)
    requires ClaimProcessorEvent(s, taken, processingKey, token, now, 120).Success? && key in s.procEvents
             && key != taken
    ensures var s' := ClaimProcessorEvent(s, taken, processingKey, token, now, 120).value.0;
            key in s'.procEvents && s'.procEvents[key] == s.procEvents[key]
  {
  }

  lemma LeaseKeeps(env: Environment, sys: System, step: Step, key: EventKey)
    requires Enabled(env, sys, step) && step.LeaseStep? && key in sys.db.procEvents && sys.workers[step.w].ev.key != key
    ensures hide *; key in DbAfter(env, sys, step).procEvents
            && DbAfter(env, sys, step).procEvents[key] == sys.db.procEvents[key]
  {
    hide ClaimProcessorEvent, ProcessingKey;
    var ev := sys.workers[step.w].ev;
    if ClaimProcessorEvent(sys.db, ev.key, ProcessingKey(ev), step.token, step.now, 120).Success? {
      OthersKept(sys.db, ev.key, ProcessingKey(ev), step.token, step.now, key);
    }
  }

  lemma ReceiveKeeps(env: Environment, sys: System, step: Step, key: EventKey)
    requires Enabled(env, sys, step) && step.ReceiveStep? && key in sys.db.procEvents
    ensures hide *; key in DbAfter(env, sys, step).procEvents
            && DbAfter(env, sys, step).procEvents[key] == sys.db.procEvents[key]
  {
    hide Enabled;
  }

  lemma TakesKeep(env: Environment, sys: System, step: Step, key: EventKey)
    requires hide *; Enabled(env, sys, step) && Takes(step) && key in sys.db.procEvents
    requires step.LeaseStep? ==>
               step.w in sys.workers && sys.workers[step.w].Received? && sys.workers[step.w].ev.key != key
    ensures key in DbAfter(env, sys, step).procEvents
            && DbAfter(env, sys, step).procEvents[key] == sys.db.procEvents[key]
  {
    hide Enabled, DbAfter;
    if step.LeaseStep? {
      LeaseKeeps(env, sys, step, key);
    } else if step.ReceiveStep? {
      ReceiveKeeps(env, sys, step, key);
    } else {
      DeliveryStepTables(env, sys, step);
    }
  }

  /** Whom a step makes wait for an event that nobody else waits for. */
  lemma Newcomer(env: Environment, sys: System, step: Step)
    requires Enabled(env, sys, step)
    ensures hide *; var k := WorkerAfter(env, sys, step);
            k.Some? && k.value.Received? ==>
              step.ReceiveStep? && k.value.ev == step.ev && step.ev.key !in sys.db.procEvents
                                             && Untouched(DbAfter(env, sys, step), k.value)
    ensures step.LeaseStep? ==> step.w in sys.workers && sys.workers[step.w].Received?
    ensures step.ReceiveStep? ==> step.w !in sys.workers
  {
  }

  lemma StepKeepsArrived(env: Environment, sys: System, step: Step)
    requires Safe(env, sys) && Arrived(sys) && Enabled(env, sys, step)
    ensures hide *; Arrived(Next(env, sys, step))
  {
    hide Safe, Enabled, DbAfter, WorkerAfter, ReadsAfter, SentAfter, UniqueWork, Balanced, ActionsGrow, AttemptsGrow,
         OutboxGrows, LeasesGrow;
    StepProgress(env, sys, step);
    Newcomer(env, sys, step);
    OthersWait(env, sys, step);
  }

  lemma OthersWait(env: Environment, sys: System, step: Step)
    requires Safe(env, sys) && Arrived(sys) && Enabled(env, sys, step)
    ensures hide *; forall w :: w in sys.workers && Actor(step) != Some(w) ==>
                          Untouched(DbAfter(env, sys, step), sys.workers[w])
  {
    hide Safe, Enabled, DbAfter, WorkerAfter, UniqueWork;
    Newcomer(env, sys, step);
    forall w | w in sys.workers && Actor(step) != Some(w) ensures Untouched(DbAfter(env, sys, step), sys.workers[w]) {
      if sys.workers[w].Received? {
        WaitsOn(env, sys, step, sys.workers[w].ev.key);
      }
    }
  }
}
