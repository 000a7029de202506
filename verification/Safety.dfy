/** What holds in every state of every run. */
module Safety {
  import opened Wrappers
  import opened Calendar
  import opened Model
  import opened Transition
  import opened Scheduler
  import opened System
  import opened Bindings
  import opened Books
  import opened Ledger
  import opened ChargeSafety
  import opened ChargeSteps
  import opened Growth
  import opened StepSafety

  // ---------- what workers remember ----------

  lemma PreparedRemembers(env: Environment, s: Store, id: string, choice: Choice, attemptId: string, reference: string)
    requires ChargeInv(env, s, None) && id in s.actions && Chooses(s, id, choice)
    ensures var r := EnsurePrepared(s, env.cfg, s.actions[id], choice, attemptId, reference);
            r.Success? ==> r.value.1 in r.value.0.attempts && r.value.0.attempts[r.value.1].actionId == id
  {
    hide GoodSubs, GoodAttempts, TruthfulAttempts, RefusedBefore, Numbered, Priced, WorkingAttempts, OnTarget, NotAhead,
         Renewing, Counted, NoneWith, NextNumber, AddCalendarMonths;
  }

  lemma ClaimedRemembers(env: Environment, s: Store, actionId: string, attemptId: string, token: string, now: Instant)
    requires ChargeInv(env, s, None) && attemptId in s.attempts && s.attempts[attemptId].actionId == actionId
    ensures var r := ClaimCharge(s, env.cfg, actionId, attemptId, token, now);
            r.Success? ==> Holds(r.value.0, r.value.1, r.value.2)
  {
    hide ChargeInv, ClaimAction;
    AttemptOf(env, s, attemptId);
    if ClaimCharge(s, env.cfg, actionId, attemptId, token, now).Success? {
      ClaimedKind(s, actionId, token, now, Lease(env.cfg));
      ClaimedAttempts(s, actionId, token, now, Lease(env.cfg));
    }
  }

  /** The worker that took the step remembers what is stored. */
  lemma ActorRemembers(env: Environment, sys: System, step: Step)
    requires Safe(env, sys) && Enabled(env, sys, step)
             && (step.PrepareStep? || step.ClaimStep? || step.PickUncertainStep?)
    ensures hide *; var k := WorkerAfter(env, sys, step); k.Some? ==> Remembers(env, DbAfter(env, sys, step), k.value)
  {
    hide ChargeInv, Bound, LedgerInv, EnsurePrepared, GiveUp, ClaimCharge, TruthfulReply, TruthfulEvent, SameEvent,
         SameAttempt, EarliestAction, Chooses;
    var s := sys.db;
    match step
    case PrepareStep(_, id, choice, attemptId, reference, now) =>
      PickedAction(s, now, ActionStatus.Pending, Renew, id);
      PreparedRemembers(env, s, id, choice, attemptId, reference);
    case PickUncertainStep(_, id, attemptId, now, ids, txNow) => InFlightOpen(s, id, attemptId);
    case ClaimStep(w, token, now) =>
      assert Remembers(env, s, sys.workers[w]);
      ClaimedRemembers(env, s, sys.workers[w].actionId, sys.workers[w].attemptId, token, now);
  }

  lemma StoredUnder(s: Store, id: string)
    requires LedgerInv(s) && id in s.outbound
    ensures s.outbound[id].id == id
  {
    hide Complete, Unique, UpToDate, Story;
    assert GoodEvent(s, id);
  }

  lemma TakerRemembers(env: Environment, sys: System, step: Step)
    requires LedgerInv(sys.db) && Enabled(env, sys, step) && step.TakeEventStep?
    ensures hide *; var k := WorkerAfter(env, sys, step); k.Some? ==> Remembers(env, DbAfter(env, sys, step), k.value)
  {
    hide OutboundDue, LedgerInv;
    StoredUnder(sys.db, step.id);
  }

  lemma OtherActorRemembers(env: Environment, sys: System, step: Step)
    requires Safe(env, sys) && Enabled(env, sys, step)
             && !(step.PrepareStep? || step.ClaimStep? || step.PickUncertainStep? || step.TakeEventStep?)
    ensures hide *; var k := WorkerAfter(env, sys, step); k.Some? ==> Remembers(env, DbAfter(env, sys, step), k.value)
  {
    hide ChargeInv, Bound, ClaimProcessorEvent, TruthfulReply, TruthfulEvent, SameAttempt, LedgerInv;
    var k := WorkerAfter(env, sys, step);
    if k.Some? && Actor(step).Some? && Actor(step).value in sys.workers {
      assert Remembers(env, sys.db, sys.workers[Actor(step).value]);
    }
  }

  lemma StepKeepsWorkers(env: Environment, sys: System, step: Step)
    requires Safe(env, sys) && Enabled(env, sys, step)
    ensures hide *; WorkersAgree(env, Next(env, sys, step))
  {
    hide Enabled, DbAfter, WorkerAfter, ReadsAfter, SentAfter, Remembers, ChargeInv, Bound, LedgerInv, Grows, Balanced;
    StepProgress(env, sys, step);
    if step.PrepareStep? || step.ClaimStep? || step.PickUncertainStep? {
      ActorRemembers(env, sys, step);
    } else if step.TakeEventStep? {
      TakerRemembers(env, sys, step);
    } else {
      OtherActorRemembers(env, sys, step);
    }
    forall w | w in sys.workers ensures Remembers(env, DbAfter(env, sys, step), sys.workers[w]) {
      RemembersLater(env, sys.db, DbAfter(env, sys, step), sys.workers[w]);
    }
  }

  lemma GoodRows(env: Environment, s: Store)
    requires ChargeInv(env, s, None)
    ensures forall ref :: ref in s.subs ==> GoodRow(s.subs[ref])
  {
    hide GoodActions, GoodAttempts, TruthfulAttempts, RefusedBefore, Numbered, Priced, WorkingAttempts, OnTarget,
         NotAhead, Renewing, Counted, GoodRow;
  }

  lemma StepKeepsSafe(env: Environment, sys: System, step: Step)
    requires Safe(env, sys) && Enabled(env, sys, step)
    ensures hide *; Safe(env, Next(env, sys, step))
  {
    hide Enabled, DbAfter, WorkersAfter, ReadsAfter, SentAfter, WorkersAgree, ChargeInv, Bound, LedgerInv, Grows,
         Balanced, GoodRow;
    StepKeepsWorkers(env, sys, step);
    StepKeepsCharge(env, sys, step);
    StepProgress(env, sys, step);
    BalancedKeepsBound(sys.db, DbAfter(env, sys, step));
    GoodRows(env, sys.db);
    BalancedKeepsLedger(sys.db, DbAfter(env, sys, step));
  }
}
