/** The invariants hold in every state of every run, and nothing is undone along a run. */
module Runs {
  import opened Wrappers
  import opened Model
  import opened System
  import opened Bindings
  import opened Books
  import opened Ledger
  import opened ChargeSafety
  import opened Growth
  import opened StepSafety
  import opened Safety
  import opened Payments
  import opened Arrivals
  import Reads

  // ---------- the invariant ----------

  ghost predicate Inv(env: Environment, sys: System) {
    && Safe(env, sys) && Reads.ReadsInv(sys) && RenewalsPaid(sys.db) && SentInv(sys)
    && UniqueKeys(sys.db.attempts) && ClaimsRun(sys.db.actions) && DeliveriesFenced(sys.db.outbound) && Arrived(sys)
  }

  lemma EmptyCharge(env: Environment)
    ensures ChargeInv(env, EMPTY, None)
  {
  }

  lemma EmptyBooks()
    ensures LedgerInv(EMPTY) && Bound(EMPTY)
  {
  }

  lemma InitSafe(env: Environment)
    ensures Safe(env, INIT)
  {
    hide ChargeInv, LedgerInv, Bound;
    EmptyCharge(env);
    EmptyBooks();
  }

  lemma InitInv(env: Environment)
    ensures Inv(env, INIT)
  {
    hide Safe;
    InitSafe(env);
  }

  lemma GrowthKeeps(s: Store, s': Store)
    requires Grows(s, s') && UniqueKeys(s.attempts) && ClaimsRun(s.actions) && DeliveriesFenced(s.outbound)
    ensures UniqueKeys(s'.attempts) && ClaimsRun(s'.actions) && DeliveriesFenced(s'.outbound)
  {
    hide UniqueKeys, ClaimsRun, DeliveriesFenced, LeasesGrow, ProcsGrow, ActionGrows, AttemptGrows, OutboundGrows;
  }

  lemma StepKeepsInv(env: Environment, sys: System, step: Step)
    requires Inv(env, sys) && Enabled(env, sys, step)
    ensures hide *; Inv(env, Next(env, sys, step))
  {
    hide Enabled, DbAfter, WorkersAfter, ReadsAfter, SentAfter, Safe, Reads.ReadsInv, RenewalsPaid, SentInv, UniqueKeys,
         ClaimsRun, DeliveriesFenced, Arrived, Balanced, Grows, GoodOutbox;
    StepKeepsSafe(env, sys, step);
    Reads.StepKeepsReads(env, sys, step);
    StepKeepsSent(env, sys, step);
    StepKeepsArrived(env, sys, step);
    StepProgress(env, sys, step);
    SafeOutbox(env, sys);
    ProgressKeepsPaid(sys.db, DbAfter(env, sys, step));
    GrowthKeeps(sys.db, DbAfter(env, sys, step));
  }

  lemma SafeOutbox(env: Environment, sys: System)
    requires Safe(env, sys)
    ensures GoodOutbox(sys.db)
  {
    hide ChargeInv, Bound, WorkersAgree, Complete, Unique, UpToDate, Story, GoodOutbox;
  }

  lemma RunStep(env: Environment, states: seq<System>, steps: seq<Step>, n: nat)
    requires Run(env, states, steps) && n < |steps|
    ensures hide *; |states| == |steps| + 1 && Enabled(env, states[n], steps[n])
            && states[n + 1] == Next(env, states[n], steps[n])
  {
    hide Enabled, Next;
    assert Leads(env, states, steps, n);
  }

  /** The invariant holds in every state of every run. */
  lemma {:induction false} RunInv(env: Environment, states: seq<System>, steps: seq<Step>, n: nat)
    requires Run(env, states, steps) && n < |states|
    ensures hide *; Inv(env, states[n])
  {
    hide Inv, Enabled, Next;
    if n == 0 {
      InitInv(env);
    } else {
      RunInv(env, states, steps, n - 1);
      RunStep(env, states, steps, n - 1);
      StepKeepsInv(env, states[n - 1], steps[n - 1]);
    }
  }

  /** Nothing is undone between any two states of a run. */
  lemma {:induction false} RunGrows(env: Environment, states: seq<System>, steps: seq<Step>, m: nat, n: nat)
    requires Run(env, states, steps) && m <= n < |states|
    ensures hide *; Grows(states[m].db, states[n].db)
    decreases n
  {
    hide Enabled, DbAfter, WorkersAfter, ReadsAfter, SentAfter, Safe, Reads.ReadsInv, RenewalsPaid, SentInv, UniqueKeys,
         ClaimsRun, DeliveriesFenced, Arrived, Grows, Balanced;
    if m == n {
      GrowsSame(states[m].db);
    } else {
      RunGrows(env, states, steps, m, n - 1);
      RunStep(env, states, steps, n - 1);
      RunInv(env, states, steps, n - 1);
      StepProgress(env, states[n - 1], steps[n - 1]);
      GrowsOn(states[m].db, states[n - 1].db, states[n].db);
    }
  }

  lemma RunLedger(env: Environment, states: seq<System>, steps: seq<Step>, n: nat)
    requires Run(env, states, steps) && n < |states|
    ensures hide *; LedgerInv(states[n].db) && Bound(states[n].db) && RenewalsPaid(states[n].db)
            && ChargeInv(env, states[n].db, None)
  {
    hide ChargeInv, Bound, LedgerInv, WorkersAgree, Reads.ReadsInv, RenewalsPaid, SentInv, UniqueKeys, ClaimsRun,
         DeliveriesFenced, Arrived, Run;
    RunInv(env, states, steps, n);
  }
}
