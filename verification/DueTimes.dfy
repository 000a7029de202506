/**
 * When work is taken up, over every run: never before it is due, and never refused once it is. A renewal is charged
 * when its period begins, a subscription ended when its period or its dunning does, a refused charge tried again after
 * the delay of its attempt.
 */
module DueTimes {
  import opened Wrappers
  import opened Calendar
  import opened Model
  import opened Transition
  import opened Engine
  import opened Scheduler
  import opened System
  import opened Books
  import opened ChargeSafety
  import opened Growth
  import opened StepSafety
  import opened Arrivals
  import opened Runs
  import opened Expiry
  import opened Cancellations
  import opened Claims
  import opened Endings
  import opened Dunning
  import opened Arrears
  import Bindings
  import ChargeSteps
  import Ledger
  import Payments

  // ---------- what an action waits for ----------

  /** Some attempt of the action is on record. */
  ghost predicate Attempted(s: Store, id: string) {
    exists t :: t in s.attempts && s.attempts[t].actionId == id
  }

  /** An expiry is pending until its target; a renewal without an attempt is, too, or is finished. */
  ghost predicate Dated(s: Store, id: string)
    requires id in s.actions
  {
    var a := s.actions[id];
    if a.kind.Expire? then a.status.Pending? ==> a.dueAt == a.target else AtTarget(a) || Attempted(s, id)
  }

  lemma StaysAttempted(s: Store, s': Store, id: string)
    requires Attempted(s, id) && AttemptsGrow(s.attempts, s'.attempts)
    ensures Attempted(s', id)
  {
    hide UniqueKeys;
    var t :| t in s.attempts && s.attempts[t].actionId == id;
    assert AttemptGrows(s.attempts[t], s'.attempts[t]);
  }

  lemma OldExpiryDated(env: Environment, sys: System, step: Step, id: string)
    requires hide *; Safe(env, sys) && Enabled(env, sys, step) && id in sys.db.actions
             && sys.db.actions[id].kind.Expire? && ExpirySettled(sys.db, id) && Dated(sys.db, id)
    ensures id in DbAfter(env, sys, step).actions && Dated(DbAfter(env, sys, step), id)
  {
    hide ChargeInv, Bindings.Bound, Ledger.LedgerInv, WorkersAgree, Enabled, DbAfter, AttemptsGrow, OutboxGrows,
         LeasesGrow, ProcsGrow, GoodSubs, GoodActions, GoodAttempts, TruthfulAttempts, NotAhead, Balanced, Attempted;
    var a, s' := sys.db.actions[id], DbAfter(env, sys, step);
    StepProgress(env, sys, step);
    assert ActionGrows(a, s'.actions[id]);
    if a.status.Pending? {
      ChargeSteps.Basics(env, sys.db, None);
      KeyOfAction(sys.db, id);
      StepSpares(env, sys, step, a.ref, id);
    }
  }

  lemma OldRenewalDated(env: Environment, sys: System, step: Step, id: string)
    requires hide *; Safe(env, sys) && Enabled(env, sys, step) && id in sys.db.actions
             && sys.db.actions[id].kind.Renew? && Dated(sys.db, id)
    ensures id in DbAfter(env, sys, step).actions && Dated(DbAfter(env, sys, step), id)
  {
    hide Safe, Enabled, DbAfter, ActionsGrow, OutboxGrows, LeasesGrow, ProcsGrow, AttemptsGrow, Balanced, Dealt,
         Attempted, Claimable;
    var s, s' := sys.db, DbAfter(env, sys, step);
    StepProgress(env, sys, step);
    IdentityKept(s, s', id);
    if Attempted(s, id) {
      StaysAttempted(s, s', id);
    } else if step.PrepareStep? {
      PrepareStepDealt(env, sys, step);
    } else if step.ClaimStep? {
      ClaimStepDealt(env, sys, step);
      ClaimedAttempted(env, sys, step);
    } else {
      StepKept(env, sys, step);
      assert StillWaits(s.actions[id], s'.actions[id]) || RefusalOf(s, s', id);
      if !StillWaits(s.actions[id], s'.actions[id]) {
        RefusalAttempted(s, s', id);
      }
    }
  }

  lemma RefusalAttempted(s: Store, s': Store, id: string)
    requires RefusalOf(s, s', id)
    ensures Attempted(s', id)
  {
    var t :| Refuses(s, s', t) && s'.attempts[t].actionId == id;
  }

  /** A worker that is about to take a charge holds an attempt of it. */
  lemma ClaimedAttempted(env: Environment, sys: System, step: Step)
    requires hide Safe, Enabled; Safe(env, sys) && Enabled(env, sys, step) && step.ClaimStep?
    ensures step.w in sys.workers && sys.workers[step.w].Ready? && Attempted(sys.db, sys.workers[step.w].actionId)
  {
    hide ChargeInv, Bindings.Bound, Ledger.LedgerInv;
    assert Remembers(env, sys.db, sys.workers[step.w]);
  }

  lemma NewActionDated(env: Environment, sys: System, step: Step, id: string)
    requires hide *; Safe(env, sys) && Enabled(env, sys, step) && id !in sys.db.actions
             && id in DbAfter(env, sys, step).actions
    ensures Dated(DbAfter(env, sys, step), id)
  {
    hide Safe, Enabled, DbAfter, CanceledRightly, DunningExpiry, Dealt, Attempted, Claimable;
    if DbAfter(env, sys, step).actions[id].kind.Expire? {
      StepLawful(env, sys, step);
      assert Accounted(sys.db, DbAfter(env, sys, step), id, DunningExpiry(env, sys, step));
    } else if step.PrepareStep? {
      PrepareStepDealt(env, sys, step);
    } else if step.ClaimStep? {
      ClaimStepDealt(env, sys, step);
    } else {
      StepKept(env, sys, step);
    }
  }

  /** In every state of every run expiries and first charges wait for their time. */
  lemma {:induction false} RunDated(env: Environment, states: seq<System>, steps: seq<Step>, n: nat, id: string)
    requires hide *; Run(env, states, steps) && n < |states| && id in states[n].db.actions
    ensures Dated(states[n].db, id)
    decreases n
  {
    hide Run, Safe, Enabled, DbAfter, WorkersAfter, ReadsAfter, SentAfter, ClaimsRun, Arrived, ExpirySettled, Dated;
    RunLength(env, states, steps);
    StartsEmpty(env, states, steps);
    RunBasics(env, states, steps, n - 1);
    RunStep(env, states, steps, n - 1);
    if id in states[n - 1].db.actions {
      RunDated(env, states, steps, n - 1, id);
      RunSettled(env, states, steps, n - 1);
      if states[n - 1].db.actions[id].kind.Expire? {
        OldExpiryDated(env, states[n - 1], steps[n - 1], id);
      } else {
        OldRenewalDated(env, states[n - 1], steps[n - 1], id);
      }
    } else {
      NewActionDated(env, states[n - 1], steps[n - 1], id);
    }
  }

  // ---------- not before it is due ----------

  /** What a scheduler picks is due, or was left behind by somebody whose lease has run out. */
  lemma PickedDue(s: Store, now: Instant, kind: ActionKind, id: string)
    requires EarliestAction(s, now, ActionStatus.Pending, [kind], id)
    ensures id in s.actions && s.actions[id].kind == kind
    ensures var a := s.actions[id];
            && !a.claim.Live(now) && (a.status.Running? || (a.status.Pending? && a.dueAt <= now))
            && (kind.Renew? ==> a.ref in s.subs && !s.subs[a.ref].chargingBlocked)
  {
  }

  lemma FirstOfAction(s: Store, id: string)
    requires Chooses(s, id, Anew(1))
    ensures !Attempted(s, id)
  {
  }

  /** The first charge of a renewal is prepared when the period that it pays for has begun, and not before. */
  lemma FirstChargeWhenDue(env: Environment, states: seq<System>, steps: seq<Step>, n: nat)
    requires hide *; Run(env, states, steps) && n < |steps| && steps[n].PrepareStep? && steps[n].choice == Anew(1)
    ensures n < |states| && steps[n].id in states[n].db.actions
            && var ref := states[n].db.actions[steps[n].id].ref;
               ref in states[n].db.subs && steps[n].now >= states[n].db.subs[ref].periodEnd
  {
    hide Run, Safe, Enabled, Next, ClaimsRun, Arrived, Dated;
    RunLength(env, states, steps);
    RunStep(env, states, steps, n);
    PreparesDue(env, states[n], steps[n]);
    RunDated(env, states, steps, n, steps[n].id);
    RunRenewals(env, states, steps, n, steps[n].id);
    FirstDated(states[n].db, steps[n].id, steps[n].now);
  }

  lemma PreparesDue(env: Environment, sys: System, step: Step)
    requires Enabled(env, sys, step) && step.PrepareStep?
    ensures step.id in sys.db.actions && sys.db.actions[step.id].kind.Renew? && Chooses(sys.db, step.id, step.choice)
    ensures var a := sys.db.actions[step.id];
            && !a.claim.Live(step.now) && (a.status.Running? || (a.status.Pending? && a.dueAt <= step.now))
            && a.ref in sys.db.subs && !sys.db.subs[a.ref].chargingBlocked
  {
    hide EarliestAction, Chooses;
    PickedDue(sys.db, step.now, Renew, step.id);
  }

  lemma FirstDated(s: Store, id: string, now: Instant)
    requires id in s.actions && s.actions[id].kind.Renew? && Dated(s, id) && Chooses(s, id, Anew(1))
    requires var a := s.actions[id]; a.status.Running? || (a.status.Pending? && a.dueAt <= now)
    ensures s.actions[id].status.Pending? && now >= s.actions[id].target
  {
    FirstOfAction(s, id);
  }

  /** A renewal that can be claimed is for the period that follows the current one. */
  lemma RunRenewals(env: Environment, states: seq<System>, steps: seq<Step>, n: nat, id: string)
    requires hide *; Run(env, states, steps) && n < |states| && id in states[n].db.actions
    ensures var a := states[n].db.actions[id];
            a.kind.Renew? && Claimable(a.status) ==>
              a.ref in states[n].db.subs && a.target == states[n].db.subs[a.ref].periodEnd
  {
    hide Run, Bindings.Bound, Ledger.LedgerInv, Payments.RenewalsPaid, GoodSubs, GoodActions, GoodAttempts, Priced,
         TruthfulAttempts, RefusedBefore, Numbered, WorkingAttempts, NotAhead, Renewing, Counted;
    RunLedger(env, states, steps, n);
  }

  /** An expiry is carried out when the period or the dunning that it ends is over, and not before. */
  lemma ExpiryWhenDue(env: Environment, states: seq<System>, steps: seq<Step>, n: nat)
    requires hide *; Run(env, states, steps) && n < |steps| && steps[n].ExpireStep?
    ensures n < |states| && steps[n].id in states[n].db.actions && states[n].db.actions[steps[n].id].kind.Expire?
            && steps[n].now >= states[n].db.actions[steps[n].id].target
  {
    hide Run, Safe, Enabled, Next, ClaimsRun, Arrived, Attempted;
    RunLength(env, states, steps);
    RunStep(env, states, steps, n);
    ExpiresDue(env, states[n], steps[n]);
    RunDated(env, states, steps, n, steps[n].id);
    RunSettled(env, states, steps, n);
    assert ExpirySettled(states[n].db, steps[n].id);
  }

  lemma ExpiresDue(env: Environment, sys: System, step: Step)
    requires Enabled(env, sys, step) && step.ExpireStep?
    ensures step.id in sys.db.actions && sys.db.actions[step.id].kind.Expire?
    ensures var a := sys.db.actions[step.id];
            !a.claim.Live(step.now) && (a.status.Running? || (a.status.Pending? && a.dueAt <= step.now))
  {
    hide EarliestAction;
    PickedDue(sys.db, step.now, Expire, step.id);
  }

  // ---------- a refused charge ----------

  /** An attempt of renewal `x` is refused in step `j`. */
  ghost predicate RefusedIn(states: seq<System>, j: nat, x: string) {
    j + 1 < |states| && RefusalOf(states[j].db, states[j + 1].db, x)
  }

  /** Step `j` takes renewal `x`. */
  ghost predicate TakenIn(env: Environment, states: seq<System>, steps: seq<Step>, j: nat, x: string) {
    j < |steps| && j < |states| && TakesAction(env, states[j], steps[j], x)
  }

  /** A renewal that, as long as it waits, waits until `due`. */
  predicate WaitsUntil(s: Store, x: string, due: Instant) {
    x in s.actions && s.actions[x].kind.Renew? && (s.actions[x].status.Pending? ==> s.actions[x].dueAt == due)
  }

  /** A renewal that waits or is finished. */
  predicate Rests(s: Store, x: string) {
    x in s.actions && (s.actions[x].status.Pending? || !Claimable(s.actions[x].status))
  }

  lemma WaitsOn(env: Environment, sys: System, step: Step, x: string, due: Instant)
    requires hide *; Safe(env, sys) && Enabled(env, sys, step) && WaitsUntil(sys.db, x, due)
             && !RefusalOf(sys.db, DbAfter(env, sys, step), x)
    ensures WaitsUntil(DbAfter(env, sys, step), x, due)
    ensures Rests(sys.db, x) && !TakesAction(env, sys, step, x) ==> Rests(DbAfter(env, sys, step), x)
  {
    hide Safe, Enabled, DbAfter, Dealt, Claimable, RefusalOf, TakesAction;
    if step.PrepareStep? {
      PrepareStepDealt(env, sys, step);
    } else if step.ClaimStep? {
      ClaimStepDealt(env, sys, step);
      if !TakesAction(env, sys, step, x) { ClaimTakes(env, sys, step, x); }
    } else {
      StepKept(env, sys, step);
    }
  }

  /** A worker that does not take the action it has picked changes nothing. */
  lemma ClaimTakes(env: Environment, sys: System, step: Step, x: string)
    requires hide *; Enabled(env, sys, step) && step.ClaimStep? && !TakesAction(env, sys, step, x)
    ensures DbAfter(env, sys, step) == sys.db
            || (step.w in sys.workers && sys.workers[step.w].Ready? && sys.workers[step.w].actionId != x)
  {
    hide ClaimCharge;
  }

  lemma {:induction false} WaitsAlong(env: Environment, states: seq<System>, steps: seq<Step>, m: nat, n: nat,
          x: string, due: Instant)
    requires hide Leads; Run(env, states, steps) && m <= n < |states| && WaitsUntil(states[m].db, x, due)
    requires forall j: nat :: m <= j < n ==> !RefusedIn(states, j, x)
    ensures WaitsUntil(states[n].db, x, due)
    ensures Rests(states[m].db, x) && (forall j: nat :: m <= j < n ==> !TakenIn(env, states, steps, j, x)) ==>
              Rests(states[n].db, x)
    decreases n
  {
    hide Run, Safe, Enabled, DbAfter, WorkersAfter, ReadsAfter, SentAfter, ClaimsRun, Arrived, TakesAction, RefusalOf,
         WaitsUntil, Rests;
    RunLength(env, states, steps);
    if m < n {
      WaitsAlong(env, states, steps, m, n - 1, x, due);
      RunBasics(env, states, steps, n - 1);
      RunStep(env, states, steps, n - 1);
      assert !RefusedIn(states, n - 1, x);
      WaitsOn(env, states[n - 1], steps[n - 1], x, due);
      assert TakesAction(env, states[n - 1], steps[n - 1], x) ==> TakenIn(env, states, steps, n - 1, x);
    }
  }

  /** Step `m` refuses attempt `t` and leaves its renewal waiting for the delay of that attempt. */
  ghost predicate RefusedForNow(env: Environment, states: seq<System>, m: nat, t: string) {
    && m + 1 < |states| && Refuses(states[m].db, states[m + 1].db, t)
    && !IsLast(env.cfg, states[m + 1].db.attempts[t]) && states[m + 1].db.attempts[t].completedAt.Some?
    && states[m].db.attempts[t].actionId in states[m].db.actions
    && Claimable(states[m].db.actions[states[m].db.attempts[t].actionId].status)
  }

  lemma RefusedWaits(env: Environment, states: seq<System>, steps: seq<Step>, m: nat, t: string)
    requires hide Leads; Run(env, states, steps) && RefusedForNow(env, states, m, t)
    ensures var u := states[m + 1].db.attempts[t];
            1 <= u.number <= |env.cfg.retryDelays|
            && u.actionId in states[m + 1].db.actions
            && states[m + 1].db.actions[u.actionId].status.Pending?
            && states[m + 1].db.actions[u.actionId].dueAt
               == u.completedAt.value + env.cfg.retryDelays[u.number - 1]
            && states[m + 1].db.actions[u.actionId].kind.Renew?
  {
    hide Run, IsLast, ActionsGrow, OutboxGrows, LeasesGrow, ProcsGrow, ChargeInv, Bindings.Bound, Ledger.LedgerInv,
         Payments.RenewalsPaid, UniqueKeys;
    RunLength(env, states, steps);
    RefusalHandled(env, states, steps, m, t);
    RunGrows(env, states, steps, m, m + 1);
    RunLedger(env, states, steps, m + 1);
    AttemptAction(env, states[m + 1].db, t);
    assert AttemptGrows(states[m].db.attempts[t], states[m + 1].db.attempts[t]);
    assert !IsLast(env.cfg, states[m + 1].db.attempts[t]) ==>
             states[m + 1].db.attempts[t].number < |env.cfg.retryDelays| by {
               NotLast(env, states[m + 1].db.attempts[t]);
             }
  }

  lemma NotLast(env: Environment, t: ChargeAttempt)
    ensures !IsLast(env.cfg, t) ==> t.number < |env.cfg.retryDelays|
  {
    hide RetryableCode;
  }

  /** After a refusal that may be tried again, and until the next one of that renewal, the waiting renewal is not taken
      up before the delay of the refused attempt has passed. It is taken up while it does not wait only if a worker that
      had picked it before has taken it in between, and no longer holds it. */
  lemma RetryWhenDue(env: Environment, states: seq<System>, steps: seq<Step>, m: nat, n: nat, t: string)
    requires hide Leads; Run(env, states, steps) && m < n < |steps| && RefusedForNow(env, states, m, t)
    requires steps[n].PrepareStep? && steps[n].id == states[m + 1].db.attempts[t].actionId
    requires forall j: nat :: m < j < n ==> !RefusedIn(states, j, steps[n].id)
    ensures var u := states[m + 1].db.attempts[t];
            && 1 <= u.number <= |env.cfg.retryDelays| && steps[n].id in states[n].db.actions
            && var a := states[n].db.actions[steps[n].id];
               && (a.status.Pending? ==> steps[n].now >= u.completedAt.value + env.cfg.retryDelays[u.number - 1])
               && (!a.status.Pending? ==> a.status.Running? && !a.claim.Live(steps[n].now)
                                          && exists j: nat :: m < j < n && TakenIn(env, states, steps, j, steps[n].id))
  {
    hide Run, Enabled, Next, RefusedIn, TakenIn, IsLast, Refuses, Claimable;
    RunLength(env, states, steps);
    RefusedWaits(env, states, steps, m, t);
    var x := steps[n].id;
    WaitsAlong(env, states, steps, m + 1, n, x, states[m + 1].db.actions[x].dueAt);
    RunStep(env, states, steps, n);
    PreparesDue(env, states[n], steps[n]);
    assert Claimable(ActionStatus.Running) by { RunningClaimable(); }
  }

  lemma RunningClaimable()
    ensures Claimable(ActionStatus.Running)
  {
  }

  // ---------- not refused once it is due ----------

  lemma Least(f: map<string, int>) returns (x: string)
    requires f != map[]
    ensures x in f && forall y :: y in f ==> f[x] <= f[y]
    decreases |f|
  {
    x :| x in f;
    var rest := f - {x};
    if rest != map[] {
      assert |rest| < |f| by {
        assert rest.Keys == f.Keys - {x};
        assert |rest| == |rest.Keys| && |f| == |f.Keys|;
      }
      var y := Least(rest);
      assert forall z :: z in f && z != x ==> z in rest && rest[z] == f[z];
      if f[y] < f[x] { x := y; }
    } else {
      assert forall z :: z in f && z != x ==> z in rest;
    }
  }

  /** A renewal that waits and is due, or that was left behind by somebody whose lease has run out. */
  ghost predicate Ready(s: Store, id: string, kind: ActionKind, status: ActionStatus, now: Instant) {
    && id in s.actions && s.actions[id].kind == kind
    && (s.actions[id].status.Running? || (s.actions[id].status == status && s.actions[id].dueAt <= now))
    && (s.actions[id].claim.leaseUntil.None? || s.actions[id].claim.leaseUntil.value <= now)
    && (kind.Renew? ==> s.actions[id].ref in s.subs && !s.subs[s.actions[id].ref].chargingBlocked)
  }

  /** Among the actions that are ready, one is offered. */
  lemma ReadyOffered(s: Store, now: Instant, kind: ActionKind, status: ActionStatus, x: string) returns (id: string)
    requires Ready(s, x, kind, status, now) && (status.Pending? || status.Uncertain?)
    ensures EarliestAction(s, now, status, [kind], id)
  {
    var due := map y | y in s.actions && ActionDue(s, s.actions[y], now, status)
                       && KindAllowed([kind], s.actions[y].kind) :: s.actions[y].dueAt;
    assert x in due;
    id := Least(due);
    forall other | other in s.actions && ActionDue(s, s.actions[other], now, status)
                   && KindAllowed([kind], s.actions[other].kind)
      ensures s.actions[id].dueAt <= s.actions[other].dueAt
    {
      assert other in due;
    }
  }

  lemma FirstOpen(s: Store, id: string, q: string) returns (t: string)
    requires q in s.attempts && s.attempts[q].actionId == id && IsOpen(s.attempts[q].status)
    ensures FirstWith(s, id, IsOpen, t)
  {
    var open := map t | t in s.attempts && s.attempts[t].actionId == id && IsOpen(s.attempts[t].status) ::
                  s.attempts[t].number as int;
    assert q in open;
    t := Least(open);
    forall other | other in s.attempts && s.attempts[other].actionId == id && IsOpen(s.attempts[other].status)
      ensures s.attempts[t].number <= s.attempts[other].number
    {
      assert other in open;
    }
  }

  lemma NextOffered(s: Store, id: string) returns (n: AttemptNumber)
    ensures NextNumber(s, id, n)
  {
    n := 1;
    if q :| q in s.attempts && s.attempts[q].actionId == id {
      var all := map t | t in s.attempts && s.attempts[t].actionId == id :: -(s.attempts[t].number as int);
      assert q in all;
      var t := Least(all);
      n := s.attempts[t].number + 1;
      forall other | other in s.attempts && s.attempts[other].actionId == id ensures s.attempts[other].number < n {
        assert other in all;
      }
      assert s.attempts[t].number == n - 1;
    }
  }

  /** A scheduler finds an attempt to go on with, or the number of the next one. */
  lemma ChoiceOffered(s: Store, id: string) returns (choice: Choice)
    ensures Chooses(s, id, choice)
  {
    if q :| q in s.attempts && s.attempts[q].actionId == id && IsOpen(s.attempts[q].status) {
      var t := FirstOpen(s, id, q);
      choice := Reuse(t);
    } else {
      var n := NextOffered(s, id);
      choice := Anew(n);
    }
  }

  /** As soon as a renewal is ready, a scheduler with nothing else to do is offered one: work whose holder has vanished
      is resumed when the lease has run out, and nothing that is due is withheld. */
  lemma RenewalOffered(env: Environment, sys: System, x: string, w: nat, attemptId: string, reference: string,
          now: Instant) returns (id: string, choice: Choice)
    requires Ready(sys.db, x, Renew, ActionStatus.Pending, now) && w !in sys.workers
    ensures Enabled(env, sys, PrepareStep(w, id, choice, attemptId, reference, now))
  {
    hide Ready, EarliestAction, Chooses;
    id := ReadyOffered(sys.db, now, Renew, ActionStatus.Pending, x);
    choice := ChoiceOffered(sys.db, id);
  }

  /** The same for expiries. */
  lemma ExpiryOffered(env: Environment, sys: System, x: string, token: string, now: Instant, ids: Ids, txNow: Instant)
    returns (id: string)
    requires Ready(sys.db, x, Expire, ActionStatus.Pending, now) && FreshIds(sys.db, ids)
    ensures Enabled(env, sys, ExpireStep(id, token, now, ids, txNow))
  {
    hide Ready, EarliestAction, FreshIds;
    id := ReadyOffered(sys.db, now, Expire, ActionStatus.Pending, x);
  }

  /** A charge that a worker has picked is granted to it if and only if nobody has finished or blocked it and no lease
      on it is running; then it runs under the worker's token, for the configured time. */
  lemma ChargeGranted(env: Environment, sys: System, step: Step)
    requires hide Safe, Enabled, WorkerAfter, DbAfter; Safe(env, sys) && Enabled(env, sys, step) && step.ClaimStep?
    ensures step.w in sys.workers && sys.workers[step.w].Ready? && sys.workers[step.w].actionId in sys.db.actions
    ensures var x, s, s' := sys.workers[step.w].actionId, sys.db, DbAfter(env, sys, step);
            if Grantable(s, x, step.now)
            then WorkerAfter(env, sys, step).Some? && x in s'.actions && s'.actions[x].status.Running?
                 && s'.actions[x].claim == Claim(Some(step.token), s.actions[x].claim.fence + 1,
                                                 Some(step.now + (if env.cfg.schedulerLease > 0
                                                                  then env.cfg.schedulerLease else 120)))
            else WorkerAfter(env, sys, step).None? && s' == s
  {
    hide ChargeInv, Bindings.Bound, Ledger.LedgerInv, ClaimCharge, Grantable;
    var k, s := sys.workers[step.w], sys.db;
    assert Remembers(env, s, k);
    AttemptOf(env, s, k.attemptId);
    GrantExactly(s, env.cfg, k.actionId, k.attemptId, step.token, step.now);
  }

  /** Nobody has finished or blocked the action, and no lease on it is running. */
  predicate Grantable(s: Store, x: string, now: Instant) {
    && x in s.actions
    && (|| s.actions[x].status.Pending? || s.actions[x].status.Uncertain?
        || (s.actions[x].status.Running?
            && (s.actions[x].claim.leaseUntil.None? || s.actions[x].claim.leaseUntil.value <= now)))
    && (s.actions[x].kind.Renew? ==> s.actions[x].ref in s.subs && !s.subs[s.actions[x].ref].chargingBlocked)
  }

  lemma GrantExactly(s: Store, cfg: Config, x: string, a: string, token: string, now: Instant)
    requires x in s.actions && a in s.attempts
    ensures var r := ClaimCharge(s, cfg, x, a, token, now);
            if Grantable(s, x, now)
            then r.Success? && x in r.value.0.actions && r.value.0.actions[x].status.Running?
                 && r.value.0.actions[x].claim == Claim(Some(token), s.actions[x].claim.fence + 1,
                                                        Some(now + (if cfg.schedulerLease > 0 then cfg.schedulerLease
                                                                    else 120)))
            else r.Failure?
  {
  }

  /** The processing of an event is granted if and only if the event is known and not closed, and no other event is
      being processed under its key, or the lease of that one has run out. */
  lemma EventGranted(s: Store, key: EventKey, processingKey: string, token: string, now: Instant, lease: int)
    ensures var r := ClaimProcessorEvent(s, key, processingKey, token, now, lease);
            r.Success? <==>
            && key in s.procEvents && (s.procEvents[key].state.Pending? || s.procEvents[key].state.Running?)
            && (processingKey in s.leases ==>
                  || !s.leases[processingKey].running
                  || s.leases[processingKey].activeActionId == Some(s.procEvents[key].actionId)
                  || s.leases[processingKey].claim.leaseUntil.None?
                  || s.leases[processingKey].claim.leaseUntil.value <= now)
    ensures var r := ClaimProcessorEvent(s, key, processingKey, token, now, lease);
            r.Success? ==>
              && processingKey in r.value.0.leases && r.value.0.leases[processingKey] == r.value.1
              && r.value.1.running && r.value.1.activeActionId == Some(s.procEvents[key].actionId)
              && r.value.1.claim.token == Some(token) && r.value.1.claim.leaseUntil == Some(now + lease)
              && key in r.value.0.procEvents && r.value.0.procEvents[key].claim == r.value.1.claim
              && r.value.0.procEvents[key].state.Running?
  {
  }
}
