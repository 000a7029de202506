/**
 * Subscriptions that are past due, over every run: which of them have work that will move them on, and which are left
 * with none.
 */
module Arrears {
  import opened Wrappers
  import opened Calendar
  import opened Protocol
  import opened Model
  import opened Transition
  import opened Engine
  import opened System
  import opened Effects
  import opened Books
  import opened Promises
  import opened ChargeSafety
  import opened Growth
  import opened StepSafety
  import opened Arrivals
  import opened Runs
  import opened Guarantees
  import opened Claims
  import opened Endings
  import opened Dunning
  import Bindings
  import Ledger
  import Payments

  // ---------- refusals in a run ----------

  lemma DunnedInRun(env: Environment, states: seq<System>, steps: seq<Step>, n: nat)
    requires Run(env, states, steps) && n < |steps|
    ensures hide *; n + 1 < |states| && Dealt(env.cfg, states[n].db, states[n + 1].db)
  {
    hide Run, Safe, Enabled, DbAfter, WorkersAfter, ReadsAfter, SentAfter, ClaimsRun, Arrived, Dealt;
    RunLength(env, states, steps);
    RunBasics(env, states, steps, n);
    RunStep(env, states, steps, n);
    StepDunned(env, states[n], steps[n]);
  }

  /** Whoever learns of a refusal, the action waits for its next attempt, or it is finished, and then the expiry is
      pending if and only if its key was free or its action pending. */
  lemma RefusalHandled(env: Environment, states: seq<System>, steps: seq<Step>, n: nat, t: string)
    requires hide Leads;
             Run(env, states, steps) && n < |steps| && n + 1 < |states| && Refuses(states[n].db, states[n + 1].db, t)
    ensures Handled(env.cfg, states[n].db, states[n + 1].db, t)
  {
    hide Run, Handled, Refuses;
    DunnedInRun(env, states, steps, n);
  }

  /** Step `m` recorded the last refusal of attempt `t`. */
  ghost predicate RefusedLast(env: Environment, states: seq<System>, m: nat, t: string) {
    m + 1 < |states| && Refuses(states[m].db, states[m + 1].db, t) && IsLast(env.cfg, states[m + 1].db.attempts[t])
    && states[m + 1].db.attempts[t].completedAt.Some?
  }

  lemma LastRefusalInRun(env: Environment, states: seq<System>, steps: seq<Step>, m: nat, t: string)
    requires Run(env, states, steps) && RefusedLast(env, states, m, t)
    ensures hide Run; var u := states[m + 1].db.attempts[t];
            DunningEnds(states[m].db, states[m + 1].db, u.actionId, u.ref, DunningEnd(env.cfg, u))
  {
    hide Run, Refuses, IsLast, DunningEnds;
    RunLength(env, states, steps);
    RefusalHandled(env, states, steps, m, t);
  }

  /** As long as the subscription stays as it is, it has the expiry of its dunning if and only if the key was free, or
      its action pending, when the last refusal was recorded. */
  lemma ExpiryOfDunning(env: Environment, states: seq<System>, steps: seq<Step>, m: nat, n: nat, t: string)
    requires hide Leads; Run(env, states, steps) && m < n < |states| && RefusedLast(env, states, m, t)
    requires var ref := states[m + 1].db.attempts[t].ref;
             && ref in states[m + 1].db.subs && states[m + 1].db.subs[ref].status != Status.Expired
             && ref in states[n].db.subs && states[n].db.subs[ref].version == states[m + 1].db.subs[ref].version
    ensures var u := states[m + 1].db.attempts[t];
            ExpiryScheduled(states[n].db, u.ref, DunningEnd(env.cfg, u))
            <==> KeyIsFreeOrWaiting(states[m].db, KeyOf(u.ref, Expire, DunningEnd(env.cfg, u)))
  {
    hide Run, ExpiryScheduled, KeyIsFreeOrWaiting, ExpiriesSettled, GoodActions, GoodSubs, AttemptsGrow, OutboxGrows,
         LeasesGrow, ProcsGrow, ActionsGrow, IsLast;
    var u := states[m + 1].db.attempts[t];
    var end := DunningEnd(env.cfg, u);
    LastRefusalInRun(env, states, steps, m, t);
    if KeyIsFreeOrWaiting(states[m].db, KeyOf(u.ref, Expire, end)) {
      KeptUntil(env, states, steps, m + 1, n, u.ref, end);
    }
    if ExpiryScheduled(states[n].db, u.ref, end) {
      RunGrows(env, states, steps, m, n);
      RunSettled(env, states, steps, m);
      RunActions(env, states, steps, n);
      WaitingBefore(states[m].db, states[n].db, u.ref, end);
    }
  }

  /** An action stands under the key. */
  ghost predicate KeyTaken(s: Store, key: ActionKey) {
    exists x :: x in s.actions && s.actions[x].key == key
  }

  lemma TakenAfterwards(s: Store, s': Store, actionId: string, ref: string, end: Instant)
    requires DunningEnds(s, s', actionId, ref, end) && ActionsGrow(s.actions, s'.actions)
    ensures KeyTaken(s', KeyOf(ref, Expire, end))
  {
    hide ActionsGrow;
    if !ExpiryScheduled(s', ref, end) {
      var x :| x in s.actions && s.actions[x].key == KeyOf(ref, Expire, end);
      IdentityKept(s, s', x);
    }
  }

  lemma StaysTaken(s: Store, s': Store, key: ActionKey)
    requires KeyTaken(s, key) && ActionsGrow(s.actions, s'.actions)
    ensures KeyTaken(s', key)
  {
    hide ActionsGrow;
    var x :| x in s.actions && s.actions[x].key == key;
    IdentityKept(s, s', x);
  }

  /** Under a taken key stands a pending expiry or a withdrawn one, unless the subscription has expired. */
  lemma PendingOrWithdrawn(s: Store, ref: string, end: Instant)
    requires GoodActions(s) && ExpiriesSettled(s) && KeyTaken(s, KeyOf(ref, Expire, end)) && ref in s.subs
             && s.subs[ref].status != Status.Expired
    ensures ExpiryScheduled(s, ref, end) <==> forall x :: !Withdrawn(s, ref, end, x)
  {
    var x :| x in s.actions && s.actions[x].key == KeyOf(ref, Expire, end);
    KeyOfAction(s, x);
    assert ExpirySettled(s, x);
    if !ExpiryScheduled(s, ref, end) {
      assert Withdrawn(s, ref, end, x);
    }
  }

  lemma DunningKeyTaken(env: Environment, states: seq<System>, steps: seq<Step>, m: nat, n: nat, t: string)
    requires Run(env, states, steps) && m < n < |states| && RefusedLast(env, states, m, t)
    ensures hide Run; var u := states[m + 1].db.attempts[t];
            KeyTaken(states[n].db, KeyOf(u.ref, Expire, DunningEnd(env.cfg, u)))
  {
    hide Run, AttemptsGrow, OutboxGrows, LeasesGrow, ProcsGrow, ActionsGrow, IsLast, DunningEnds, KeyTaken;
    var u := states[m + 1].db.attempts[t];
    LastRefusalInRun(env, states, steps, m, t);
    RunGrows(env, states, steps, m, m + 1);
    TakenAfterwards(states[m].db, states[m + 1].db, u.actionId, u.ref, DunningEnd(env.cfg, u));
    RunGrows(env, states, steps, m + 1, n);
    StaysTaken(states[m + 1].db, states[n].db, KeyOf(u.ref, Expire, DunningEnd(env.cfg, u)));
  }

  /** Ever after the last refusal, whatever happens, the expiry of the dunning is pending if and only if no withdrawn
      action stands under its key, unless the subscription has expired. */
  lemma DunningUnlessWithdrawn(env: Environment, states: seq<System>, steps: seq<Step>, m: nat, n: nat, t: string)
    requires hide Leads; Run(env, states, steps) && m < n < |states| && RefusedLast(env, states, m, t)
    requires var ref := states[m + 1].db.attempts[t].ref;
             ref in states[n].db.subs && states[n].db.subs[ref].status != Status.Expired
    ensures var u := states[m + 1].db.attempts[t];
            ExpiryScheduled(states[n].db, u.ref, DunningEnd(env.cfg, u))
            <==> forall x :: !Withdrawn(states[n].db, u.ref, DunningEnd(env.cfg, u), x)
  {
    hide Run, GoodActions, GoodSubs, ExpiriesSettled, ExpiryScheduled, KeyTaken, Withdrawn, IsLast;
    var u := states[m + 1].db.attempts[t];
    DunningKeyTaken(env, states, steps, m, n, t);
    RunActions(env, states, steps, n);
    RunSettled(env, states, steps, n);
    PendingOrWithdrawn(states[n].db, u.ref, DunningEnd(env.cfg, u));
  }

  // ---------- the renewal of the current period ----------

  /** Action `r` is the renewal for the period that follows the current one, finished or not. */
  ghost predicate CurrentRenewal(s: Store, ref: string, r: string) {
    ref in s.subs && r in s.actions && s.actions[r].key == KeyOf(ref, Renew, s.subs[ref].periodEnd)
  }

  lemma OneCurrentRenewal(s: Store, ref: string, r: string, q: string)
    requires GoodActions(s) && CurrentRenewal(s, ref, r) && CurrentRenewal(s, ref, q)
    ensures r == q && s.actions[r].ref == ref && s.actions[r].kind.Renew?
  {
  }

  /** A renewal of the subscription that can be claimed is the current one. */
  lemma WaitingIsCurrent(s: Store, ref: string, id: string)
    requires GoodActions(s) && NextRenewal(s, ref, id)
    ensures CurrentRenewal(s, ref, id) && Renewable(s, id)
  {
  }

  /** A row that is neither active nor expired was there before, for the same period, and had not expired. */
  ghost predicate Comes(s: Store, s': Store, ref: string) {
    && ref in s.subs && ref in s'.subs && s.subs[ref].family == s'.subs[ref].family
    && s.subs[ref].periodEnd == s'.subs[ref].periodEnd && s.subs[ref].status != Status.Expired
    && (s'.subs[ref].status == Status.Trialing ==> s.subs[ref].status == Status.Trialing)
  }

  lemma RowComes(s: Store, s': Store, w: Written, ref: string)
    requires Booked(s, s', w) && ref in s'.subs && s'.subs[ref].family == Adyen && s'.subs[ref].status != Status.Active
             && s'.subs[ref].status != Status.Expired
    ensures Comes(s, s', ref)
  {
    hide OneEvent, EventsKept, CheckoutsKept, Backed, AddCalendarMonths, GoodRow;
  }

  lemma RowComesInRun(env: Environment, states: seq<System>, steps: seq<Step>, n: nat, ref: string)
    requires hide *; Run(env, states, steps) && n < |states| && ref in states[n].db.subs
             && states[n].db.subs[ref].family == Adyen && states[n].db.subs[ref].status != Status.Active
             && states[n].db.subs[ref].status != Status.Expired
    ensures n > 0 && Comes(states[n - 1].db, states[n].db, ref)
  {
    hide Run, Safe, Enabled, DbAfter, WorkersAfter, ReadsAfter, SentAfter, ClaimsRun, Arrived, Grows, Booked, Comes;
    RunLength(env, states, steps);
    StartsEmpty(env, states, steps);
    RunBasics(env, states, steps, n - 1);
    RunStep(env, states, steps, n - 1);
    StepProgress(env, states[n - 1], steps[n - 1]);
    var w :| Booked(states[n - 1].db, states[n].db, w);
    RowComes(states[n - 1].db, states[n].db, w, ref);
  }

  /** While a subscription is past due, why its current renewal cannot be claimed any more: it was handed over, or the
      subscription was canceled, or the last refusal was recorded. */
  ghost predicate Explained(env: Environment, states: seq<System>, n: nat, ref: string, r: string)
    requires n < |states| && CurrentRenewal(states[n].db, ref, r)
  {
    var s := states[n].db;
    || Renewable(s, r) || s.actions[r].status.ManualReview?
    || KeyTaken(s, KeyOf(ref, Expire, s.subs[ref].periodEnd))
    || exists j: nat, t :: EndedBy(env, states, j, n, t, r)
  }

  /** Step `j` recorded the last refusal of an attempt of renewal `r`. */
  ghost predicate EndedBy(env: Environment, states: seq<System>, j: nat, n: nat, t: string, r: string) {
    j < n && RefusedLast(env, states, j, t) && states[j + 1].db.attempts[t].actionId == r
  }

  lemma ActiveExplained(env: Environment, states: seq<System>, steps: seq<Step>, n: nat, ref: string)
    returns (r: string)
    requires hide *; Run(env, states, steps) && n < |states| && ref in states[n].db.subs
             && states[n].db.subs[ref].family == Adyen && states[n].db.subs[ref].status == Status.Active
    ensures CurrentRenewal(states[n].db, ref, r) && Renewable(states[n].db, r)
  {
    hide Run, GoodActions, GoodSubs, NextRenewal, Renewable;
    RightNextAction(env, states, steps, n, ref);
    RunActions(env, states, steps, n);
    r :| NextRenewal(states[n].db, ref, r);
    WaitingIsCurrent(states[n].db, ref, r);
  }

  lemma CanceledExplained(env: Environment, states: seq<System>, steps: seq<Step>, n: nat, ref: string)
    requires hide *; Run(env, states, steps) && n < |states| && ref in states[n].db.subs
             && states[n].db.subs[ref].status == Status.Canceled
    ensures KeyTaken(states[n].db, KeyOf(ref, Expire, states[n].db.subs[ref].periodEnd))
  {
    hide Run;
    if !ExpiryScheduled(states[n].db, ref, states[n].db.subs[ref].periodEnd) {
      var x := TakenKey(env, states, steps, n, ref);
    }
  }

  /** What explains the state of a renewal goes on explaining it while the subscription is past due. */
  lemma StaysExplained(env: Environment, states: seq<System>, steps: seq<Step>, n: nat, ref: string, r: string)
    requires hide *; Run(env, states, steps) && n + 1 < |states| && Comes(states[n].db, states[n + 1].db, ref)
    requires CurrentRenewal(states[n].db, ref, r) && Explained(env, states, n, ref, r)
             && InArrears(states[n + 1].db, ref)
    ensures CurrentRenewal(states[n + 1].db, ref, r) && Explained(env, states, n + 1, ref, r)
  {
    hide Run, GoodActions, GoodSubs, AttemptsGrow, OutboxGrows, LeasesGrow, ProcsGrow, ActionsGrow, KeyTaken, Refuses,
         IsLast, Handled, Claimable;
    RunLength(env, states, steps);
    RunGrows(env, states, steps, n, n + 1);
    var s, s' := states[n].db, states[n + 1].db;
    IdentityKept(s, s', r);
    RunActions(env, states, steps, n);
    OneCurrentRenewal(s, ref, r, r);
    if s.actions[r].status.ManualReview? {
      FinishedStays(s, s', r);
    } else if KeyTaken(s, KeyOf(ref, Expire, s.subs[ref].periodEnd)) {
      StaysTaken(s, s', KeyOf(ref, Expire, s.subs[ref].periodEnd));
    } else if Renewable(s, r) {
      DunnedInRun(env, states, steps, n);
      RefusedExplained(env, states, steps, n, ref, r);
    } else {
      var j: nat, t :| EndedBy(env, states, j, n, t, r);
      assert EndedBy(env, states, j, n + 1, t, r);
    }
  }

  lemma FinishedStays(s: Store, s': Store, r: string)
    requires ActionsGrow(s.actions, s'.actions) && r in s.actions && s.actions[r].status.ManualReview?
    ensures r in s'.actions && s'.actions[r] == s.actions[r]
  {
    hide ClaimsRun, ClaimGrows;
  }

  lemma RefusedExplained(env: Environment, states: seq<System>, steps: seq<Step>, n: nat, ref: string, r: string)
    requires hide Leads; Run(env, states, steps) && n + 1 < |states| && Dealt(env.cfg, states[n].db, states[n + 1].db)
    requires CurrentRenewal(states[n + 1].db, ref, r) && Renewable(states[n].db, r)
             && states[n].db.actions[r].ref == ref && InArrears(states[n + 1].db, ref)
             && SameAction(states[n].db.actions[r], states[n + 1].db.actions[r])
    ensures Explained(env, states, n + 1, ref, r)
  {
    hide Run, KeyTaken, IsLast, DunningEnds, DunningGoesOn, Claimable;
    var s, s' := states[n].db, states[n + 1].db;
    assert Remains(env.cfg, s, s', r);
    if !Claimable(s'.actions[r].status) && !s'.actions[r].status.ManualReview? {
      var t :| Refuses(s, s', t) && IsLast(env.cfg, s'.attempts[t]) && s'.attempts[t].actionId == r;
      assert Handled(env.cfg, s, s', t);
      assert EndedBy(env, states, n, n + 1, t, r);
    }
  }

  /** An Adyen subscription that has not expired has its current renewal on record, and if it is past due, the state of
      that renewal is explained. */
  lemma {:induction false} RenewalExplained(env: Environment, states: seq<System>, steps: seq<Step>, n: nat,
          ref: string) returns (r: string)
    requires hide *; Run(env, states, steps) && n < |states| && ref in states[n].db.subs
             && states[n].db.subs[ref].family == Adyen && states[n].db.subs[ref].status != Status.Expired
    ensures CurrentRenewal(states[n].db, ref, r) && Explained(env, states, n, ref, r)
    ensures states[n].db.subs[ref].status != Status.Trialing
    decreases n
  {
    hide Run, CurrentRenewal, Explained, GoodRow, ActionsGrow, AttemptsGrow, OutboxGrows, LeasesGrow, ProcsGrow;
    var status := states[n].db.subs[ref].status;
    if status == Status.Active {
      r := ActiveExplained(env, states, steps, n, ref);
      IsExplained(env, states, n, ref, r);
    } else {
      RowComesInRun(env, states, steps, n, ref);
      r := RenewalExplained(env, states, steps, n - 1, ref);
      RunGrows(env, states, steps, n - 1, n);
      CurrentStays(states[n - 1].db, states[n].db, ref, r);
      if status == Status.Canceled {
        CanceledExplained(env, states, steps, n, ref);
        IsExplained(env, states, n, ref, r);
      } else {
        BookkeepingFollowsStatus(env, states, steps, n, ref);
        StaysExplained(env, states, steps, n - 1, ref, r);
      }
    }
  }

  lemma IsExplained(env: Environment, states: seq<System>, n: nat, ref: string, r: string)
    requires n < |states| && CurrentRenewal(states[n].db, ref, r)
    requires Renewable(states[n].db, r) || KeyTaken(states[n].db, KeyOf(ref, Expire, states[n].db.subs[ref].periodEnd))
    ensures Explained(env, states, n, ref, r)
  {
  }

  lemma CurrentStays(s: Store, s': Store, ref: string, r: string)
    requires CurrentRenewal(s, ref, r) && ActionsGrow(s.actions, s'.actions) && Comes(s, s', ref)
    ensures CurrentRenewal(s', ref, r)
  {
    hide ActionsGrow;
    IdentityKept(s, s', r);
  }

  // ---------- past due ----------

  /** Something is scheduled that will move the subscription on. */
  ghost predicate HasWork(s: Store, ref: string) {
    (exists id :: RenewalWaiting(s, ref, id)) || (exists id :: ExpiryWaits(s, ref, id))
  }

  /** Every expiry that the subscription ever had was withdrawn. */
  ghost predicate AllWithdrawn(s: Store, ref: string) {
    forall x :: x in s.actions && s.actions[x].ref == ref && s.actions[x].kind.Expire? ==> s.actions[x].status.Canceled?
  }

  ghost predicate SomeWithdrawn(s: Store, ref: string, end: Instant) {
    exists x :: Withdrawn(s, ref, end, x)
  }

  /** Renewal `r` was handed over, or the expiry that came in its place was withdrawn: that of the cancellation, or that
      of the dunning. */
  ghost predicate Stuck(env: Environment, states: seq<System>, n: nat, ref: string, r: string)
    requires n < |states| && CurrentRenewal(states[n].db, ref, r)
  {
    var s := states[n].db;
    || s.actions[r].status.ManualReview?
    || SomeWithdrawn(s, ref, s.subs[ref].periodEnd)
    || exists j: nat, t :: EndedBy(env, states, j, n, t, r)
         && SomeWithdrawn(s, ref, DunningEnd(env.cfg, states[j + 1].db.attempts[t]))
  }

  lemma WorkOnRecord(s: Store, ref: string, r: string)
    requires GoodActions(s) && ExpiriesSettled(s) && InArrears(s, ref) && CurrentRenewal(s, ref, r)
    requires forall id :: RenewalWaiting(s, ref, id) ==> NextRenewal(s, ref, id)
    ensures HasWork(s, ref) <==> Renewable(s, r) || !AllWithdrawn(s, ref)
  {
    OneCurrentRenewal(s, ref, r, r);
    if id :| RenewalWaiting(s, ref, id) {
      WaitingIsCurrent(s, ref, id);
      OneCurrentRenewal(s, ref, r, id);
    }
    if Renewable(s, r) {
      assert RenewalWaiting(s, ref, r);
    }
    if x :| x in s.actions && s.actions[x].ref == ref && s.actions[x].kind.Expire? && !s.actions[x].status.Canceled? {
      KeyOfAction(s, x);
      assert ExpirySettled(s, x);
      assert ExpiryWaits(s, ref, x);
    }
  }

  /** A subscription that is past due has work if and only if its current renewal can still be claimed or one of its
      expiries was not withdrawn. When it has none, the renewal was handed over to an operator, or the expiry that the
      cancellation or the last refusal asked for was withdrawn. */
  lemma PastDueWork(env: Environment, states: seq<System>, steps: seq<Step>, n: nat, ref: string) returns (r: string)
    requires hide Leads; Run(env, states, steps) && n < |states| && InArrears(states[n].db, ref)
             && states[n].db.subs[ref].family == Adyen
    ensures CurrentRenewal(states[n].db, ref, r)
    ensures HasWork(states[n].db, ref) <==> Renewable(states[n].db, r) || !AllWithdrawn(states[n].db, ref)
    ensures HasWork(states[n].db, ref) || Stuck(env, states, n, ref, r)
  {
    hide Run, GoodActions, GoodSubs, HasWork, AllWithdrawn, ExpiriesSettled, NextRenewal, RenewalWaiting, Renewable;
    RunActions(env, states, steps, n);
    RunSettled(env, states, steps, n);
    RightNextAction(env, states, steps, n, ref);
    r := RenewalExplained(env, states, steps, n, ref);
    WorkOnRecord(states[n].db, ref, r);
    if !HasWork(states[n].db, ref) {
      IdleStuck(env, states, steps, n, ref, r);
    }
  }

  lemma IdleStuck(env: Environment, states: seq<System>, steps: seq<Step>, n: nat, ref: string, r: string)
    requires hide *; Run(env, states, steps) && n < |states| && InArrears(states[n].db, ref)
    requires CurrentRenewal(states[n].db, ref, r) && Explained(env, states, n, ref, r)
    requires !Renewable(states[n].db, r) && AllWithdrawn(states[n].db, ref)
    ensures Stuck(env, states, n, ref, r)
  {
    hide Run, GoodActions, GoodSubs, IsLast, Renewable;
    RunActions(env, states, steps, n);
    var s := states[n].db;
    if KeyTaken(s, KeyOf(ref, Expire, s.subs[ref].periodEnd)) {
      TakenWithdrawn(s, ref, s.subs[ref].periodEnd);
    } else if !s.actions[r].status.ManualReview? {
      var j: nat, t :| EndedBy(env, states, j, n, t, r);
      DunningKeyTaken(env, states, steps, j, n, t);
      RefusedOf(env, states, steps, j, n, ref, r, t);
      TakenWithdrawn(s, ref, DunningEnd(env.cfg, states[j + 1].db.attempts[t]));
    }
  }

  lemma TakenWithdrawn(s: Store, ref: string, end: Instant)
    requires GoodActions(s) && KeyTaken(s, KeyOf(ref, Expire, end)) && AllWithdrawn(s, ref)
    ensures SomeWithdrawn(s, ref, end)
  {
    var x :| x in s.actions && s.actions[x].key == KeyOf(ref, Expire, end);
    KeyOfAction(s, x);
    assert Withdrawn(s, ref, end, x);
  }

  /** An attempt is about the subscription of its action. */
  lemma RefusedOf(env: Environment, states: seq<System>, steps: seq<Step>, j: nat, n: nat, ref: string, r: string,
          t: string)
    requires hide Leads; Run(env, states, steps) && n < |states| && EndedBy(env, states, j, n, t, r)
             && CurrentRenewal(states[n].db, ref, r)
    ensures states[j + 1].db.attempts[t].ref == ref
  {
    hide Run, GoodActions, ChargeInv, Bindings.Bound, Ledger.LedgerInv, Payments.RenewalsPaid, ActionsGrow,
         AttemptsGrow, OutboxGrows, LeasesGrow, ProcsGrow, IsLast, GoodSubs;
    RunLedger(env, states, steps, j + 1);
    AttemptOf(env, states[j + 1].db, t);
    RunGrows(env, states, steps, j + 1, n);
    IdentityKept(states[j + 1].db, states[n].db, r);
    RunActions(env, states, steps, n);
    OneCurrentRenewal(states[n].db, ref, r, r);
  }
}
