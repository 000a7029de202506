/**
 * Whether a canceled subscription has the expiry that ends it. Over every run: it does if and only if, when the
 * cancellation was committed, no finished action stood under the key of that expiry. For Adyen the only action that can
 * stand there is the expiry of a dunning that happened to be due at the very end of the period and was withdrawn.
 */
module Endings {
  import opened Wrappers
  import opened Calendar
  import opened Protocol
  import opened Model
  import opened Transition
  import opened Engine
  import opened System
  import opened Effects
  import opened Bindings
  import opened Books
  import opened Promises
  import opened ChargeSafety
  import opened ChargeSteps
  import opened Growth
  import opened StepSafety
  import opened Arrivals
  import opened Runs
  import opened Guarantees
  import opened Expiry
  import opened Cancellations
  import opened Claims
  import Ledger
  import T = Timestamps

  // ---------- what becomes of expiries ----------

  /** An expiry is pending or canceled, or it has been carried out and its subscription has expired. */
  ghost predicate ExpirySettled(s: Store, id: string)
    requires id in s.actions
  {
    var a := s.actions[id];
    a.kind.Expire? ==>
      && a.ref in s.subs
      && (a.status.Pending? || a.status.Canceled? || (a.status.Completed? && s.subs[a.ref].status == Status.Expired))
  }

  ghost predicate ExpiriesSettled(s: Store) {
    forall id :: id in s.actions ==> ExpirySettled(s, id)
  }

  lemma KeyOfAction(s: Store, id: string)
    requires GoodActions(s) && id in s.actions
    ensures s.actions[id].key == KeyOf(s.actions[id].ref, s.actions[id].kind, s.actions[id].target)
  {
  }

  lemma OldExpirySettled(env: Environment, sys: System, step: Step, id: string)
    requires hide *; Safe(env, sys) && Enabled(env, sys, step) && id in sys.db.actions && ExpirySettled(sys.db, id)
    ensures id in DbAfter(env, sys, step).actions && ExpirySettled(DbAfter(env, sys, step), id)
  {
    hide ChargeInv, Bound, Ledger.LedgerInv, WorkersAgree, Enabled, DbAfter, AttemptsGrow, OutboxGrows, LeasesGrow,
         ProcsGrow, GoodSubs, GoodActions, GoodAttempts, TruthfulAttempts, NotAhead, GoodRow;
    var a, s' := sys.db.actions[id], DbAfter(env, sys, step);
    StepProgress(env, sys, step);
    assert ActionGrows(a, s'.actions[id]);
    if a.kind.Expire? {
      var w :| Booked(sys.db, s', w);
      RowChange(sys.db, s', w, a.ref);
      if a.status.Pending? {
        Basics(env, sys.db, None);
        KeyOfAction(sys.db, id);
        StepSpares(env, sys, step, a.ref, id);
      }
    }
  }

  lemma NewExpirySettled(env: Environment, sys: System, step: Step, id: string)
    requires hide *;
             Safe(env, sys) && Enabled(env, sys, step) && id !in sys.db.actions && id in DbAfter(env, sys, step).actions
    ensures ExpirySettled(DbAfter(env, sys, step), id)
  {
    hide Safe, Enabled, DbAfter, CanceledRightly, DunningExpiry;
    StepLawful(env, sys, step);
    assert Accounted(sys.db, DbAfter(env, sys, step), id, DunningExpiry(env, sys, step));
  }

  lemma {:induction false} RunSettled(env: Environment, states: seq<System>, steps: seq<Step>, n: nat)
    requires Run(env, states, steps) && n < |states|
    ensures hide *; ExpiriesSettled(states[n].db)
  {
    hide Run, Safe, Enabled, DbAfter, WorkersAfter, ReadsAfter, SentAfter, ClaimsRun, Arrived, ExpirySettled;
    if n == 0 {
      StartsEmpty(env, states, steps);
    } else {
      RunLength(env, states, steps);
      RunSettled(env, states, steps, n - 1);
      RunBasics(env, states, steps, n - 1);
      RunStep(env, states, steps, n - 1);
      forall id | id in states[n].db.actions ensures ExpirySettled(states[n].db, id) {
        if id in states[n - 1].db.actions {
          OldExpirySettled(env, states[n - 1], steps[n - 1], id);
        } else {
          NewExpirySettled(env, states[n - 1], steps[n - 1], id);
        }
      }
    }
  }

  lemma StartsEmpty(env: Environment, states: seq<System>, steps: seq<Step>)
    requires Run(env, states, steps)
    ensures hide *; |states| > 0 && states[0].db == EMPTY
  {
    hide Leads;
  }

  // ---------- rows along a run ----------

  /** Along a run the version of a row never falls, and as long as it stays the consumer sees the same. */
  ghost predicate RowMoves(s: Store, s': Store, ref: string) {
    && ref in s.subs && ref in s'.subs
    && SameIdentity(s.subs[ref], s'.subs[ref]) && s.subs[ref].version <= s'.subs[ref].version
    && (s.subs[ref].version == s'.subs[ref].version ==> ContentOf(s.subs[ref]) == ContentOf(s'.subs[ref]))
    && (s.subs[ref].status == Status.Expired ==> s'.subs[ref].status == Status.Expired)
  }

  lemma {:induction false} RowAlong(env: Environment, states: seq<System>, steps: seq<Step>, m: nat, n: nat,
          ref: string)
    requires hide *; Run(env, states, steps) && m <= n < |states| && ref in states[m].db.subs
    ensures RowMoves(states[m].db, states[n].db, ref)
    decreases n
  {
    hide Run;
    RunLength(env, states, steps);
    if m < n {
      RowAlong(env, states, steps, m, n - 1, ref);
      VersionTellsChange(env, states, steps, n - 1, ref);
    }
  }

  // ---------- the cancellation behind a canceled subscription ----------

  /** Step `m` made the subscription canceled, and up to `n` nothing has changed it since. */
  ghost predicate CanceledBy(states: seq<System>, m: nat, n: nat, ref: string) {
    && m < n < |states|
    && ref in states[m].db.subs && states[m].db.subs[ref].status != Status.Canceled
    && ref in states[m + 1].db.subs && states[m + 1].db.subs[ref].status == Status.Canceled
    && ref in states[n].db.subs && states[n].db.subs[ref].version == states[m + 1].db.subs[ref].version
  }

  /** A step after which a subscription is canceled found it canceled and left it, or found it not canceled. */
  lemma CanceledBefore(s: Store, s': Store, w: Written, ref: string)
    requires Booked(s, s', w) && ref in s'.subs && s'.subs[ref].status == Status.Canceled
    ensures ref in s.subs && (s.subs[ref].version == s'.subs[ref].version || s.subs[ref].status != Status.Canceled)
  {
    hide EventsKept, CheckoutsKept, Backed, GoodRow, Tiles, OneEvent, SameIdentity, BuildCallback, ValidateCallback;
    if w.Event? && w.next.ref == ref && Creates(s.subs, s.checkouts, s'.checkouts, w.event, w.next) {
      CreatedActive(s.outbound, s'.outbound, w.id, w.event, w.next);
    }
  }

  lemma CreatedActive(events: Events, events': Events, id: string, event: EventType, next: Subscription)
    requires OneEvent(events, events', id, event, next) && event == Activated
    ensures next.status != Status.Canceled
  {
    hide EventsKept, T.FormatUTC, ParseTime, ValidOpaqueId, ValidPlanId;
  }

  /** Every canceled subscription was canceled by a step, and has not changed since. */
  lemma {:induction false} CancellationOnRecord(env: Environment, states: seq<System>, steps: seq<Step>, n: nat,
          ref: string)
    requires hide *; Run(env, states, steps) && n < |states| && ref in states[n].db.subs
             && states[n].db.subs[ref].status == Status.Canceled
    ensures exists m: nat :: CanceledBy(states, m, n, ref)
  {
    hide Run, Safe, Enabled, DbAfter, WorkersAfter, ReadsAfter, SentAfter, ClaimsRun, Arrived, Grows, Booked;
    RunLength(env, states, steps);
    StartsEmpty(env, states, steps);
    RunBasics(env, states, steps, n - 1);
    RunStep(env, states, steps, n - 1);
    StepProgress(env, states[n - 1], steps[n - 1]);
    var w :| Booked(states[n - 1].db, states[n].db, w);
    CanceledBefore(states[n - 1].db, states[n].db, w, ref);
    if states[n - 1].db.subs[ref].status == Status.Canceled {
      CancellationOnRecord(env, states, steps, n - 1, ref);
      var m: nat :| CanceledBy(states, m, n - 1, ref);
      assert CanceledBy(states, m, n, ref);
    } else {
      assert CanceledBy(states, n - 1, n, ref);
    }
  }

  // ---------- the expiry of a canceled subscription ----------

  /** What is pending later was pending before, or its key was free. */
  lemma WaitingBefore(s: Store, s': Store, ref: string, end: Instant)
    requires ActionsGrow(s.actions, s'.actions) && ExpiriesSettled(s) && GoodActions(s')
    requires ExpiryScheduled(s', ref, end)
    ensures KeyIsFreeOrWaiting(s, KeyOf(ref, Expire, end))
  {
    hide ClaimsRun, ClaimGrows;
    var key := KeyOf(ref, Expire, end);
    var x :| x in s'.actions && s'.actions[x].key == key && s'.actions[x].status.Pending?;
    if y :| y in s.actions && s.actions[y].key == key {
      assert ActionGrows(s.actions[y], s'.actions[y]);
      assert y == x;
      KeyOfAction(s', y);
      assert ExpirySettled(s, y);
    }
  }

  lemma EndingAt(s: Store, ref: string, end: Instant, id: string)
    requires GoodActions(s) && ref in s.subs && id in s.actions && s.actions[id].key == KeyOf(ref, Expire, end)
             && s.actions[id].status.Pending?
    ensures Ending(s, ref, id)
  {
    KeyOfAction(s, id);
  }

  lemma RunActions(env: Environment, states: seq<System>, steps: seq<Step>, n: nat)
    requires Run(env, states, steps) && n < |states|
    ensures hide *; GoodActions(states[n].db) && GoodSubs(states[n].db)
  {
    hide Run, ChargeInv, Bound, Ledger.LedgerInv, WorkersAgree, ClaimsRun, Arrived, GoodSubs, GoodActions, GoodAttempts,
         TruthfulAttempts, NotAhead;
    RunBasics(env, states, steps, n);
    Basics(env, states[n].db, None);
  }

  lemma ScheduledThen(env: Environment, states: seq<System>, steps: seq<Step>, m: nat, ref: string)
    requires hide Leads; Run(env, states, steps) && CanceledBy(states, m, m + 1, ref)
    ensures var end := states[m + 1].db.subs[ref].periodEnd;
            ExpiryScheduled(states[m + 1].db, ref, end) <==> KeyIsFreeOrWaiting(states[m].db, KeyOf(ref, Expire, end))
  {
    hide Run, Safe, Enabled, DbAfter, WorkersAfter, ReadsAfter, SentAfter, ClaimsRun, Arrived, ExpiryScheduled,
         KeyIsFreeOrWaiting, Accounted, DunningExpiry;
    RunLength(env, states, steps);
    RunBasics(env, states, steps, m);
    RunStep(env, states, steps, m);
    StepLawful(env, states[m], steps[m]);
    assert CanceledRightly(states[m].db, states[m + 1].db, ref);
  }

  lemma KeptUntil(env: Environment, states: seq<System>, steps: seq<Step>, m: nat, n: nat, ref: string, end: Instant)
    requires hide *;
             Run(env, states, steps) && m <= n < |states| && ref in states[m].db.subs && ref in states[n].db.subs
    requires states[m].db.subs[ref].status != Status.Expired
             && states[m].db.subs[ref].version == states[n].db.subs[ref].version
    requires ExpiryScheduled(states[m].db, ref, end)
    ensures ExpiryScheduled(states[n].db, ref, end)
  {
    hide Run, GoodActions, GoodSubs;
    var id :| id in states[m].db.actions && states[m].db.actions[id].key == KeyOf(ref, Expire, end)
         && states[m].db.actions[id].status.Pending?;
    RunActions(env, states, steps, m);
    EndingAt(states[m].db, ref, end, id);
    PendingExpiryStays(env, states, steps, m, n, ref, id);
  }

  /** A canceled subscription has its pending expiry if and only if, when it was canceled, the key of that expiry was
      free or its action still pending. Nothing that happens afterwards loses the expiry or supplies it. */
  lemma ExpiryOfCancellation(env: Environment, states: seq<System>, steps: seq<Step>, m: nat, n: nat, ref: string)
    requires Run(env, states, steps) && CanceledBy(states, m, n, ref)
    ensures hide Run; var end := states[n].db.subs[ref].periodEnd;
            ExpiryScheduled(states[n].db, ref, end) <==> KeyIsFreeOrWaiting(states[m].db, KeyOf(ref, Expire, end))
  {
    hide Run, ExpiryScheduled, KeyIsFreeOrWaiting, ExpiriesSettled, GoodActions, GoodSubs, AttemptsGrow, OutboxGrows,
         LeasesGrow, ProcsGrow, ActionsGrow;
    var end := states[n].db.subs[ref].periodEnd;
    RowAlong(env, states, steps, m + 1, n, ref);
    ScheduledThen(env, states, steps, m, ref);
    if KeyIsFreeOrWaiting(states[m].db, KeyOf(ref, Expire, end)) {
      KeptUntil(env, states, steps, m + 1, n, ref, end);
    }
    if ExpiryScheduled(states[n].db, ref, end) {
      RunGrows(env, states, steps, m, n);
      RunSettled(env, states, steps, m);
      RunActions(env, states, steps, n);
      WaitingBefore(states[m].db, states[n].db, ref, end);
    }
  }

  /** An expiry for the given end that was withdrawn. */
  ghost predicate Withdrawn(s: Store, ref: string, end: Instant, x: string) {
    x in s.actions && s.actions[x].key == KeyOf(ref, Expire, end) && s.actions[x].status.Canceled?
  }

  lemma IdentityKept(s: Store, s': Store, x: string)
    requires ActionsGrow(s.actions, s'.actions) && x in s.actions
    ensures x in s'.actions && SameAction(s.actions[x], s'.actions[x])
  {
    hide ClaimsRun, ClaimGrows;
  }

  /** Without its expiry, a canceled subscription finds a canceled action under the key. */
  lemma TakenKey(env: Environment, states: seq<System>, steps: seq<Step>, n: nat, ref: string) returns (x: string)
    requires hide *; Run(env, states, steps) && n < |states| && ref in states[n].db.subs
             && states[n].db.subs[ref].status == Status.Canceled
    requires !ExpiryScheduled(states[n].db, ref, states[n].db.subs[ref].periodEnd)
    ensures Withdrawn(states[n].db, ref, states[n].db.subs[ref].periodEnd, x)
  {
    hide Run, GoodSubs, GoodActions, ActionsGrow, AttemptsGrow, OutboxGrows, LeasesGrow, ProcsGrow;
    CancellationOnRecord(env, states, steps, n, ref);
    var m: nat :| CanceledBy(states, m, n, ref);
    ExpiryOfCancellation(env, states, steps, m, n, ref);
    x :| x in states[m].db.actions
    && states[m].db.actions[x].key == KeyOf(ref, Expire, states[n].db.subs[ref].periodEnd);
    RunGrows(env, states, steps, m, n);
    IdentityKept(states[m].db, states[n].db, x);
    RunActions(env, states, steps, n);
    KeyOfAction(states[n].db, x);
    RunSettled(env, states, steps, n);
    assert ExpirySettled(states[n].db, x);
  }

  /** A canceled subscription has its pending expiry if and only if no withdrawn action stands under the key of that
      expiry. */
  lemma ExpiryUnlessWithdrawn(env: Environment, states: seq<System>, steps: seq<Step>, n: nat, ref: string)
    requires hide *; Run(env, states, steps) && n < |states| && ref in states[n].db.subs
             && states[n].db.subs[ref].status == Status.Canceled
    ensures var end := states[n].db.subs[ref].periodEnd;
            ExpiryScheduled(states[n].db, ref, end) <==> forall x :: !Withdrawn(states[n].db, ref, end, x)
  {
    hide Run, GoodSubs;
    RunActions(env, states, steps, n);
    if !ExpiryScheduled(states[n].db, ref, states[n].db.subs[ref].periodEnd) {
      var x := TakenKey(env, states, steps, n, ref);
      assert Withdrawn(states[n].db, ref, states[n].db.subs[ref].periodEnd, x);
    }
  }

  // ---------- Adyen ----------

  lemma RowTiles(s: Store, s': Store, w: Written, ref: string)
    requires Booked(s, s', w) && ref in s.subs && s.subs[ref].family == Adyen && GoodRow(s.subs[ref])
    ensures ref in s'.subs && s'.subs[ref].periodEnd >= s.subs[ref].periodEnd
    ensures s'.subs[ref].status == Status.Active && s'.subs[ref].version > s.subs[ref].version ==>
              s'.subs[ref].periodEnd > s.subs[ref].periodEnd
  {
    hide OneEvent, EventsKept, CheckoutsKept, Backed, AddCalendarMonths;
    OneMonth(s.subs[ref].periodEnd);
  }

  /** The period end of an Adyen subscription never moves back, and moves on when the subscription becomes active
      again. */
  lemma AdyenEndRises(env: Environment, states: seq<System>, steps: seq<Step>, k: nat, ref: string)
    requires hide *; Run(env, states, steps) && k + 1 < |states| && ref in states[k].db.subs
             && states[k].db.subs[ref].family == Adyen
    ensures ref in states[k + 1].db.subs
    ensures var a, b := states[k].db.subs[ref], states[k + 1].db.subs[ref];
            b.periodEnd >= a.periodEnd
            && (b.status == Status.Active && b.version > a.version ==> b.periodEnd > a.periodEnd)
  {
    hide Run, Safe, Enabled, DbAfter, WorkersAfter, ReadsAfter, SentAfter, ClaimsRun, Arrived, Grows, Booked,
         GoodActions, GoodRow;
    RunLength(env, states, steps);
    RunBasics(env, states, steps, k);
    RunStep(env, states, steps, k);
    RunActions(env, states, steps, k);
    StepProgress(env, states[k], steps[k]);
    var w :| Booked(states[k].db, states[k + 1].db, w);
    RowTiles(states[k].db, states[k + 1].db, w, ref);
  }

  /** What may have become of an Adyen expiry that was pending for the end of the period. */
  ghost predicate PendingOrPast(s: Store, ref: string, x: string, target: Instant) {
    && ref in s.subs && s.subs[ref].family == Adyen
    && (|| s.subs[ref].status == Status.Expired
        || s.subs[ref].periodEnd > target
        || (Ending(s, ref, x) && s.actions[x].target == target && s.subs[ref].periodEnd == target))
  }

  lemma PendingStep(env: Environment, states: seq<System>, steps: seq<Step>, k: nat, ref: string, x: string,
          target: Instant)
    requires hide *; Run(env, states, steps) && k + 1 < |states| && PendingOrPast(states[k].db, ref, x, target)
    ensures PendingOrPast(states[k + 1].db, ref, x, target)
  {
    hide Run, Safe, Enabled, DbAfter, WorkersAfter, ReadsAfter, SentAfter, ClaimsRun, Arrived;
    RunLength(env, states, steps);
    AdyenEndRises(env, states, steps, k, ref);
    VersionTellsChange(env, states, steps, k, ref);
    if Ending(states[k].db, ref, x) && states[k].db.actions[x].target == target {
      RunBasics(env, states, steps, k);
      RunStep(env, states, steps, k);
      StepSpares(env, states[k], steps[k], ref, x);
    }
  }

  lemma {:induction false} PendingAlong(env: Environment, states: seq<System>, steps: seq<Step>, j: nat, n: nat,
          ref: string, x: string, target: Instant)
    requires hide *; Run(env, states, steps) && j <= n < |states| && PendingOrPast(states[j].db, ref, x, target)
    ensures PendingOrPast(states[n].db, ref, x, target)
    decreases n
  {
    hide Run, PendingOrPast;
    if j < n {
      PendingAlong(env, states, steps, j, n - 1, ref, x, target);
      PendingStep(env, states, steps, n - 1, ref, x, target);
    }
  }

  /** Step `j` added action `x`. */
  ghost predicate AddedBy(states: seq<System>, j: nat, n: nat, x: string) {
    j < n < |states| && x !in states[j].db.actions && x in states[j + 1].db.actions
  }

  lemma {:induction false} AdditionOnRecord(env: Environment, states: seq<System>, steps: seq<Step>, n: nat, x: string)
    requires hide *; Run(env, states, steps) && n < |states| && x in states[n].db.actions
    ensures exists j: nat :: AddedBy(states, j, n, x)
  {
    hide Run;
    StartsEmpty(env, states, steps);
    if x in states[n - 1].db.actions {
      AdditionOnRecord(env, states, steps, n - 1, x);
      var j: nat :| AddedBy(states, j, n - 1, x);
      assert AddedBy(states, j, n, x);
    } else {
      assert AddedBy(states, n - 1, n, x);
    }
  }

  /** Step `j` gave a dunning of the subscription up and scheduled expiry `x` for the given time. */
  ghost predicate DunnedBy(env: Environment, states: seq<System>, steps: seq<Step>, j: nat, n: nat, ref: string,
          x: string, end: Instant) {
    && AddedBy(states, j, n, x) && states[j + 1].db.actions[x].ref == ref
    && j < |steps| && DunningExpiry(env, states[j], steps[j]) == Some((x, end))
  }

  /** A withdrawn expiry for the very end at which a canceled Adyen subscription stands was the end of a dunning. */
  lemma WithdrawnWasDunning(env: Environment, states: seq<System>, steps: seq<Step>, n: nat, ref: string, x: string)
    requires hide *; Run(env, states, steps) && n < |states| && ref in states[n].db.subs
    requires states[n].db.subs[ref].family == Adyen && states[n].db.subs[ref].status == Status.Canceled
    requires Withdrawn(states[n].db, ref, states[n].db.subs[ref].periodEnd, x)
    ensures exists j: nat :: DunnedBy(env, states, steps, j, n, ref, x, states[n].db.subs[ref].periodEnd)
  {
    hide Run, Safe, Enabled, DbAfter, WorkersAfter, ReadsAfter, SentAfter, ClaimsRun, Arrived, CanceledRightly,
         DunningExpiry, ActionsGrow, AttemptsGrow, OutboxGrows, LeasesGrow, ProcsGrow, GoodActions, GoodSubs;
    RunLength(env, states, steps);
    AdditionOnRecord(env, states, steps, n, x);
    var j: nat :| AddedBy(states, j, n, x);
    RunBasics(env, states, steps, j);
    RunStep(env, states, steps, j);
    StepLawful(env, states[j], steps[j]);
    RunGrows(env, states, steps, j + 1, n);
    IdentityKept(states[j + 1].db, states[n].db, x);
    RunActions(env, states, steps, n);
    KeyOfAction(states[n].db, x);
    assert Accounted(states[j].db, states[j + 1].db, x, DunningExpiry(env, states[j], steps[j]));
    RowAlong(env, states, steps, j + 1, n, ref);
    if DunningExpiry(env, states[j], steps[j]) == Some((x, states[n].db.subs[ref].periodEnd)) {
      assert DunnedBy(env, states, steps, j, n, ref, x, states[n].db.subs[ref].periodEnd);
    } else {
      PendingAlong(env, states, steps, j + 1, n, ref, x, states[n].db.subs[ref].periodEnd);
    }
  }

  /** A canceled Adyen subscription has its pending expiry unless some step gave a dunning up whose expiry was due
      exactly when the period of the subscription ends. */
  lemma AdyenExpiryScheduled(env: Environment, states: seq<System>, steps: seq<Step>, n: nat, ref: string)
    requires hide *; Run(env, states, steps) && n < |states| && ref in states[n].db.subs
    requires states[n].db.subs[ref].family == Adyen && states[n].db.subs[ref].status == Status.Canceled
    requires forall j: nat, x :: !DunnedBy(env, states, steps, j, n, ref, x, states[n].db.subs[ref].periodEnd)
    ensures ExpiryScheduled(states[n].db, ref, states[n].db.subs[ref].periodEnd)
  {
    hide Run, GoodSubs, DunnedBy, ExpiryScheduled;
    var s, end := states[n].db, states[n].db.subs[ref].periodEnd;
    RunActions(env, states, steps, n);
    ExpiryUnlessWithdrawn(env, states, steps, n, ref);
    forall x ensures !Withdrawn(s, ref, end, x) {
      if Withdrawn(s, ref, end, x) {
        WithdrawnWasDunning(env, states, steps, n, ref, x);
        KeyOfAction(s, x);
      }
    }
  }
}
