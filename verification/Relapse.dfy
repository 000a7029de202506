/**
 * A run in which a dunning ends without an expiry. The subscription of the run before, whose expiry was withdrawn when
 * it was renewed, is charged for the next month; the refusal is final, and the expiry that is now asked for has the key
 * of the withdrawn one. The subscription stays past due, with nothing scheduled for it.
 */
module Relapse {
  import opened Wrappers
  import opened Calendar
  import opened Protocol
  import opened Model
  import opened Transition
  import opened Engine
  import opened Scheduler
  import opened System
  import opened Effects
  import opened ChargeSafety
  import opened Dunning
  import opened Arrears
  import opened Scenarios
  import opened Witnesses
  import opened Stranding
  import Bindings
  import Ledger
  import T = Timestamps

  // ---------- the charge for March ----------

  function Renewal5(): ScheduledAction {
    NewAction("x5", "sub_1", Renew, MARCH)
  }

  function Attempt3(): ChargeAttempt {
    NewAttempt("a3", "ref_3", 1, "x5", Reinstated(), Plan("merchant", "EUR", 5), "payments")
  }

  function Charges2(): map<string, ChargeAttempt> {
    map["a1" := Dead1(), "a2" := Settled2()]
  }

  function Charges3(t: ChargeAttempt): map<string, ChargeAttempt> {
    map["a1" := Dead1(), "a2" := Settled2(), "a3" := t]
  }

  function Actions3(a: ScheduledAction): map<string, ScheduledAction> {
    map["x1" := Exhausted(Running3()), "y4" := Witnesses.Withdrawn(DunningExpiry()), "x5" := a]
  }

  lemma ReinstatedRow()
    ensures Reinstated().ref == "sub_1" && Reinstated().planId == "plan" && Reinstated().periodEnd == MARCH
            && !Reinstated().chargingBlocked && Reinstated().family == Adyen && Reinstated().status == Status.Active
  {
    hide AddCalendarMonths;
  }

  lemma OldCharges()
    ensures Dead1().actionId == "x1" && Settled2().actionId == "x1" && Dead1().periodStart == FEBRUARY
            && Settled2().periodStart == FEBRUARY && Dead1().request.reference == "ref_1"
            && Settled2().request.reference == "ref_2" && Dead1().request.idempotencyKey == ChargeKey("ref_1")
            && Settled2().request.idempotencyKey == ChargeKey("ref_2")
  {
    hide AddCalendarMonths, ChargeKey, RecheckAt, Deadline, Rechecked;
  }

  lemma ThirdKey()
    ensures ChargeKey("ref_3") != ChargeKey("ref_1") && ChargeKey("ref_3") != ChargeKey("ref_2")
            && !HARSH.authorises(ChargeKey("ref_3"))
  {
    assert ChargeKey("ref_1")[14] == '1' && ChargeKey("ref_2")[14] == '2' && ChargeKey("ref_3")[14] == '3';
  }

  lemma Attempt3New()
    ensures Attempt3().id == "a3" && Attempt3().request.reference == "ref_3" && Attempt3().number == 1
            && Attempt3().request.idempotencyKey == ChargeKey("ref_3") && Attempt3().periodStart == MARCH
            && Attempt3().actionId == "x5" && Attempt3().ref == "sub_1" && Attempt3().firstSubmittedAt.None?
            && Attempt3().refusalCode.None?
  {
    hide AddCalendarMonths, ChargeKey;
    ReinstatedRow();
  }

  lemma OldActions()
    ensures Exhausted(Running3()).status.Completed? && Witnesses.Withdrawn(DunningExpiry()).status.Canceled?
            && Witnesses.Withdrawn(DunningExpiry()).key == KeyOf("sub_1", Expire, MARCH)
            && Exhausted(Running3()).kind.Renew? && Exhausted(Running3()).id == "x1"
            && Witnesses.Withdrawn(DunningExpiry()).id == "y4"
  {
    hide AddCalendarMonths, RecheckAt;
  }

  lemma InsertedNew(s: Store, t: ChargeAttempt)
    requires t.id !in s.attempts && forall id :: id in s.attempts ==>
               s.attempts[id].request.reference != t.request.reference && s.attempts[id].periodStart != t.periodStart
               && s.attempts[id].request.idempotencyKey != t.request.idempotencyKey
    ensures InsertAttempt(s, t) == Success(s.(attempts := s.attempts[t.id := t]))
  {
  }

  lemma ThirdInserted(s: Store)
    requires s.attempts == Charges2()
    ensures InsertAttempt(s, Attempt3()) == Success(s.(attempts := Charges3(Attempt3())))
  {
    hide AddCalendarMonths, Dead1, Settled2, Attempt3, ChargeKey, InsertAttempt, T.FourDigitYear;
    OldCharges();
    Attempt3New();
    ThirdKey();
    Months();
    assert s.attempts["a1"] == Dead1() && s.attempts["a2"] == Settled2();
    InsertedNew(s, Attempt3());
    assert s.attempts["a3" := Attempt3()] == Charges3(Attempt3());
  }

  lemma ThirdChosen(s: Store)
    requires s.subs == map["sub_1" := Reinstated()] && s.actions == AfterRenewal() && s.attempts == Charges2()
    ensures EarliestAction(s, MARCH, ActionStatus.Pending, [Renew], "x5") && Chooses(s, "x5", Anew(1))
    ensures EnsurePrepared(s, HARSH.cfg, s.actions["x5"], Anew(1), "a3", "ref_3")
            == Success((s.(attempts := Charges3(Attempt3())), "a3"))
  {
    hide AddCalendarMonths, Dead1, Settled2, Reinstated, Exhausted, Running3, DunningExpiry, InsertAttempt, NewAttempt,
         Witnesses.Withdrawn;
    OldCharges();
    OldActions();
    ReinstatedRow();
    ThirdInserted(s);
    assert s.subs["sub_1"] == Reinstated() && s.actions["x5"] == Renewal5();
    assert s.actions["x1"] == Exhausted(Running3()) && s.actions["y4"] == Witnesses.Withdrawn(DunningExpiry());
    assert s.attempts["a1"] == Dead1() && s.attempts["a2"] == Settled2();
  }

  function Running5(): ScheduledAction {
    Taken(Renewal5(), "t", Until())
  }

  function Sent3(): ChargeAttempt {
    Resubmitted(Attempt3(), Running5().claim, FEBRUARY, Deadline(HARSH.cfg, FEBRUARY))
  }

  lemma Sent3Key()
    ensures Sent3().id == "a3" && Sent3().number == 1 && Sent3().claim == Running5().claim
            && Sent3().request.idempotencyKey == ChargeKey("ref_3") && Running5().id == "x5"
            && Running5().ref == "sub_1" && Running5().claim.Owned("t", 1)
  {
    hide AddCalendarMonths, ChargeKey, Deadline;
    Attempt3New();
  }

  /** The charge for March is on its way. */
  lemma ThirdStage() returns (sys: System)
    ensures Reachable(HARSH, sys)
            && sys.workers == map[0 := Answered(Running5(), Sent3(), "t", FEBRUARY, Reply.Declined("", "6"))]
    ensures sys.db.subs == map["sub_1" := Reinstated()] && sys.db.actions == Actions3(Running5())
            && sys.db.attempts == Charges3(Sent3()) && "evt_6" !in sys.db.outbound
  {
    hide Reachable, AddCalendarMonths, Enabled, Next, ClaimCharge, EnsurePrepared, EarliestAction, Chooses, Deadline,
         Blocked, Dead1, Settled2, Attempt3, Reinstated, Exhausted, Running3, DunningExpiry, Resubmitted;
    var sys0 := ReinstatedStage();
    ThirdChosen(sys0.db);
    var db1 := sys0.db.(attempts := Charges3(Attempt3()));
    PrepareNext(HARSH, sys0, 0, "x5", Anew(1), "a3", "ref_3", MARCH, db1, "a3");
    var sys1 := Next(HARSH, sys0, PrepareStep(0, "x5", Anew(1), "a3", "ref_3", MARCH));
    LaterDeadline();
    ReinstatedRow();
    Attempt3New();
    Unblocked(sys1.db, Reinstated(), Renewal5());
    assert sys1.db.actions["x5"] == Renewal5() && sys1.db.attempts["a3"] == Attempt3();
    ClaimedAmong(sys1.db, HARSH.cfg, Renewal5(), Attempt3(), "t", FEBRUARY);
    var db2 := sys1.db.(actions := Actions3(Running5()), attempts := Charges3(Sent3()));
    assert sys1.db.actions["x5" := Running5()] == Actions3(Running5());
    assert sys1.db.attempts["a3" := Sent3()] == Charges3(Sent3());
    Sent3Key();
    ClaimNext(HARSH, sys1, 0, "t", FEBRUARY, db2, Running5(), Sent3());
    var sys2 := Next(HARSH, sys1, ClaimStep(0, "t", FEBRUARY));
    ThirdKey();
    SendNext(HARSH, sys2, 0, Reply.Declined("", "6"));
    sys := Next(HARSH, sys2, SendStep(0, true, Reply.Declined("", "6")));
  }

  // ---------- the refusal ----------

  function Relapsed(): Subscription {
    Reinstated().(status := Status.PastDue, version := Reinstated().version + 1, pastDueSince := Some(FEBRUARY),
                  stateChangedAt := FEBRUARY)
  }

  lemma Relapses()
    ensures Becomes(Reinstated(), Observed(Status.PastDue), FEBRUARY, WentPastDue, Relapsed())
  {
    Months();
    BecomesReinstated();
    RelapsesFrom(Reinstated());
  }

  lemma RelapsesFrom(row: Subscription)
    requires Shown(row) && row.status == Status.Active && row.pastDueSince.None? && T.FourDigitYear(FEBRUARY)
    ensures Becomes(row, Observed(Status.PastDue), FEBRUARY, WentPastDue,
                    row.(status := Status.PastDue, version := row.version + 1, pastDueSince := Some(FEBRUARY),
                         stateChangedAt := FEBRUARY))
  {
    hide AddCalendarMonths, T.FourDigitYear, ValidPlanId;
  }

  /** The dunning ends, and asks in vain for its expiry. */
  lemma EndedInVain(s: Store)
    requires s.actions == Actions3(Running5())
    ensures var r := FinishAction(s, "x5", "t", 1, ActionStatus.Completed, None, Some("refused"));
            && r.Success? && r.value == s.(actions := Actions3(Exhausted(Running5())))
            && EnsureAction(r.value, NewAction("y6", "sub_1", Expire, MARCH)) == r.value
  {
    hide AddCalendarMonths, Running3, DunningExpiry, Witnesses.Withdrawn, EnsureAction;
    assert s.actions["x5"] == Running5();
    assert s.actions["x5" := Exhausted(Running5())] == Actions3(Exhausted(Running5()));
    var s1 := s.(actions := Actions3(Exhausted(Running5())));
    EnsureEffect(s1, NewAction("y6", "sub_1", Expire, MARCH));
    OldActions();
    assert s1.actions["y4"].key == KeyOf("sub_1", Expire, MARCH);
  }

  lemma RelapsedNow(s: Store)
    requires Ledger.LedgerInv(s) && GoodSubs(s) && "evt_6" !in s.outbound
    requires s.subs == map["sub_1" := Reinstated()] && s.actions == Actions3(Running5())
             && s.attempts == Charges3(Sent3())
    ensures hide *;
            var r := SettleCharge(s, HARSH.cfg, Running5(), "a3", "t", 1, Reply.Declined("", "6"), FEBRUARY, IDS_6,
                                  FEBRUARY);
            && r.Success? && r.value.subs == map["sub_1" := Relapsed()]
            && r.value.actions == Actions3(Exhausted(Running5()))
            && r.value.attempts == s.attempts["a3" := DeclinedAttempt(Sent3(), "", "6", FEBRUARY)]
  {
    hide Ledger.LedgerInv, GoodSubs, Observe, FinishAction, EnsureAction, Becomes, WorkAfter, ValidOpaqueId,
         IsRetryableRefusal, AddCalendarMonths, Sent3, Reinstated, Dead1, Settled2, Actions3, Running5, Exhausted,
         DeclinedAttempt;
    ProperEvents();
    Relapses();
    ReinstatedRow();
    Sent3Key();
    SixIsFinal();
    assert s.attempts["a3"] == Sent3();
    var s1 := RefusedStore(s, Sent3(), "6", FEBRUARY);
    SameBooksLedger(s, s1);
    OverdueWork(s1.actions, Relapsed(), "x6");
    ObservedScene(s1, Reinstated(), Observed(Status.PastDue), FEBRUARY, IDS_6, WentPastDue, Relapsed(), s1.actions);
    EndedInVain(Observe(s1, "sub_1", Observed(Status.PastDue), FEBRUARY, IDS_6, FEBRUARY).value);
    DeclinedId();
  }

  lemma DeclinedId()
    ensures DeclinedAttempt(Sent3(), "", "6", FEBRUARY).id == "a3"
            && DeclinedAttempt(Sent3(), "", "6", FEBRUARY).ref == "sub_1"
  {
    hide AddCalendarMonths;
    Sent3Key();
    Attempt3New();
  }

  lemma RefusedForGood()
    ensures var u := DeclinedAttempt(Sent3(), "", "6", FEBRUARY);
            !Sent3().status.Refused? && u.status.Refused? && IsLast(HARSH.cfg, u)
  {
    hide AddCalendarMonths, IsRetryableRefusal, Attempt3, Running5;
    Sent3Key();
    SixIsFinal();
  }

  /** A subscription that is past due and not blocked, with nothing scheduled for it. */
  ghost predicate Idle(sys: System, ref: string) {
    InArrears(sys.db, ref) && !sys.db.subs[ref].chargingBlocked && !HasWork(sys.db, ref)
  }

  lemma NothingLeft(s: Store)
    requires s.subs == map["sub_1" := Relapsed()] && s.actions == Actions3(Exhausted(Running5()))
    ensures InArrears(s, "sub_1") && !s.subs["sub_1"].chargingBlocked && !HasWork(s, "sub_1")
  {
    hide AddCalendarMonths, Reinstated, Running3, DunningExpiry, Witnesses.Withdrawn;
    ReinstatedRow();
    OldActions();
    assert s.subs["sub_1"] == Relapsed();
    forall id | id in s.actions ensures !Claimable(s.actions[id].status) {
      assert s.actions[id] == Actions3(Exhausted(Running5()))[id];
    }
  }

  /** A step records the last refusal of an attempt, and its subscription is left with nothing to do. */
  ghost predicate EndsInVain(env: Environment, sys: System, step: Step, t: string) {
    && Enabled(env, sys, step) && Refuses(sys.db, Next(env, sys, step).db, t)
    && IsLast(env.cfg, Next(env, sys, step).db.attempts[t])
    && Idle(Next(env, sys, step), Next(env, sys, step).db.attempts[t].ref)
  }

  /** The last refusal of an attempt can leave its subscription past due for good: the expiry that it asks for has the
      key of one that was withdrawn. */
  lemma DunningWithoutExpiry()
    ensures exists env, sys, step, t :: Reachable(env, sys) && EndsInVain(env, sys, step, t)
  {
    hide Reachable, AddCalendarMonths, Enabled, Next, SettleCharge, Ledger.LedgerInv, GoodSubs, GoodActions,
         Bindings.Bound, Reinstated, Dead1, Settled2, Actions3, Sent3, Running5, HasWork, InArrears, DeclinedAttempt,
         IsLast;
    var sys0 := ThirdStage();
    ReachBooks(HARSH, sys0);
    RelapsedNow(sys0.db);
    Sent3Key();
    var db := SettleCharge(sys0.db, HARSH.cfg, Running5(), "a3", "t", 1, Reply.Declined("", "6"), FEBRUARY, IDS_6,
                           FEBRUARY).value;
    FreshNames(sys0.db);
    SettleNext(HARSH, sys0, 0, IDS_6, FEBRUARY, db);
    NothingLeft(db);
    DeclinedId();
    RefusedForGood();
    assert EndsInVain(HARSH, sys0, SettleStep(0, IDS_6, FEBRUARY), "a3");
  }

  lemma FreshNames(s: Store)
    requires s.actions == Actions3(Running5())
    ensures FreshIds(s, IDS_6)
  {
    hide AddCalendarMonths, Running3, DunningExpiry, Witnesses.Withdrawn, Exhausted, Running5;
  }
}
