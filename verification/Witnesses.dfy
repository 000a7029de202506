/** Runs, step by step from the empty system, in which a documented promise fails, and one in which a renewal
    succeeds. */
module Witnesses {
  import opened Wrappers
  import opened Calendar
  import opened Protocol
  import opened Model
  import opened Transition
  import opened Engine
  import opened Scheduler
  import opened System
  import opened Effects
  import opened ChargeSafety
  import opened Announcements
  import opened Promises
  import opened StepSafety
  import opened Scenarios
  import Bindings
  import Books
  import Ledger
  import T = Timestamps

  // ---------- the stage ----------

  /** The first days of three months, January, February and March 1970. */
  const JANUARY: Instant := 0
  const FEBRUARY: Instant := AddCalendarMonths(JANUARY, 1)
  const MARCH: Instant := AddCalendarMonths(FEBRUARY, 1)

  lemma NewYearDay()
    ensures DaysBeforeYear(1970) == EPOCH_DAYS && DaysBeforeMonth(1970, 1) == 0
  {
  }

  lemma NewYear()
    ensures ToCivil(JANUARY) == Civil(1970, 1, 1, 0)
  {
    hide ToCivil, DaysBeforeYear, DaysBeforeMonth, YearOf, MonthOf;
    var c := Civil(1970, 1, 1, 0);
    NewYearDay();
    CivilUnique(c);
    assert ToInstant(c) == DayNumber(c.year, c.month, c.day) * SECONDS_PER_DAY + c.second;
  }

  lemma NextMonth(start: Instant, month: int)
    requires ToCivil(start) == Civil(1970, month, 1, 0) && 1 <= month < 12
    ensures ToCivil(AddCalendarMonths(start, 1)) == Civil(1970, month + 1, 1, 0)
  {
    hide ToCivil, AddCalendarMonths;
    JumpDate(start, 1);
    assert ShiftMonth(Month(1970, month), 1) == Month(1970, month + 1);
  }

  lemma Months()
    ensures JANUARY < FEBRUARY < MARCH
    ensures T.FourDigitYear(JANUARY) && T.FourDigitYear(FEBRUARY) && T.FourDigitYear(MARCH)
  {
    hide AddCalendarMonths, ToCivil;
    NewYear();
    NextMonth(JANUARY, 1);
    NextMonth(FEBRUARY, 2);
    OneMonth(JANUARY);
    OneMonth(FEBRUARY);
  }

  const STRIPE_CHECKOUT := Checkout("subchk_1", "plan", "", Stripe, "", "", None, Creating, None, None, 0)

  /** Identifiers drawn for one transaction after another. */
  const IDS_1 := Ids("evt_1", "x1", "y1", "sub_1")
  const IDS_2 := Ids("evt_2", "x2", "y2", "sub_1")
  const IDS_3 := Ids("evt_3", "x3", "y3", "sub_1")
  const IDS_4 := Ids("evt_4", "x4", "y4", "sub_1")
  const IDS_5 := Ids("evt_5", "x5", "y5", "sub_1")
  const IDS_6 := Ids("evt_6", "x6", "y6", "sub_1")

  lemma ProperEvents()
    ensures ValidOpaqueId("evt_1", EVENT_PREFIX) && ValidOpaqueId("evt_2", EVENT_PREFIX)
            && ValidOpaqueId("evt_3", EVENT_PREFIX)
    ensures ValidOpaqueId("evt_4", EVENT_PREFIX) && ValidOpaqueId("evt_5", EVENT_PREFIX)
            && ValidOpaqueId("evt_6", EVENT_PREFIX)
  {
  }

  lemma ProperNames()
    ensures ValidOpaqueId("subchk_1", CHECKOUT_PREFIX) && ValidOpaqueId("sub_1", SUBSCRIPTION_PREFIX)
            && ValidPlanId("plan")
  {
    assert 'p' in "plan" && !IsSpace('p');
  }

  // ---------- a Stripe subscription, canceled and restored ----------

  function Subscribed(): Subscription {
    FirstRow(STRIPE_CHECKOUT, "sub_1", JANUARY)
  }

  function CanceledOnce(): Subscription {
    CanceledRow(Subscribed(), JANUARY)
  }

  /** Restored for a later period. */
  function RestoredOnce(): Subscription {
    RestoredRow(CanceledOnce(), FEBRUARY, MARCH, JANUARY)
  }

  function CanceledTwice(): Subscription {
    CanceledRow(RestoredOnce(), JANUARY)
  }

  /** Restored for the first period again. */
  function RestoredTwice(): Subscription {
    RestoredRow(CanceledTwice(), JANUARY, FEBRUARY, JANUARY)
  }

  function CanceledThrice(): Subscription {
    CanceledRow(RestoredTwice(), JANUARY)
  }

  lemma SubscribedShown()
    ensures Shown(Subscribed()) && Addressable(Subscribed())
  {
    hide AddCalendarMonths, T.FourDigitYear, ValidPlanId, ValidOpaqueId;
    Months();
    ProperNames();
  }

  lemma RowsShown()
    ensures Shown(CanceledOnce()) && Shown(RestoredOnce()) && Shown(CanceledTwice()) && Shown(RestoredTwice())
  {
    hide Shown, Becomes, T.FourDigitYear, AddCalendarMonths;
    Months();
    SubscribedShown();
    CancelBecomes(Subscribed(), JANUARY);
    RestoreBecomes(CanceledOnce(), FEBRUARY, MARCH, JANUARY);
    CancelBecomes(RestoredOnce(), JANUARY);
    RestoreBecomes(CanceledTwice(), JANUARY, FEBRUARY, JANUARY);
  }

  function Expiry(id: string, end: Instant): ScheduledAction {
    NewAction(id, "sub_1", Expire, end)
  }

  function Withdrawn(a: ScheduledAction): ScheduledAction {
    a.(status := ActionStatus.Canceled, claim := a.claim.Release())
  }

  lemma FirstExpiry()
    ensures ActionsAfterCancel(map[], CanceledOnce(), "x2") == map["x2" := Expiry("x2", FEBRUARY)]
  {
    hide AddCalendarMonths;
  }

  lemma SecondExpiry()
    ensures ActionsAfterCancel(map["x2" := Expiry("x2", FEBRUARY)], CanceledTwice(), "x4")
            == map["x2" := Withdrawn(Expiry("x2", FEBRUARY)), "x4" := Expiry("x4", MARCH)]
  {
    Months();
    hide AddCalendarMonths;
  }

  lemma NoThirdExpiry()
    ensures ActionsAfterCancel(map["x2" := Withdrawn(Expiry("x2", FEBRUARY)), "x4" := Expiry("x4", MARCH)],
                               CanceledThrice(), "x6")
            == map["x2" := Withdrawn(Expiry("x2", FEBRUARY)), "x4" := Withdrawn(Expiry("x4", MARCH))]
  {
    Months();
    hide AddCalendarMonths;
    var acts := map["x2" := Withdrawn(Expiry("x2", FEBRUARY)), "x4" := Expiry("x4", MARCH)];
    assert acts["x2"].key == KeyOf("sub_1", Expire, FEBRUARY);
  }

  const PLAIN := Environment(Config(map[], map[], [], 0, 0, 0, ""), (key: string) => false)

  /** Subscribed in January, canceled, and restored for the month that follows: active, with the expiry of the first
      period still pending. */
  lemma RestoredRun() returns (sys: System)
    ensures Scene(PLAIN, sys, RestoredOnce(), map["x2" := Expiry("x2", FEBRUARY)], {"evt_1", "evt_2", "e3", "evt_3"})
  {
    hide Scene, Becomes, Shown, Presentable, WorkAfter, ValidOpaqueId, T.FourDigitYear, AddCalendarMonths,
         ActionsAfterCancel, Enabled, Next, Addressable;
    Months();
    ProperEvents();
    SubscribedShown();
    RowsShown();
    StripeWork(map[], Activated, Subscribed(), "x1");
    var sys1 := ActivateShown();
    CancelBecomes(Subscribed(), JANUARY);
    CancelWork(map[], CanceledOnce(), "x2");
    FirstExpiry();
    CancelScene(PLAIN, sys1, Subscribed(), map[], {"evt_1"}, JANUARY, IDS_2, CanceledOnce(),
                map["x2" := Expiry("x2", FEBRUARY)]);
    var sys2 := Next(PLAIN, sys1, CancelStep(Subscribed().ref, JANUARY, IDS_2, JANUARY));
    assert {"evt_1"} + {"evt_2"} == {"evt_1", "evt_2"};
    RestoreBecomes(CanceledOnce(), FEBRUARY, MARCH, JANUARY);
    StripeWork(map["x2" := Expiry("x2", FEBRUARY)], Renewed, RestoredOnce(), "x3");
    var before,
        step := WebhookScene(PLAIN, sys2, CanceledOnce(), map["x2" := Expiry("x2", FEBRUARY)], {"evt_1", "evt_2"}, "e3",
                             Reports(FEBRUARY, MARCH), JANUARY,
                        IDS_3, Renewed, RestoredOnce(), map["x2" := Expiry("x2", FEBRUARY)]);
    sys := Next(PLAIN, before, step);
    assert {"evt_1", "evt_2"} + {"e3", "evt_3"} == {"evt_1", "evt_2", "e3", "evt_3"};
  }

  lemma ActivateShown() returns (sys: System)
    ensures Scene(PLAIN, sys, Subscribed(), map[], {"evt_1"})
  {
    hide Scene, Becomes, Presentable, WorkAfter, ValidOpaqueId, T.FourDigitYear, AddCalendarMonths, Enabled, Next,
         Addressable;
    ProperEvents();
    SubscribedShown();
    StripeWork(map[], Activated, Subscribed(), "x1");
    sys := ActivateScene(PLAIN, STRIPE_CHECKOUT, JANUARY, IDS_1, map[]);
  }

  /** A canceled subscription whose expiry is not on record. */
  ghost predicate Stranded(sys: System, ref: string) {
    && ref in sys.db.subs && sys.db.subs[ref].status == Status.Canceled
    && !ExpiryScheduled(sys.db, ref, sys.db.subs[ref].periodEnd)
  }

  function WithdrawnExpiry(): map<string, ScheduledAction> {
    map["x2" := Withdrawn(Expiry("x2", FEBRUARY)), "x4" := Expiry("x4", MARCH)]
  }

  const USED := {"evt_1", "evt_2", "e3", "evt_3"}

  /** The restored subscription, canceled again. */
  lemma CanceledAgainRun() returns (sys: System)
    ensures Scene(PLAIN, sys, CanceledTwice(), WithdrawnExpiry(), USED + {"evt_4"})
  {
    hide Scene, Becomes, Shown, WorkAfter, ValidOpaqueId, T.FourDigitYear, AddCalendarMonths, ActionsAfterCancel,
         Enabled, Next, Reachable;
    Months();
    ProperEvents();
    RowsShown();
    var sys3 := RestoredRun();
    CancelBecomes(RestoredOnce(), JANUARY);
    CancelWork(map["x2" := Expiry("x2", FEBRUARY)], CanceledTwice(), "x4");
    SecondExpiry();
    CancelScene(PLAIN, sys3, RestoredOnce(), map["x2" := Expiry("x2", FEBRUARY)], USED, JANUARY, IDS_4, CanceledTwice(),
                WithdrawnExpiry());
    sys := Next(PLAIN, sys3, CancelStep("sub_1", JANUARY, IDS_4, JANUARY));
  }

  /** Restored for the first period again: the state before the webhook is committed, and its commit. */
  lemma RestoredAgainRun() returns (before: System, step: Step)
    ensures hide *; Reachable(PLAIN, before) && before.db.subs == map["sub_1" := CanceledTwice()]
            && Enabled(PLAIN, before, step)
    ensures Scene(PLAIN, Next(PLAIN, before, step), RestoredTwice(), WithdrawnExpiry(),
                  USED + {"evt_4"} + {"e5", "evt_5"})
  {
    hide Scene, Becomes, Shown, WorkAfter, ValidOpaqueId, T.FourDigitYear, AddCalendarMonths, ActionsAfterCancel,
         Enabled, Next, Reachable;
    Months();
    ProperEvents();
    RowsShown();
    var sys4 := CanceledAgainRun();
    RestoreBecomes(CanceledTwice(), JANUARY, FEBRUARY, JANUARY);
    StripeWork(WithdrawnExpiry(), Renewed, RestoredTwice(), "x5");
    before,
        step := WebhookScene(PLAIN, sys4, CanceledTwice(), WithdrawnExpiry(), USED + {"evt_4"}, "e5",
                             Reports(JANUARY, FEBRUARY), JANUARY, IDS_5,
                                 Renewed, RestoredTwice(), WithdrawnExpiry());
  }

  /** A step moves the end of a stored period back. */
  ghost predicate MovesBack(env: Environment, sys: System, step: Step, ref: string) {
    hide *;
    && Enabled(env, sys, step) && ref in sys.db.subs && ref in Next(env, sys, step).db.subs
    && Next(env, sys, step).db.subs[ref].periodEnd < sys.db.subs[ref].periodEnd
  }

  /** A webhook about an earlier period is committed, and the period ends earlier than before. */
  lemma RegressionReached()
    ensures exists env, sys, step, ref :: Reachable(env, sys) && MovesBack(env, sys, step, ref)
  {
    hide Reachable, Enabled, T.FourDigitYear, AddCalendarMonths;
    Months();
    var before, step := RestoredAgainRun();
    assert "sub_1" in before.db.subs && before.db.subs["sub_1"] == CanceledTwice();
    RegressedScene(before, step);
  }

  lemma RegressedScene(sys: System, step: Step)
    requires hide *; Enabled(PLAIN, sys, step) && sys.db.subs == map["sub_1" := CanceledTwice()]
    requires Next(PLAIN, sys, step).db.subs == map["sub_1" := RestoredTwice()]
    ensures MovesBack(PLAIN, sys, step, "sub_1")
  {
    hide Enabled, Next, T.FourDigitYear, AddCalendarMonths;
    Months();
    assert sys.db.subs["sub_1"] == CanceledTwice() && Next(PLAIN, sys, step).db.subs["sub_1"] == RestoredTwice();
  }

  /** Canceled, restored for a later period, canceled, restored for the first period again, and canceled: the expiry of
      the first period was withdrawn on the way and is not scheduled again, so the subscription stays canceled with
      nothing to end it. */
  lemma SwallowedConflict()
    ensures exists env, sys, ref :: Reachable(env, sys) && Stranded(sys, ref)
  {
    hide Scene, Becomes, Shown, WorkAfter, ValidOpaqueId, T.FourDigitYear, AddCalendarMonths, ActionsAfterCancel,
         Enabled, Next, Reachable;
    Months();
    ProperEvents();
    RowsShown();
    var before, step := RestoredAgainRun();
    var sys5, used := Next(PLAIN, before, step), USED + {"evt_4"} + {"e5", "evt_5"};
    CancelBecomes(RestoredTwice(), JANUARY);
    CancelWork(WithdrawnExpiry(), CanceledThrice(), "x6");
    NoThirdExpiry();
    var last := map["x2" := Withdrawn(Expiry("x2", FEBRUARY)), "x4" := Withdrawn(Expiry("x4", MARCH))];
    CancelScene(PLAIN, sys5, RestoredTwice(), WithdrawnExpiry(), used, JANUARY, IDS_6, CanceledThrice(), last);
    StrandedScene(Next(PLAIN, sys5, CancelStep("sub_1", JANUARY, IDS_6, JANUARY)), used + {"evt_6"});
  }

  lemma StrandedScene(sys: System, used: set<string>)
    requires Scene(PLAIN, sys, CanceledThrice(),
                   map["x2" := Withdrawn(Expiry("x2", FEBRUARY)), "x4" := Withdrawn(Expiry("x4", MARCH))], used)
    ensures Reachable(PLAIN, sys) && Stranded(sys, "sub_1")
  {
    hide Reachable, AddCalendarMonths;
    assert "sub_1" in sys.db.subs && sys.db.subs["sub_1"] == CanceledThrice();
    forall id | id in sys.db.actions ensures !sys.db.actions[id].status.Pending? {
    }
  }

  /** A step expires a subscription that is active and paid for longer. */
  ghost predicate EndsEarly(env: Environment, sys: System, step: Step, ref: string) {
    hide *;
    && Enabled(env, sys, step) && step.ExpireStep?
    && ref in sys.db.subs && sys.db.subs[ref].family == Stripe && sys.db.subs[ref].status == Status.Active
       && step.now < sys.db.subs[ref].periodEnd
    && ref in Next(env, sys, step).db.subs && Next(env, sys, step).db.subs[ref].status == Status.Expired
  }

  /** Canceled and restored for a later period: the expiry of the first period is still pending, and ends the restored
      subscription a month before its period ends. */
  lemma RestoredStripeStillExpires()
    ensures exists env, sys, step, ref :: Reachable(env, sys) && EndsEarly(env, sys, step, ref)
  {
    hide Becomes, Shown, ValidOpaqueId, T.FourDigitYear, AddCalendarMonths, Enabled, Next, Reachable;
    Months();
    ProperEvents();
    RowsShown();
    var sys := RestoredRun();
    ExpireBecomes(RestoredOnce(), FEBRUARY);
    ExpireScene(PLAIN, sys, RestoredOnce(), Expiry("x2", FEBRUARY), {"evt_1", "evt_2", "e3", "evt_3"}, FEBRUARY, IDS_4);
    var step := ExpireStep("x2", "t", FEBRUARY, IDS_4, FEBRUARY);
    assert "sub_1" in sys.db.subs && sys.db.subs["sub_1"] == RestoredOnce();
    assert EndsEarly(PLAIN, sys, step, "sub_1");
  }

  // ---------- an Adyen subscription is renewed ----------

  const ADYEN_CHECKOUT := STRIPE_CHECKOUT.(family := Adyen)

  const GENEROUS := Environment(Config(map["plan" := Plan("merchant", "EUR", 5)], map[], [], 0, 0, 0, "payments"),
                                (key: string) => true)

  function Member(): Subscription {
    FirstRow(ADYEN_CHECKOUT, "sub_1", JANUARY)
  }

  function Renewal(): ScheduledAction {
    NewAction("x1", "sub_1", Renew, FEBRUARY)
  }

  lemma MemberShown()
    ensures Shown(Member()) && Addressable(Member())
  {
    hide AddCalendarMonths, T.FourDigitYear, ValidPlanId, ValidOpaqueId;
    Months();
    ProperNames();
  }

  lemma RenewalWork(acts: map<string, ScheduledAction>, event: EventType, next: Subscription, newId: string)
    requires next.family == Adyen && next.status == Status.Active && (event == Renewed || event == Activated)
             && newId !in acts
    requires forall id :: id in acts ==>
               acts[id].status.Running? && acts[id].key != KeyOf(next.ref, Renew, next.periodEnd)
    ensures WorkAfter(acts, event, next, newId, acts[newId := NewAction(newId, next.ref, Renew, next.periodEnd)])
  {
    hide Schedule, CancelActions;
    forall s: Store | s.actions == acts
      ensures FollowUp(s, event, next,
                       newId).actions == acts[newId := NewAction(newId, next.ref, Renew, next.periodEnd)]
    {
      ScheduleEffect(s, next.ref, Renew, next.periodEnd, newId);
      CancelEffect(s, next.ref, Some(KeyOf(next.ref, Renew, next.periodEnd)));
    }
  }

  lemma MemberRun() returns (sys: System)
    ensures Scene(GENEROUS, sys, Member(), map["x1" := Renewal()], {"evt_1"})
  {
    hide Scene, Becomes, Presentable, WorkAfter, ValidOpaqueId, T.FourDigitYear, AddCalendarMonths, Enabled, Next,
         Addressable;
    ProperEvents();
    MemberShown();
    RenewalWork(map[], Activated, Member(), "x1");
    assert map[]["x1" := Renewal()] == map["x1" := Renewal()];
    sys := ActivateScene(GENEROUS, ADYEN_CHECKOUT, JANUARY, IDS_1, map["x1" := Renewal()]);
  }

  function Attempt(): ChargeAttempt {
    NewAttempt("a1", "ref_1", 1, "x1", Member(), Plan("merchant", "EUR", 5), "payments")
  }

  /** A worker has prepared the first charge of the renewal. */
  ghost predicate PreparedStage(sys: System) {
    && Reachable(GENEROUS, sys) && sys.workers == map[0 := Ready("x1", "a1")] && sys.sent == []
    && sys.db.subs == map["sub_1" := Member()] && sys.db.actions == map["x1" := Renewal()]
       && sys.db.attempts == map["a1" := Attempt()]
    && "evt_2" !in sys.db.outbound
  }

  lemma PreparedStore(s: Store)
    requires s.subs == map["sub_1" := Member()] && s.actions == map["x1" := Renewal()] && s.attempts == map[]
    ensures hide *; EarliestAction(s, FEBRUARY, ActionStatus.Pending, [Renew], "x1") && Chooses(s, "x1", Anew(1))
    ensures EnsurePrepared(s, GENEROUS.cfg, s.actions["x1"], Anew(1), "a1",
                           "ref_1") == Success((s.(attempts := map["a1" := Attempt()]), "a1"))
  {
    hide AddCalendarMonths;
    assert s.subs["sub_1"] == Member() && s.actions["x1"] == Renewal();
  }

  lemma PrepareStage(sys: System) returns (sys': System)
    requires Scene(GENEROUS, sys, Member(), map["x1" := Renewal()], {"evt_1"})
    ensures PreparedStage(sys')
  {
    hide Reachable, Enabled, Next, AddCalendarMonths, EarliestAction, Chooses, EnsurePrepared;
    PreparedStore(sys.db);
    PrepareNext(GENEROUS, sys, 0, "x1", Anew(1), "a1", "ref_1", FEBRUARY, sys.db.(attempts := map["a1" := Attempt()]),
                "a1");
    sys' := Next(GENEROUS, sys, PrepareStep(0, "x1", Anew(1), "a1", "ref_1", FEBRUARY));
  }

  function HeldAction(): ScheduledAction {
    Taken(Renewal(), "t", FEBRUARY + DEFAULT_LEASE)
  }

  function HeldAttempt(): ChargeAttempt {
    Submitted(Attempt(), HeldAction().claim, FEBRUARY, Deadline(GENEROUS.cfg, FEBRUARY))
  }

  /** The charge is under way, or answered. */
  ghost predicate ChargingStage(sys: System, k: Worker, sent: seq<Submission>) {
    && Reachable(GENEROUS, sys) && sys.workers == map[0 := k] && sys.sent == sent
    && sys.db.subs == map["sub_1" := Member()] && sys.db.actions == map["x1" := HeldAction()]
       && sys.db.attempts == map["a1" := HeldAttempt()]
    && "evt_2" !in sys.db.outbound
  }

  lemma ClaimedStore(s: Store)
    requires s.subs == map["sub_1" := Member()] && s.actions == map["x1" := Renewal()]
             && s.attempts == map["a1" := Attempt()]
    ensures ClaimCharge(s, GENEROUS.cfg, "x1", "a1", "t", FEBRUARY) ==
            Success((s.(actions := map["x1" := HeldAction()], attempts := map["a1" := HeldAttempt()]), HeldAction(),
                     HeldAttempt()))
  {
    hide AddCalendarMonths, T.FourDigitYear, ClaimAction, ClaimAttemptWithAction, NewAttempt, Attempt, Member, Blocked;
    Months();
    MemberServed(s);
    TakenAlone(s, Renewal(), "t", FEBRUARY, DEFAULT_LEASE);
    AttemptNew();
    SubmittedAlone(s.(actions := map["x1" := HeldAction()]), HeldAction(), Attempt(), "t", FEBRUARY, DEFAULT_LEASE,
                   Deadline(GENEROUS.cfg, FEBRUARY));
  }

  lemma MemberServed(s: Store)
    requires s.subs == map["sub_1" := Member()]
    ensures !Blocked(s, Renewal())
  {
    hide AddCalendarMonths;
    assert s.subs["sub_1"] == Member();
  }

  lemma AttemptNew()
    ensures Attempt().id == "a1" && Attempt().firstSubmittedAt.None? && Attempt().periodStart == FEBRUARY
            && Attempt().periodEnd == MARCH
            && Attempt().request.idempotencyKey == ChargeKey("ref_1") && Attempt().ref == "sub_1"
  {
    hide AddCalendarMonths;
  }

  lemma ClaimStage(sys: System) returns (sys': System)
    requires PreparedStage(sys)
    ensures ChargingStage(sys', Charging(HeldAction(), HeldAttempt(), "t", FEBRUARY), [])
  {
    hide Reachable, Enabled, Next, AddCalendarMonths, ClaimCharge, Attempt;
    AttemptNew();
    ClaimedStore(sys.db);
    var db := sys.db.(actions := map["x1" := HeldAction()], attempts := map["a1" := HeldAttempt()]);
    ClaimNext(GENEROUS, sys, 0, "t", FEBRUARY, db, HeldAction(), HeldAttempt());
    sys' := Next(GENEROUS, sys, ClaimStep(0, "t", FEBRUARY));
  }

  lemma SendStage(sys: System) returns (sys': System)
    requires ChargingStage(sys, Charging(HeldAction(), HeldAttempt(), "t", FEBRUARY), [])
    ensures ChargingStage(sys', Answered(HeldAction(), HeldAttempt(), "t", FEBRUARY, Authorised("pay_1")),
                          [SubmissionOf(HeldAttempt().request)])
  {
    hide Reachable, Enabled, Next, AddCalendarMonths, HeldAttempt;
    SendNext(GENEROUS, sys, 0, Authorised("pay_1"));
    sys' := Next(GENEROUS, sys, SendStep(0, true, Authorised("pay_1")));
  }

  function PaidAttempt(): ChargeAttempt {
    HeldAttempt().(status := Authorized, paymentId := Some("pay_1"), completedAt := Some(FEBRUARY),
                   claim := HeldAction().claim.Release())
  }

  function RenewedMember(): Subscription {
    RestoredRow(Member(), FEBRUARY, MARCH, FEBRUARY)
  }

  lemma RenewBecomes()
    ensures Becomes(Member(), PaidPeriod(FEBRUARY, MARCH), FEBRUARY, Renewed, RenewedMember())
  {
    Months();
    MemberShown();
    hide AddCalendarMonths, T.FourDigitYear, ValidPlanId;
  }

  /** The actions once the renewal is committed and before its own action is finished. */
  function NextActions(): map<string, ScheduledAction> {
    map["x1" := HeldAction(), "x2" := NewAction("x2", "sub_1", Renew, MARCH)]
  }

  lemma RenewedStore(s: Store)
    requires Ledger.LedgerInv(s) && GoodSubs(s) && "evt_2" !in s.outbound
    requires s.subs == map["sub_1" := Member()] && s.actions == map["x1" := HeldAction()]
    ensures hide *; var r := Observe(s, "sub_1", PaidPeriod(FEBRUARY, MARCH), FEBRUARY, IDS_2, FEBRUARY);
            && r.Success? && r.value.subs == map["sub_1" := RenewedMember()] && r.value.actions == NextActions()
               && r.value.attempts == s.attempts
  {
    hide Ledger.LedgerInv, GoodSubs, Observe, Becomes, WorkAfter, ValidOpaqueId, AddCalendarMonths;
    Months();
    ProperEvents();
    RenewBecomes();
    RenewalWork(map["x1" := HeldAction()], Renewed, RenewedMember(), "x2");
    assert map["x1" := HeldAction()]["x2" := NewAction("x2", "sub_1", Renew, MARCH)] == NextActions();
    ObservedScene(s, Member(), PaidPeriod(FEBRUARY, MARCH), FEBRUARY, IDS_2, Renewed, RenewedMember(), NextActions());
  }

  lemma SettledStore(s: Store)
    requires Ledger.LedgerInv(s) && GoodSubs(s) && "evt_2" !in s.outbound
    requires s.subs == map["sub_1" := Member()] && s.actions == map["x1" := HeldAction()]
             && s.attempts == map["a1" := HeldAttempt()]
    ensures hide *;
            var r := SettleCharge(s, GENEROUS.cfg, HeldAction(), "a1", "t", 1, Authorised("pay_1"), FEBRUARY, IDS_2,
                                  FEBRUARY);
            && r.Success? && r.value.subs == map["sub_1" := RenewedMember()]
               && r.value.attempts == map["a1" := PaidAttempt()]
            && "x2" in r.value.actions && r.value.actions["x2"] == NewAction("x2", "sub_1", Renew, MARCH)
  {
    hide Ledger.LedgerInv, GoodSubs, Observe, UpdateAttempt, FinishAction, Member, RenewedMember, NewAttempt,
         AddCalendarMonths;
    AttemptNew();
    RecordedAlone(s, HeldAttempt(), PaidAttempt());
    var s1 := s.(attempts := map["a1" := PaidAttempt()]);
    SameBooksLedger(s, s1);
    RenewedStore(s1);
    FinishedAmong(Observe(s1, "sub_1", PaidPeriod(FEBRUARY, MARCH), FEBRUARY, IDS_2, FEBRUARY).value, HeldAction(),
                  "t");
  }

  /** A renewal that was sent once, authorised and committed. */
  ghost predicate ChargedOnce(env: Environment, sys: System, ref: string, id: string) {
    && |sys.sent| == 1 && env.authorises(sys.sent[0].idempotencyKey)
    && id in sys.db.attempts && sys.sent[0] == SubmissionOf(sys.db.attempts[id].request)
    && ref in sys.db.subs && sys.db.subs[ref].family == Adyen && sys.db.subs[ref].status == Status.Active
    && Books.Pays(sys.db.attempts, id, sys.db.subs[ref])
  }

  lemma SettleStage(sys: System) returns (sys': System)
    requires ChargingStage(sys, Answered(HeldAction(), HeldAttempt(), "t", FEBRUARY, Authorised("pay_1")),
                           [SubmissionOf(HeldAttempt().request)])
    ensures Reachable(GENEROUS, sys') && ChargedOnce(GENEROUS, sys', "sub_1", "a1")
  {
    hide Reachable, Enabled, Next, AddCalendarMonths, SettleCharge, Ledger.LedgerInv, GoodSubs, GoodActions,
         Bindings.Bound, NewAttempt;
    ReachBooks(GENEROUS, sys);
    AttemptNew();
    SettledStore(sys.db);
    var db := SettleCharge(sys.db, GENEROUS.cfg, HeldAction(), "a1", "t", 1, Authorised("pay_1"), FEBRUARY, IDS_2,
                           FEBRUARY).value;
    SettleNext(GENEROUS, sys, 0, IDS_2, FEBRUARY, db);
    sys' := Next(GENEROUS, sys, SettleStep(0, IDS_2, FEBRUARY));
    assert sys'.db.attempts["a1"] == PaidAttempt() && sys'.db.subs["sub_1"] == RenewedMember();
  }

  /** A run that charges: subscribed in January, and at the end of the month charged once, authorised, and renewed for
      the month that follows. */
  lemma RenewalReached()
    ensures exists env, sys, ref, id :: Reachable(env, sys) && ChargedOnce(env, sys, ref, id)
  {
    hide Scene, PreparedStage, ChargingStage, Reachable, ChargedOnce;
    var sys1 := MemberRun();
    var sys2 := PrepareStage(sys1);
    var sys3 := ClaimStage(sys2);
    var sys4 := SendStage(sys3);
    var sys5 := SettleStage(sys4);
    assert Reachable(GENEROUS, sys5) && ChargedOnce(GENEROUS, sys5, "sub_1", "a1");
  }
}
