/**
 * A run in which a canceled Adyen subscription has no expiry. A worker stalls before it submits the first charge of a
 * renewal; the second charge is on its way when the first is submitted again and now refused for good, which ends the
 * dunning with an expiry due at the end of the next month. Then the second charge turns out to be authorised: the
 * renewal withdraws that expiry, and the cancellation that follows finds its key taken.
 */
module Stranding {
  import opened Wrappers
  import opened Calendar
  import opened Protocol
  import opened Model
  import opened Transition
  import opened Engine
  import opened Scheduler
  import opened System
  import opened Effects
  import opened ChargeSafety
  import opened Announcements
  import opened Promises
  import opened Regressions
  import opened Scenarios
  import opened Witnesses
  import Bindings
  import ChargeEvents
  import Ledger
  import T = Timestamps

  // ---------- the store after each kind of transaction ----------

  /** An attempt that is submitted under the claim of its action, for the first time or again. */
  function Resubmitted(t: ChargeAttempt, claim: Claim, now: Instant, deadline: Instant): ChargeAttempt {
    if t.firstSubmittedAt.Some? then t.(status := AttemptStatus.Running, claim := claim)
    else Submitted(t, claim, now, deadline)
  }

  lemma ClaimedAmong(s: Store, cfg: Config, a: ScheduledAction, t: ChargeAttempt, token: string, now: Instant)
    requires a.id in s.actions && s.actions[a.id] == a && !Blocked(s, a) && (a.status.Pending? || a.status.Uncertain?)
    requires t.id in s.attempts && s.attempts[t.id] == t && Deadline(cfg, now) != ZERO_TIME
    ensures var a' := Taken(a, token, now + Lease(cfg));
            var t' := Resubmitted(t, a'.claim, now, Deadline(cfg, now));
            ClaimCharge(s, cfg, a.id, t.id, token, now)
            == Success((s.(actions := s.actions[a.id := a'], attempts := s.attempts[t.id := t']), a', t'))
  {
    hide Blocked, Deadline;
  }

  lemma ClaimedAlone(s: Store, cfg: Config, a: ScheduledAction, t: ChargeAttempt, token: string, now: Instant)
    requires s.actions == map[a.id := a] && !Blocked(s, a) && (a.status.Pending? || a.status.Uncertain?)
    requires t.id in s.attempts && s.attempts[t.id] == t && Deadline(cfg, now) != ZERO_TIME
    ensures var a' := Taken(a, token, now + Lease(cfg));
            var t' := Resubmitted(t, a'.claim, now, Deadline(cfg, now));
            ClaimCharge(s, cfg, a.id, t.id, token, now)
            == Success((s.(actions := map[a.id := a'], attempts := s.attempts[t.id := t']), a', t'))
  {
    hide Blocked, Deadline, ClaimCharge;
    ClaimedAmong(s, cfg, a, t, token, now);
    assert s.actions[a.id := Taken(a, token, now + Lease(cfg))] == map[a.id := Taken(a, token, now + Lease(cfg))];
  }

  function Unsure(a: ScheduledAction, due: Instant): ScheduledAction {
    a.(status := ActionStatus.Uncertain, lastError := Some("uncertain"), dueAt := due, claim := a.claim.Release())
  }

  lemma UnclearStore(s: Store, cfg: Config, a: ScheduledAction, t: ChargeAttempt, token: string, now: Instant, ids: Ids)
    requires hide *; s.actions == map[a.id := a] && a.status.Running? && a.claim.Owned(token, a.claim.fence)
    requires t.id in s.attempts && s.attempts[t.id] == t && t.claim.Owned(token, a.claim.fence)
    ensures SettleCharge(s, cfg, a, t.id, token, a.claim.fence, Unclear, now, ids, now)
            == Success(s.(attempts := s.attempts[t.id := t.(status := AttemptStatus.Uncertain,
                                                            claim := t.claim.Release())],
                          actions := map[a.id := Unsure(a, RecheckAt(t, now))]))
  {
    hide RecheckAt;
    assert s.actions[a.id] == a;
    assert s.actions[a.id := Unsure(a, RecheckAt(t, now))] == map[a.id := Unsure(a, RecheckAt(t, now))];
  }

  function Requeued(a: ScheduledAction, due: Instant): ScheduledAction {
    a.(status := ActionStatus.Pending, lastError := Some("refused"), dueAt := due, claim := a.claim.Release())
  }

  function Exhausted(a: ScheduledAction): ScheduledAction {
    a.(status := ActionStatus.Completed, lastError := Some("refused"), claim := a.claim.Release())
  }

  /** The store once a refusal is on record, before its subscription is looked at. */
  function RefusedStore(s: Store, t: ChargeAttempt, code: string, now: Instant): Store {
    s.(attempts := s.attempts[t.id := DeclinedAttempt(t, "", code, now)])
  }

  lemma RetryStore(s: Store, cfg: Config, a: ScheduledAction, t: ChargeAttempt, token: string, code: string,
          now: Instant, ids: Ids, s2: Store)
    requires t.id in s.attempts && s.attempts[t.id] == t && t.claim.Owned(token, a.claim.fence)
    requires Observe(RefusedStore(s, t, code, now), a.ref, Observed(Status.PastDue), now, ids, now) == Success(s2)
    requires s2.actions == map[a.id := a] && a.status.Running? && a.claim.Owned(token, a.claim.fence)
    requires !LastRefusal(cfg, t.number, IsRetryableRefusal(code))
    ensures hide *; SettleCharge(s, cfg, a, t.id, token, a.claim.fence, Reply.Declined("", code), now, ids, now)
            == Success(s2.(actions := map[a.id := Requeued(a, now + cfg.retryDelays[t.number - 1])]))
  {
    hide Observe, IsRetryableRefusal;
    assert s2.actions[a.id] == a;
    var a' := Requeued(a, now + cfg.retryDelays[t.number - 1]);
    assert s2.actions[a.id := a'] == map[a.id := a'];
  }

  lemma ExhaustedAlone(s: Store, a: ScheduledAction, token: string)
    requires s.actions == map[a.id := a] && a.status.Running? && a.claim.Owned(token, a.claim.fence)
    ensures FinishAction(s, a.id, token, a.claim.fence, ActionStatus.Completed, None, Some("refused"))
            == Success(s.(actions := map[a.id := Exhausted(a)]))
  {
    assert s.actions[a.id] == a;
    assert s.actions[a.id := Exhausted(a)] == map[a.id := Exhausted(a)];
  }

  lemma EnsuredBeside(s: Store, a: ScheduledAction, y: ScheduledAction)
    requires s.actions == map[a.id := a] && a.key != y.key && a.id != y.id
    ensures EnsureAction(s, y) == s.(actions := map[a.id := a, y.id := y])
  {
    hide EnsureAction;
    EnsureEffect(s, y);
    assert s.actions[a.id] == a;
    assert s.actions[y.id := y] == map[a.id := a, y.id := y];
  }

  lemma LastStore(s: Store, cfg: Config, a: ScheduledAction, t: ChargeAttempt, token: string, code: string,
          now: Instant, ids: Ids, s2: Store)
    requires hide *; t.id in s.attempts && s.attempts[t.id] == t && t.claim.Owned(token, a.claim.fence)
    requires Observe(RefusedStore(s, t, code, now), a.ref, Observed(Status.PastDue), now, ids, now) == Success(s2)
    requires s2.actions == map[a.id := a] && a.status.Running? && a.claim.Owned(token, a.claim.fence)
             && a.key.kind.Renew?
    requires LastRefusal(cfg, t.number, IsRetryableRefusal(code)) && ids.dunning != a.id
    ensures var y := NewAction(ids.dunning, a.ref, Expire, now + cfg.dunningTermination);
            SettleCharge(s, cfg, a, t.id, token, a.claim.fence, Reply.Declined("", code), now, ids, now)
            == Success(s2.(actions := map[a.id := Exhausted(a), y.id := y]))
  {
    hide Observe, IsRetryableRefusal, EnsureAction, FinishAction;
    ExhaustedAlone(s2, a, token);
    EnsuredBeside(s2.(actions := map[a.id := Exhausted(a)]), Exhausted(a),
                  NewAction(ids.dunning, a.ref, Expire, now + cfg.dunningTermination));
  }

  // ---------- the stage ----------

  /** Two retries without a delay; an exhausted dunning expires the subscription after the length of February. The
      provider authorises the second charge and no other. */
  const HARSH :=
    Environment(Config(map["plan" := Plan("merchant", "EUR", 5)], map[], [0, 0], MARCH - FEBRUARY, 0, 0, "payments"),
                (key: string) => key == ChargeKey("ref_2"))

  /** The only subscription, its actions and attempts, and who is at work. */
  ghost predicate Stage(sys: System, workers: map<nat, Worker>, row: Subscription, acts: map<string, ScheduledAction>,
          atts: map<string, ChargeAttempt>, used: set<string>)
  {
    hide *;
    && Reachable(HARSH, sys) && sys.workers == workers
    && sys.db.subs == map["sub_1" := row] && sys.db.actions == acts && sys.db.attempts == atts
    && (forall id :: id in sys.db.outbound ==> id in used)
    && (forall key :: key in sys.db.procEvents ==> key.id in used && sys.db.procEvents[key].actionId in used)
    && (forall key :: key in sys.db.leases ==> !sys.db.leases[key].running)
  }

  lemma StartStage() returns (sys: System)
    ensures Stage(sys, map[], Member(), map["x1" := Renewal()], map[], {"evt_1"})
  {
    hide Reachable, Becomes, Presentable, WorkAfter, ValidOpaqueId, T.FourDigitYear, AddCalendarMonths, Addressable;
    ProperEvents();
    MemberShown();
    RenewalWork(map[], Activated, Member(), "x1");
    assert map[]["x1" := Renewal()] == map["x1" := Renewal()];
    sys := ActivateScene(HARSH, ADYEN_CHECKOUT, JANUARY, IDS_1, map["x1" := Renewal()]);
  }

  // ---------- the first charge, picked up by two workers ----------

  lemma FirstPrepared(s: Store)
    requires s.subs == map["sub_1" := Member()] && s.actions == map["x1" := Renewal()] && s.attempts == map[]
    ensures hide *; EarliestAction(s, FEBRUARY, ActionStatus.Pending, [Renew], "x1") && Chooses(s, "x1", Anew(1))
    ensures EnsurePrepared(s, HARSH.cfg, s.actions["x1"], Anew(1), "a1",
                           "ref_1") == Success((s.(attempts := map["a1" := Attempt()]), "a1"))
  {
    hide AddCalendarMonths;
    assert s.subs["sub_1"] == Member() && s.actions["x1"] == Renewal();
  }

  lemma PreparedAgain(s: Store)
    requires s.subs == map["sub_1" := Member()] && s.actions == map["x1" := Renewal()]
             && s.attempts == map["a1" := Attempt()]
    ensures EarliestAction(s, FEBRUARY, ActionStatus.Pending, [Renew], "x1") && Chooses(s, "x1", Reuse("a1"))
    ensures EnsurePrepared(s, HARSH.cfg, s.actions["x1"], Reuse("a1"), "", "") == Success((s, "a1"))
  {
    hide AddCalendarMonths;
    assert s.subs["sub_1"] == Member() && s.actions["x1"] == Renewal() && s.attempts["a1"] == Attempt();
  }

  /** Both workers are about to submit the first charge. */
  lemma ReadyStage() returns (sys: System)
    ensures hide *; Stage(sys, map[0 := Ready("x1", "a1"), 1 := Ready("x1", "a1")], Member(), map["x1" := Renewal()],
                  map["a1" := Attempt()], {"evt_1"})
  {
    hide Reachable, AddCalendarMonths, EarliestAction, Chooses, EnsurePrepared, Enabled, Next;
    var sys0 := StartStage();
    FirstPrepared(sys0.db);
    var db := sys0.db.(attempts := map["a1" := Attempt()]);
    PrepareNext(HARSH, sys0, 0, "x1", Anew(1), "a1", "ref_1", FEBRUARY, db, "a1");
    var sys1 := Next(HARSH, sys0, PrepareStep(0, "x1", Anew(1), "a1", "ref_1", FEBRUARY));
    PreparedAgain(sys1.db);
    PrepareNext(HARSH, sys1, 1, "x1", Reuse("a1"), "", "", FEBRUARY, db, "a1");
    sys := Next(HARSH, sys1, PrepareStep(1, "x1", Reuse("a1"), "", "", FEBRUARY));
  }

  function Until(): Instant {
    FEBRUARY + DEFAULT_LEASE
  }

  function Running1(): ScheduledAction {
    Taken(Renewal(), "t", Until())
  }

  function Sent1(): ChargeAttempt {
    Resubmitted(Attempt(), Running1().claim, FEBRUARY, Deadline(HARSH.cfg, FEBRUARY))
  }

  lemma Unblocked(s: Store, row: Subscription, a: ScheduledAction)
    requires s.subs == map["sub_1" := row] && !row.chargingBlocked && a.ref == "sub_1"
    ensures !Blocked(s, a)
  {
    assert s.subs["sub_1"] == row;
  }

  lemma LaterDeadline()
    ensures Deadline(HARSH.cfg, FEBRUARY) != ZERO_TIME
  {
    hide AddCalendarMonths, T.FourDigitYear;
    Months();
  }

  lemma FirstRefused()
    ensures !HARSH.authorises(ChargeKey("ref_1"))
  {
    assert ChargeKey("ref_1")[14] == '1' && ChargeKey("ref_2")[14] == '2';
  }

  lemma SentKey()
    ensures Sent1().request.idempotencyKey == ChargeKey("ref_1") && Sent1().id == "a1" && Sent1().number == 1
            && Sent1().firstSubmittedAt.Some? && Sent1().claim == Running1().claim
  {
    hide AddCalendarMonths, ChargeKey;
    AttemptNew();
  }

  /** The first worker has submitted it; the other one stalls. */
  lemma SentStage() returns (sys: System)
    ensures hide *; Stage(sys,
                  map[0 := Answered(Running1(), Sent1(), "t", FEBRUARY, Reply.Declined("", "")),
                      1 := Ready("x1", "a1")],
                  Member(), map["x1" := Running1()], map["a1" := Sent1()], {"evt_1"})
  {
    hide Reachable, AddCalendarMonths, Enabled, Next, ClaimCharge, Deadline, Blocked;
    var sys0 := ReadyStage();
    AttemptNew();
    LaterDeadline();
    Unblocked(sys0.db, Member(), Renewal());
    ClaimedAlone(sys0.db, HARSH.cfg, Renewal(), Attempt(), "t", FEBRUARY);
    var db := sys0.db.(actions := map["x1" := Running1()], attempts := map["a1" := Sent1()]);
    assert sys0.db.attempts["a1" := Sent1()] == map["a1" := Sent1()];
    ClaimNext(HARSH, sys0, 0, "t", FEBRUARY, db, Running1(), Sent1());
    var sys1 := Next(HARSH, sys0, ClaimStep(0, "t", FEBRUARY));
    FirstRefused();
    SentKey();
    SendNext(HARSH, sys1, 0, Reply.Declined("", ""));
    sys := Next(HARSH, sys1, SendStep(0, true, Reply.Declined("", "")));
  }

  // ---------- refused, and tried again ----------

  function Overdue(): Subscription {
    Member().(status := Status.PastDue, version := 2, pastDueSince := Some(FEBRUARY), stateChangedAt := FEBRUARY)
  }

  lemma GoesOverdue()
    ensures Becomes(Member(), Observed(Status.PastDue), FEBRUARY, WentPastDue, Overdue()) && Shown(Overdue())
  {
    hide AddCalendarMonths, T.FourDigitYear, ValidPlanId;
    Months();
    MemberShown();
  }

  lemma OverdueWork(acts: map<string, ScheduledAction>, next: Subscription, newId: string)
    ensures WorkAfter(acts, WentPastDue, next, newId, acts)
  {
  }

  function Refused1(): ChargeAttempt {
    DeclinedAttempt(Sent1(), "", "", FEBRUARY)
  }

  function Waiting(): ScheduledAction {
    Requeued(Running1(), FEBRUARY)
  }

  lemma EmptyCodeRetries()
    ensures IsRetryableRefusal("") && !LastRefusal(HARSH.cfg, 1, IsRetryableRefusal(""))
  {
    assert Trim("") == "";
    assert seq(0, i requires 0 <= i < 0 => 'A') == "";
  }

  lemma RefusedNow(s: Store)
    requires Ledger.LedgerInv(s) && GoodSubs(s) && "evt_2" !in s.outbound
    requires s.subs == map["sub_1" := Member()] && s.actions == map["x1" := Running1()]
             && s.attempts == map["a1" := Sent1()]
    ensures hide *;
            var r := SettleCharge(s, HARSH.cfg, Running1(), "a1", "t", 1, Reply.Declined("", ""), FEBRUARY, IDS_2,
                                  FEBRUARY);
            && r.Success? && r.value == s.(subs := map["sub_1" := Overdue()], actions := map["x1" := Waiting()],
                                           attempts := map["a1" := Refused1()], outbound := r.value.outbound)
            && r.value.outbound.Keys == s.outbound.Keys + {"evt_2"}
  {
    hide Ledger.LedgerInv, GoodSubs, Observe, SettleCharge, Becomes, Shown, WorkAfter, ValidOpaqueId,
         IsRetryableRefusal, AddCalendarMonths, Member, Sent1, Refused1;
    ProperEvents();
    GoesOverdue();
    SentKey();
    EmptyCodeRetries();
    var s1 := RefusedStore(s, Sent1(), "", FEBRUARY);
    assert s.attempts["a1"] == Sent1();
    RefusedOnly(s);
    SameBooksLedger(s, s1);
    OverdueWork(s1.actions, Overdue(), "x2");
    MemberRef();
    ObservedScene(s1, Member(), Observed(Status.PastDue), FEBRUARY, IDS_2, WentPastDue, Overdue(), s1.actions);
    var s2 := Observe(s1, "sub_1", Observed(Status.PastDue), FEBRUARY, IDS_2, FEBRUARY).value;
    RetryStore(s, HARSH.cfg, Running1(), Sent1(), "t", "", FEBRUARY, IDS_2, s2);
  }

  lemma MemberRef()
    ensures Member().ref == "sub_1" && Overdue().ref == "sub_1" && !Member().chargingBlocked
            && !Overdue().chargingBlocked
  {
    hide AddCalendarMonths;
  }

  lemma RefusedOnly(s: Store)
    requires s.attempts == map["a1" := Sent1()]
    ensures RefusedStore(s, Sent1(), "", FEBRUARY).attempts == map["a1" := Refused1()]
  {
    hide AddCalendarMonths, DeclinedAttempt;
    SentKey();
  }

  /** The first charge was refused, and is to be tried again at once; the other worker still stalls. */
  lemma RefusedStage() returns (sys: System)
    ensures hide *; Stage(sys, map[1 := Ready("x1", "a1")], Overdue(), map["x1" := Waiting()], map["a1" := Refused1()],
                  {"evt_1", "evt_2"})
  {
    hide Reachable, AddCalendarMonths, Enabled, Next, SettleCharge, Ledger.LedgerInv, GoodSubs, GoodActions,
         Bindings.Bound, Refused1, Waiting, Overdue, Member;
    var sys0 := SentStage();
    ReachBooks(HARSH, sys0);
    SentKey();
    RefusedNow(sys0.db);
    var db := SettleCharge(sys0.db, HARSH.cfg, Running1(), "a1", "t", 1, Reply.Declined("", ""), FEBRUARY, IDS_2,
                           FEBRUARY).value;
    SettleNext(HARSH, sys0, 0, IDS_2, FEBRUARY, db);
    sys := Next(HARSH, sys0, SettleStep(0, IDS_2, FEBRUARY));
  }

  // ---------- the second charge ----------

  function Attempt2(): ChargeAttempt {
    NewAttempt("a2", "ref_2", 2, "x1", Overdue(), Plan("merchant", "EUR", 5), "payments")
  }

  lemma RefusedKey()
    ensures Refused1().request.idempotencyKey == ChargeKey("ref_1") && Refused1().request.reference == "ref_1"
            && Refused1().number == 1 && Refused1().id == "a1" && Refused1().status.Refused?
               && Refused1().actionId == "x1"
  {
    hide AddCalendarMonths, ChargeKey;
  }

  lemma SecondChosen(s: Store)
    requires s.subs == map["sub_1" := Overdue()] && s.actions == map["x1" := Waiting()]
             && s.attempts == map["a1" := Refused1()]
    ensures EarliestAction(s, FEBRUARY, ActionStatus.Pending, [Renew], "x1") && Chooses(s, "x1", Anew(2))
  {
    hide AddCalendarMonths, Refused1, Member;
    RefusedKey();
    MemberRef();
    assert s.subs["sub_1"] == Overdue() && s.actions["x1"] == Waiting() && s.attempts["a1"] == Refused1();
  }

  lemma AttemptOf2()
    ensures Attempt2().id == "a2" && Attempt2().number == 2 && Attempt2().request.reference == "ref_2"
            && Attempt2().request.idempotencyKey == ChargeKey("ref_2")
  {
    hide AddCalendarMonths, ChargeKey;
  }

  lemma SecondInserted(s: Store)
    requires s.attempts == map["a1" := Refused1()]
    ensures InsertAttempt(s, Attempt2()) == Success(s.(attempts := map["a1" := Refused1(), "a2" := Attempt2()]))
  {
    hide AddCalendarMonths, Refused1, Attempt2, ChargeKey;
    RefusedKey();
    AttemptOf2();
    FirstRefused();
    assert s.attempts["a1"] == Refused1();
    assert s.attempts["a2" := Attempt2()] == map["a1" := Refused1(), "a2" := Attempt2()];
  }

  lemma SecondPrepared(s: Store)
    requires s.subs == map["sub_1" := Overdue()] && s.actions == map["x1" := Waiting()]
             && s.attempts == map["a1" := Refused1()]
    ensures hide *; EnsurePrepared(s, HARSH.cfg, s.actions["x1"], Anew(2), "a2", "ref_2")
            == Success((s.(attempts := map["a1" := Refused1(), "a2" := Attempt2()]), "a2"))
  {
    hide AddCalendarMonths, InsertAttempt, Refused1, NewAttempt;
    SecondInserted(s);
    assert s.subs["sub_1"] == Overdue() && s.actions["x1"] == Waiting();
  }

  function Running2(): ScheduledAction {
    Taken(Waiting(), "t", Until())
  }

  function Sent2(): ChargeAttempt {
    Resubmitted(Attempt2(), Running2().claim, FEBRUARY, Deadline(HARSH.cfg, FEBRUARY))
  }

  function Unsure2(): ChargeAttempt {
    Sent2().(status := AttemptStatus.Uncertain, claim := Sent2().claim.Release())
  }

  function Rechecked(): ScheduledAction {
    Unsure(Running2(), RecheckAt(Sent2(), FEBRUARY))
  }

  lemma SecondKey()
    ensures Sent2().id == "a2" && Sent2().claim == Running2().claim && Attempt2().id == "a2" && Sent2().number == 2
            && Sent2().request.reference == "ref_2" && Sent2().request.idempotencyKey == ChargeKey("ref_2")
            && Sent2().periodStart == FEBRUARY && Sent2().periodEnd == MARCH && Sent2().ref == "sub_1"
               && Sent2().actionId == "x1"
            && Sent2().paymentId.None?
  {
    hide AddCalendarMonths, ChargeKey;
  }

  /** The second charge has been prepared. */
  lemma PreparedStage2() returns (sys: System)
    ensures hide *; Stage(sys, map[1 := Ready("x1", "a1"), 2 := Ready("x1", "a2")], Overdue(), map["x1" := Waiting()],
                  map["a1" := Refused1(), "a2" := Attempt2()], {"evt_1", "evt_2"})
  {
    hide Reachable, AddCalendarMonths, Enabled, Next, EnsurePrepared, Refused1, Waiting, Overdue, Attempt2,
         EarliestAction, Chooses;
    var sys0 := RefusedStage();
    SecondChosen(sys0.db);
    SecondPrepared(sys0.db);
    var db := sys0.db.(attempts := map["a1" := Refused1(), "a2" := Attempt2()]);
    PrepareNext(HARSH, sys0, 2, "x1", Anew(2), "a2", "ref_2", FEBRUARY, db, "a2");
    sys := Next(HARSH, sys0, PrepareStep(2, "x1", Anew(2), "a2", "ref_2", FEBRUARY));
  }

  /** The second charge has been submitted, and no clear answer has come back. */
  lemma SentStage2() returns (sys: System)
    ensures hide *; Stage(sys, map[1 := Ready("x1", "a1"), 2 := Answered(Running2(), Sent2(), "t", FEBRUARY, Unclear)],
                  Overdue(),
                  map["x1" := Running2()], map["a1" := Refused1(), "a2" := Sent2()], {"evt_1", "evt_2"})
  {
    hide Reachable, AddCalendarMonths, Enabled, Next, ClaimCharge, Refused1, Overdue, Attempt2, Deadline, Blocked;
    var sys0 := PreparedStage2();
    SecondKey();
    LaterDeadline();
    MemberRef();
    Unblocked(sys0.db, Overdue(), Waiting());
    ClaimedAlone(sys0.db, HARSH.cfg, Waiting(), Attempt2(), "t", FEBRUARY);
    var db := sys0.db.(actions := map["x1" := Running2()], attempts := map["a1" := Refused1(), "a2" := Sent2()]);
    assert sys0.db.attempts["a2" := Sent2()] == map["a1" := Refused1(), "a2" := Sent2()];
    ClaimNext(HARSH, sys0, 2, "t", FEBRUARY, db, Running2(), Sent2());
    var sys1 := Next(HARSH, sys0, ClaimStep(2, "t", FEBRUARY));
    SendNext(HARSH, sys1, 2, Unclear);
    sys := Next(HARSH, sys1, SendStep(2, true, Unclear));
  }

  lemma UnsureNow(s: Store)
    requires s.actions == map["x1" := Running2()] && s.attempts == map["a1" := Refused1(), "a2" := Sent2()]
    ensures SettleCharge(s, HARSH.cfg, Running2(), "a2", "t", 2, Unclear, FEBRUARY, IDS_3, FEBRUARY)
            == Success(s.(actions := map["x1" := Rechecked()], attempts := map["a1" := Refused1(), "a2" := Unsure2()]))
  {
    hide AddCalendarMonths, SettleCharge, Sent2, Refused1, RecheckAt;
    SecondKey();
    assert s.attempts["a2"] == Sent2();
    UnclearStore(s, HARSH.cfg, Running2(), Sent2(), "t", FEBRUARY, IDS_3);
    assert s.attempts["a2" := Unsure2()] == map["a1" := Refused1(), "a2" := Unsure2()];
  }

  /** Both charges are open at the provider. */
  lemma UnsureStage() returns (sys: System)
    ensures hide *; Stage(sys, map[1 := Ready("x1", "a1")], Overdue(), map["x1" := Rechecked()],
                  map["a1" := Refused1(), "a2" := Unsure2()],
                  {"evt_1", "evt_2"})
  {
    hide Reachable, AddCalendarMonths, Enabled, Next, SettleCharge, Refused1, Overdue, Sent2, Unsure2, Rechecked;
    var sys0 := SentStage2();
    SecondKey();
    UnsureNow(sys0.db);
    var db := sys0.db.(actions := map["x1" := Rechecked()], attempts := map["a1" := Refused1(), "a2" := Unsure2()]);
    SettleNext(HARSH, sys0, 2, IDS_3, FEBRUARY, db);
    sys := Next(HARSH, sys0, SettleStep(2, IDS_3, FEBRUARY));
  }

  // ---------- the first charge again ----------

  function Running3(): ScheduledAction {
    Taken(Rechecked(), "t", Until())
  }

  function Again1(): ChargeAttempt {
    Resubmitted(Refused1(), Running3().claim, FEBRUARY, Deadline(HARSH.cfg, FEBRUARY))
  }

  lemma AgainKey()
    ensures Again1().id == "a1" && Again1().claim == Running3().claim && Again1().number == 1
            && Again1().request.idempotencyKey == ChargeKey("ref_1") && Refused1().id == "a1"
               && Running3().claim.fence == 3
  {
    hide AddCalendarMonths, ChargeKey, Sent1;
    SentKey();
  }

  /** The stalled worker submits the first charge again; it is refused for good. */
  lemma AgainStage() returns (sys: System)
    ensures hide *;
            Stage(sys, map[1 := Answered(Running3(), Again1(), "t", FEBRUARY, Reply.Declined("", "6"))], Overdue(),
                  map["x1" := Running3()], map["a1" := Again1(), "a2" := Unsure2()], {"evt_1", "evt_2"})
  {
    hide Reachable, AddCalendarMonths, Enabled, Next, ClaimCharge, Refused1, Overdue, Unsure2, Deadline, Blocked,
         RecheckAt;
    var sys0 := UnsureStage();
    AgainKey();
    LaterDeadline();
    MemberRef();
    FirstRefused();
    Unblocked(sys0.db, Overdue(), Rechecked());
    ClaimedAlone(sys0.db, HARSH.cfg, Rechecked(), Refused1(), "t", FEBRUARY);
    var db := sys0.db.(actions := map["x1" := Running3()], attempts := map["a1" := Again1(), "a2" := Unsure2()]);
    assert sys0.db.attempts["a1" := Again1()] == map["a1" := Again1(), "a2" := Unsure2()];
    ClaimNext(HARSH, sys0, 1, "t", FEBRUARY, db, Running3(), Again1());
    var sys1 := Next(HARSH, sys0, ClaimStep(1, "t", FEBRUARY));
    SendNext(HARSH, sys1, 1, Reply.Declined("", "6"));
    sys := Next(HARSH, sys1, SendStep(1, true, Reply.Declined("", "6")));
  }

  function Dead1(): ChargeAttempt {
    DeclinedAttempt(Again1(), "", "6", FEBRUARY)
  }

  /** The expiry at the end of the dunning, due when March begins. */
  function DunningExpiry(): ScheduledAction {
    NewAction("y4", "sub_1", Expire, MARCH)
  }

  lemma SixIsFinal()
    ensures !IsRetryableRefusal("6") && LastRefusal(HARSH.cfg, 1, IsRetryableRefusal("6"))
  {
    assert Trim("6") == "6";
    assert seq(1, i requires 0 <= i < 1 => if "6"[i] == ' ' then '_' else UpperChar("6"[i])) == "6";
  }

  lemma StaysOverdue(s: Store)
    requires s.subs == map["sub_1" := Overdue()]
    ensures Observe(s, "sub_1", Observed(Status.PastDue), FEBRUARY, IDS_4, FEBRUARY) == Success(s)
  {
    Months();
    hide AddCalendarMonths, T.FourDigitYear;
    assert s.subs["sub_1"] == Overdue();
  }

  lemma DeadNow(s: Store)
    requires s.subs == map["sub_1" := Overdue()] && s.actions == map["x1" := Running3()]
    requires s.attempts == map["a1" := Again1(), "a2" := Unsure2()]
    ensures SettleCharge(s, HARSH.cfg, Running3(), "a1", "t", 3, Reply.Declined("", "6"), FEBRUARY, IDS_4, FEBRUARY)
            == Success(s.(actions := map["x1" := Exhausted(Running3()), "y4" := DunningExpiry()],
                          attempts := map["a1" := Dead1(), "a2" := Unsure2()]))
  {
    hide AddCalendarMonths, SettleCharge, Observe, Again1, Unsure2, Overdue, DeclinedAttempt, IsRetryableRefusal,
         Rechecked;
    AgainKey();
    SixIsFinal();
    DeadOnly(s);
    assert s.attempts["a1"] == Again1();
    var s1 := RefusedStore(s, Again1(), "6", FEBRUARY);
    StaysOverdue(s1);
    RecheckedOf();
    LastStore(s, HARSH.cfg, Running3(), Again1(), "t", "6", FEBRUARY, IDS_4, s1);
  }

  lemma RecheckedOf()
    ensures Rechecked().ref == "sub_1" && Rechecked().id == "x1" && Rechecked().key == KeyOf("sub_1", Renew, FEBRUARY)
  {
    hide AddCalendarMonths, RecheckAt;
  }

  lemma DeadOnly(s: Store)
    requires s.attempts == map["a1" := Again1(), "a2" := Unsure2()]
    ensures RefusedStore(s, Again1(), "6", FEBRUARY).attempts == map["a1" := Dead1(), "a2" := Unsure2()]
  {
    hide AddCalendarMonths, DeclinedAttempt, Again1, Unsure2;
    AgainKey();
  }

  /** The dunning is over although the second charge is still open. */
  lemma DeadStage() returns (sys: System)
    ensures Stage(sys, map[], Overdue(), map["x1" := Exhausted(Running3()), "y4" := DunningExpiry()],
                  map["a1" := Dead1(), "a2" := Unsure2()], {"evt_1", "evt_2"})
  {
    hide Reachable, AddCalendarMonths, Enabled, Next, SettleCharge, Overdue, Again1, Unsure2, Rechecked, Dead1,
         Exhausted, DunningExpiry;
    var sys0 := AgainStage();
    AgainKey();
    DeadNow(sys0.db);
    var db := sys0.db.(actions := map["x1" := Exhausted(Running3()), "y4" := DunningExpiry()],
                       attempts := map["a1" := Dead1(), "a2" := Unsure2()]);
    RecheckedOf();
    SettleNext(HARSH, sys0, 1, IDS_4, FEBRUARY, db);
    sys := Next(HARSH, sys0, SettleStep(1, IDS_4, FEBRUARY));
  }

  // ---------- the late authorisation ----------

  const LATE_NEWS := NormalizedEvent(EventKey(Adyen, "e5"), EventKind.AdyenRenewal, "", "", "ref_2", "", true, "", "")

  const LATE_HITS := Hits(None, None, Some("a2"), None, None)

  const ARRIVED := ProcessorEvent(LATE_NEWS.key, "e5", ProcessingState.Pending, None, None, UNCLAIMED)

  function LateClaim(s: Store): Claim {
    (if "ref_2" in s.leases then s.leases["ref_2"].claim else UNCLAIMED).Take("t", Until())
  }

  function LateLease(s: Store): ProcessingLease {
    ProcessingLease("ref_2", true, Some("e5"), LateClaim(s))
  }

  function LateStore(s: Store): Store {
    s.(leases := s.leases["ref_2" := LateLease(s)],
       procEvents := s.procEvents[LATE_NEWS.key := ARRIVED.(state := ProcessingState.Running, claim := LateClaim(s))])
  }

  lemma LateKey()
    ensures ProcessingKey(LATE_NEWS) == "ref_2" && TruthfulEvent(HARSH, LATE_NEWS)
  {
  }

  lemma LateTaken(s: Store)
    requires LATE_NEWS.key in s.procEvents && s.procEvents[LATE_NEWS.key] == ARRIVED
    requires "ref_2" in s.leases ==> !s.leases["ref_2"].running
    ensures ClaimProcessorEvent(s, LATE_NEWS.key, "ref_2", "t", FEBRUARY, 120) == Success((LateStore(s), LateLease(s)))
  {
    hide AddCalendarMonths;
  }

  /** The webhook about the second charge is about to be committed. */
  ghost predicate NewsStage(sys: System, lease: EventLease, tick: nat) {
    && Reachable(HARSH, sys) && sys.workers == map[0 := Fetched(LATE_NEWS, lease, None, tick)]
    && sys.db.subs == map["sub_1" := Overdue()] && sys.db.attempts == map["a1" := Dead1(), "a2" := Unsure2()]
    && sys.db.actions == map["x1" := Exhausted(Running3()), "y4" := DunningExpiry()]
    && (forall id :: id in sys.db.outbound ==> id in {"evt_1", "evt_2"})
    && StillOwned(sys.db, LATE_NEWS, lease) && HoldsLease(sys.db, LATE_NEWS, lease)
  }

  lemma LateHolds(s: Store)
    ensures var s', lease := LateStore(s), EventLease("t", LateClaim(s).fence);
            && StillOwned(s', LATE_NEWS, lease) && HoldsLease(s', LATE_NEWS, lease)
            && s' == s.(leases := s'.leases, procEvents := s'.procEvents)
  {
    LateKey();
    hide AddCalendarMonths, ProcessingKey;
  }

  lemma FetchedStage() returns (sys: System, lease: EventLease, tick: nat)
    ensures NewsStage(sys, lease, tick)
  {
    hide Reachable, AddCalendarMonths, Enabled, Next, Overdue, Unsure2, Dead1, Exhausted, DunningExpiry, Running3,
         ClaimProcessorEvent, TruthfulEvent, ProcessingKey, LateStore, LateLease, StillOwned, HoldsLease, LateClaim;
    var sys0 := DeadStage();
    LateKey();
    assert FreshWork(sys0.db, "e5");
    ReceiveNext(HARSH, sys0, 0, LATE_NEWS, "e5");
    var sys1 := Next(HARSH, sys0, ReceiveStep(0, LATE_NEWS, "e5"));
    LateTaken(sys1.db);
    LateHolds(sys1.db);
    LeaseNext(HARSH, sys1, 0, "t", FEBRUARY, LateStore(sys1.db), LateLease(sys1.db));
    var sys2 := Next(HARSH, sys1, LeaseStep(0, "t", FEBRUARY));
    FetchNext(HARSH, sys2, 0, None);
    LateFence(sys1.db);
    sys, lease, tick := Next(HARSH, sys2, FetchStep(0, None)), EventLease("t", LateClaim(sys1.db).fence), sys2.tick;
  }

  lemma LateFence(s: Store)
    ensures LateLease(s).claim == LateClaim(s)
  {
  }

  function Settled2(): ChargeAttempt {
    Unsure2().(status := Authorized, completedAt := Some(FEBRUARY))
  }

  function Reinstated(): Subscription {
    RestoredRow(Overdue(), FEBRUARY, MARCH, FEBRUARY)
  }

  /** The actions once the renewal is committed: the expiry of the dunning is withdrawn, the next renewal waits. */
  function AfterRenewal(): map<string, ScheduledAction> {
    map["x1" := Exhausted(Running3()), "y4" := Witnesses.Withdrawn(DunningExpiry()),
        "x5" := NewAction("x5", "sub_1", Renew, MARCH)]
  }

  lemma BecomesReinstated()
    ensures Becomes(Overdue(), PaidPeriod(FEBRUARY, MARCH), FEBRUARY, Renewed, Reinstated()) && Shown(Reinstated())
  {
    Months();
    GoesOverdue();
    hide AddCalendarMonths, T.FourDigitYear, ValidPlanId;
  }

  lemma ReinstatedWork()
    ensures WorkAfter(map["x1" := Exhausted(Running3()), "y4" := DunningExpiry()], Renewed, Reinstated(), "x5",
                      AfterRenewal())
  {
    hide Schedule, CancelActions, AddCalendarMonths, Rechecked, Member;
    var acts := map["x1" := Exhausted(Running3()), "y4" := DunningExpiry()];
    RecheckedOf();
    Months();
    OverdueFamily();
    forall s: Store | s.actions == acts ensures FollowUp(s, Renewed, Reinstated(), "x5").actions == AfterRenewal() {
      ScheduleEffect(s, "sub_1", Renew, MARCH, "x5");
      CancelEffect(s, "sub_1", Some(KeyOf("sub_1", Renew, MARCH)));
    }
  }

  lemma OverdueFamily()
    ensures Overdue().family == Adyen && Overdue().ref == "sub_1" && Overdue().checkoutId == "subchk_1"
            && Overdue().initialPaymentId.None?
  {
    hide AddCalendarMonths;
  }

  lemma LateHits(s: Store)
    requires s.subs == map["sub_1" := Overdue()] && s.attempts == map["a1" := Dead1(), "a2" := Unsure2()]
    ensures HitsAgree(s, LATE_NEWS, None, LATE_HITS) && OwnCheckout(s, LATE_NEWS)
  {
    hide AddCalendarMonths, Overdue, Dead1, Unsure2;
    OverdueFamily();
    NoFirstPayment();
    OpenPayments();
    assert s.subs["sub_1"] == Overdue() && s.attempts["a1"] == Dead1() && s.attempts["a2"] == Unsure2();
  }

  lemma NoFirstPayment()
    ensures Dead1().paymentId.None?
  {
    hide AddCalendarMonths, ChargeKey, RecheckAt;
  }

  lemma OpenPayments()
    ensures Unsure2().paymentId.None? && Unsure2().request.reference == "ref_2" && Unsure2().id == "a2"
            && Unsure2().status.Uncertain? && Unsure2().ref == "sub_1" && Unsure2().actionId == "x1"
               && Unsure2().claim.token.None?
            && Unsure2().claim.Release() == Unsure2().claim && Unsure2().periodStart == FEBRUARY
               && Unsure2().periodEnd == MARCH
  {
    hide AddCalendarMonths, Sent2, Attempt, ChargeKey;
    SecondKey();
  }

  /** The store once the authorisation is on record. */
  function PaidStore(s: Store): Store {
    s.(attempts := map["a1" := Dead1(), "a2" := Settled2()])
  }

  lemma RecordedLate(s: Store, s': Store)
    requires s.subs == map["sub_1" := Overdue()] && s.attempts == map["a1" := Dead1(), "a2" := Unsure2()]
    requires s.actions == map["x1" := Exhausted(Running3()), "y4" := DunningExpiry()]
    requires Observe(PaidStore(s), "sub_1", PaidPeriod(FEBRUARY, MARCH), FEBRUARY, IDS_5, FEBRUARY) == Success(s')
             && s' != PaidStore(s)
    ensures ApplyAdyenRenewal(s, HARSH.cfg, LATE_NEWS, LATE_HITS, FEBRUARY, IDS_5,
                              FEBRUARY) == Success((s', Some("sub_1")))
  {
    hide AddCalendarMonths, Overdue, Dead1, Unsure2, Decide, CommitChange, Running3;
    OpenPayments();
    OverdueFamily();
    assert s.attempts["a2"] == Unsure2() && s.subs["sub_1"] == Overdue();
    assert s.attempts["a2" := Settled2()] == map["a1" := Dead1(), "a2" := Settled2()];
    assert s.actions["x1"] == Exhausted(Running3());
  }

  lemma RenewedLate(s: Store)
    requires Ledger.LedgerInv(s) && GoodSubs(s) && "evt_5" !in s.outbound
    requires s.subs == map["sub_1" := Overdue()]
             && s.actions == map["x1" := Exhausted(Running3()), "y4" := DunningExpiry()]
    ensures hide *; var r := Observe(PaidStore(s), "sub_1", PaidPeriod(FEBRUARY, MARCH), FEBRUARY, IDS_5, FEBRUARY);
            && r.Success?
            && r.value == PaidStore(s).(subs := map["sub_1" := Reinstated()], actions := AfterRenewal(),
                                        outbound := r.value.outbound)
            && r.value.outbound.Keys == s.outbound.Keys + {"evt_5"}
  {
    hide Ledger.LedgerInv, GoodSubs, Observe, Becomes, Shown, WorkAfter, ValidOpaqueId, AddCalendarMonths, Overdue,
         Dead1, Settled2, Exhausted, Running3, DunningExpiry, AfterRenewal;
    ProperEvents();
    BecomesReinstated();
    OverdueFamily();
    ReinstatedWork();
    SameBooksLedger(s, PaidStore(s));
    ObservedScene(PaidStore(s), Overdue(), PaidPeriod(FEBRUARY, MARCH), FEBRUARY, IDS_5, Renewed, Reinstated(),
                  AfterRenewal());
  }

  lemma CommittedLate(s: Store, lease: EventLease)
    requires Ledger.LedgerInv(s) && GoodSubs(s) && "evt_5" !in s.outbound
    requires s.subs == map["sub_1" := Overdue()] && s.attempts == map["a1" := Dead1(), "a2" := Unsure2()]
    requires s.actions == map["x1" := Exhausted(Running3()), "y4" := DunningExpiry()]
    requires StillOwned(s, LATE_NEWS, lease) && HoldsLease(s, LATE_NEWS, lease)
    ensures hide *; var r := CommitEvent(s, HARSH.cfg, LATE_NEWS, lease, None, LATE_HITS, FEBRUARY, IDS_5, FEBRUARY);
            && r.Success? && r.value.subs == map["sub_1" := Reinstated()] && r.value.actions == AfterRenewal()
            && r.value.attempts == map["a1" := Dead1(), "a2" := Settled2()]
            && r.value.outbound.Keys == s.outbound.Keys + {"evt_5"}
  {
    hide Ledger.LedgerInv, GoodSubs, Observe, CloseEvent, ApplyAdyenRenewal, AddCalendarMonths, Overdue, Dead1, Unsure2,
         Exhausted, Running3, DunningExpiry, AfterRenewal, Reinstated, HoldsLease, PaidStore;
    RenewedLate(s);
    var s' := Observe(PaidStore(s), "sub_1", PaidPeriod(FEBRUARY, MARCH), FEBRUARY, IDS_5, FEBRUARY).value;
    SamePaid(s);
    assert s' != PaidStore(s) by { assert "evt_5" in s'.outbound; }
    RecordedLate(s, s');
    SameHold(s, s', LATE_NEWS, lease);
    CloseExactly(s', LATE_NEWS, lease, Processed, Some("sub_1"), FEBRUARY);
    ChargeEvents.CloseSame(s', LATE_NEWS, lease, Processed, Some("sub_1"), FEBRUARY);
  }

  lemma SamePaid(s: Store)
    ensures PaidStore(s) == s.(attempts := map["a1" := Dead1(), "a2" := Settled2()])
  {
  }

  /** The second charge was authorised after all: the subscription is renewed, and the expiry of its dunning
      withdrawn. */
  lemma ReinstatedStage() returns (sys: System)
    ensures Reachable(HARSH, sys) && sys.db.subs == map["sub_1" := Reinstated()] && sys.db.actions == AfterRenewal()
    ensures sys.workers == map[] && sys.db.attempts == map["a1" := Dead1(), "a2" := Settled2()]
    ensures "evt_6" !in sys.db.outbound
  {
    hide Reachable, AddCalendarMonths, Enabled, Next, CommitEvent, Ledger.LedgerInv, GoodSubs, GoodActions,
         Bindings.Bound, Overdue, Dead1, Unsure2, Exhausted, Running3, DunningExpiry, AfterRenewal, Reinstated,
         HitsAgree, OwnCheckout, StillOwned, HoldsLease;
    var sys0, lease, tick := FetchedStage();
    ReachBooks(HARSH, sys0);
    LateHits(sys0.db);
    CommittedLate(sys0.db, lease);
    var db := CommitEvent(sys0.db, HARSH.cfg, LATE_NEWS, lease, None, LATE_HITS, FEBRUARY, IDS_5, FEBRUARY).value;
    SaneFebruary();
    CommitNext(HARSH, sys0, 0, LATE_HITS, FEBRUARY, IDS_5, db);
    sys := Next(HARSH, sys0, CommitEventStep(0, LATE_HITS, FEBRUARY, IDS_5, FEBRUARY));
  }

  lemma SaneFebruary()
    ensures SaneClock(FEBRUARY)
  {
    hide AddCalendarMonths, T.FourDigitYear;
    Months();
  }

  // ---------- canceled, without an expiry ----------

  function LostMember(): Subscription {
    CanceledRow(Reinstated(), FEBRUARY)
  }

  lemma LostWork()
    ensures ActionsAfterCancel(AfterRenewal(), LostMember(), "x6")
            == map["x1" := Exhausted(Running3()), "y4" := Witnesses.Withdrawn(DunningExpiry()),
                   "x5" := NewAction("x5", "sub_1", Renew, MARCH).(status := ActionStatus.Canceled)]
  {
    hide AddCalendarMonths, Rechecked, Member;
    RecheckedOf();
    OverdueFamily();
    assert AfterRenewal()["y4"].key == KeyOf("sub_1", Expire, MARCH);
  }

  /** An Adyen subscription can lose its expiry. */
  lemma AdyenStranded()
    ensures exists env, sys, ref :: Reachable(env, sys) && Stranded(sys, ref) && sys.db.subs[ref].family == Adyen
  {
    hide Reachable, Enabled, Next, AddCalendarMonths, Observe, Ledger.LedgerInv, GoodSubs, GoodActions, Bindings.Bound,
         Becomes, WorkAfter, Shown, ValidOpaqueId, T.FourDigitYear, Reinstated, Exhausted, Running3, ActionsAfterCancel;
    Months();
    ProperEvents();
    BecomesReinstated();
    ReinstatedActive();
    var sys0 := ReinstatedStage();
    ReachBooks(HARSH, sys0);
    CancelBecomes(Reinstated(), FEBRUARY);
    CancelWork(AfterRenewal(), LostMember(), "x6");
    LostWork();
    ObservedScene(sys0.db, Reinstated(), CANCELLATION, FEBRUARY, IDS_6, WasCanceled, LostMember(),
                  ActionsAfterCancel(AfterRenewal(), LostMember(), "x6"));
    var db := Observe(sys0.db, "sub_1", CANCELLATION, FEBRUARY, IDS_6, FEBRUARY).value;
    CancelNext(HARSH, sys0, "sub_1", FEBRUARY, IDS_6, db);
    var sys := Next(HARSH, sys0, CancelStep("sub_1", FEBRUARY, IDS_6, FEBRUARY));
    LostStore(db);
    assert Stranded(sys, "sub_1");
  }

  lemma ReinstatedActive()
    ensures Reinstated().status == Status.Active && Reinstated().ref == "sub_1" && Reinstated().family == Adyen
            && LostMember().ref == "sub_1"
  {
    hide Member;
    OverdueFamily();
  }

  lemma LostStore(s: Store)
    requires s.subs == map["sub_1" := LostMember()]
    requires s.actions == map["x1" := Exhausted(Running3()), "y4" := Witnesses.Withdrawn(DunningExpiry()),
                              "x5" := NewAction("x5", "sub_1", Renew, MARCH).(status := ActionStatus.Canceled)]
    ensures "sub_1" in s.subs && s.subs["sub_1"].status == Status.Canceled && s.subs["sub_1"].family == Adyen
            && !ExpiryScheduled(s, "sub_1", s.subs["sub_1"].periodEnd)
  {
    hide AddCalendarMonths, Running3, Reinstated;
    ReinstatedActive();
    assert s.subs["sub_1"] == LostMember();
    forall id | id in s.actions ensures !s.actions[id].status.Pending? {
    }
  }
}
