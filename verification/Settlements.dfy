/**
 * How charges end, over every run: what a reply leaves behind, how long an outcome may stay open, and what an operator
 * decides.
 */
module Settlements {
  import opened Wrappers
  import opened Calendar
  import opened Protocol
  import opened Model
  import opened Transition
  import opened Engine
  import opened Scheduler
  import opened System
  import opened ChargeSafety
  import opened ChargeSteps
  import opened ChargeOutcomes
  import opened ChargeRefusals
  import opened Growth
  import opened StepSafety
  import opened Arrivals
  import opened Runs
  import opened Claims
  import opened Endings
  import opened Dunning
  import opened Billing
  import opened Verdicts
  import opened AdyenReports
  import Bindings
  import Effects
  import Ledger

  // ---------- replies ----------

  lemma SettledPaid(env: Environment, s: Store, a: ScheduledAction, id: string, token: string, fence: int,
          paymentId: string, now: Instant, ids: Ids, txNow: Instant)
    requires hide *; ChargeInv(env, s, None) && id in s.attempts && s.attempts[id].claim.Owned(token, fence)
             && a.id == s.attempts[id].actionId && a.ref == s.attempts[id].ref && Authorises(env, s.attempts[id])
             && SettleCharge(s, env.cfg, a, id, token, fence, Reply.Authorised(paymentId), now, ids, txNow).Success?
    ensures var s' := SettleCharge(s, env.cfg, a, id, token, fence, Reply.Authorised(paymentId), now, ids, txNow).value;
            && MonthPaid(s, s', id) && id in s'.attempts && s'.attempts[id].paymentId == Some(paymentId)
            && s'.attempts[id].completedAt == Some(now) && s'.attempts[id].claim.token.None?
  {
    hide ChargeInv, Decide, Commit, FinishAction, AddCalendarMonths, GoodRow, Outcome, GoodSubs, GoodActions,
         GoodAttempts, TruthfulAttempts, NotAhead, Unblocked;
    var cur := s.attempts[id];
    WorkingOn(env, s, id);
    Basics(env, s, None);
    AttemptOf(env, s, id);
    PaysForNextPeriod(env, s, None, id);
    PaidMonth(env, s, id);
    var s1 := UpdateAttempt(s,
                            cur.(status := Authorized, paymentId := Some(paymentId), completedAt := Some(now),
                                 claim := cur.claim.Release())).value;
    SameSubsGood(s, s1);
    ObserveOutcome(s1, a.ref, PaidPeriod(cur.periodStart, cur.periodEnd), now, ids, txNow);
    var s2 := Observe(s1, a.ref, PaidPeriod(cur.periodStart, cur.periodEnd), now, ids, txNow).value;
    PaidRow(s.subs[a.ref], s2.subs[a.ref], cur.periodStart, cur.periodEnd, now);
    FinishEffect(s2, a.id, token, fence, ActionStatus.Completed, None, None);
    CompletedFinished();
  }

  /** A declined charge is put on record, its subscription moves on, and its action is dealt with. */
  lemma DeclinedSteps(s: Store, cfg: Config, a: ScheduledAction, id: string, token: string, fence: int,
          paymentId: string, code: string, now: Instant, ids: Ids, txNow: Instant)
    requires id in s.attempts && s.attempts[id].claim.Owned(token, fence) && s.attempts[id].id == id
             && SettleCharge(s, cfg, a, id, token, fence, Reply.Declined(paymentId, code), now, ids, txNow).Success?
    ensures hide *;
            var s1 := s.(attempts := s.attempts[id := DeclinedAttempt(s.attempts[id], paymentId, code, now)]);
            var r := Observe(s1, a.ref, Observed(Status.PastDue), now, ids, txNow);
            && r.Success?
            && var s' := SettleCharge(s, cfg, a, id, token, fence, Reply.Declined(paymentId, code), now, ids,
                                      txNow).value;
               s' == r.value.(actions := s'.actions)
  {
    hide Observe, FinishAction, EnsureAction, IsRetryableRefusal, DeclinedAttempt;
    var cur := s.attempts[id];
    assert DeclinedAttempt(cur, paymentId, code, now).id == id by { DeclinedId(cur, paymentId, code, now); }
    var s1 := s.(attempts := s.attempts[id := DeclinedAttempt(cur, paymentId, code, now)]);
    DeclinedTables(Observe(s1, a.ref, Observed(Status.PastDue), now, ids, txNow).value, cfg, a, cur.number,
                   IsRetryableRefusal(code), token, fence, now, ids.dunning);
  }

  lemma DeclinedId(t: ChargeAttempt, paymentId: string, code: string, now: Instant)
    ensures DeclinedAttempt(t, paymentId, code, now).id == t.id
  {
  }

  lemma SettledRefused(env: Environment, s: Store, a: ScheduledAction, id: string, token: string, fence: int,
          paymentId: string, code: string, now: Instant, ids: Ids, txNow: Instant)
    requires hide *; ChargeInv(env, s, None) && id in s.attempts && s.attempts[id].claim.Owned(token, fence)
             && a.id == s.attempts[id].actionId && a.ref == s.attempts[id].ref
             && SettleCharge(s, env.cfg, a, id, token, fence, Reply.Declined(paymentId, code), now, ids, txNow).Success?
    ensures var s' := SettleCharge(s, env.cfg, a, id, token, fence, Reply.Declined(paymentId, code), now, ids,
                                   txNow).value;
            && MonthRefused(s, s', id, now) && id in s'.attempts && s'.attempts[id].claim.token.None?
            && (paymentId != "" ==> s'.attempts[id].paymentId == Some(paymentId))
            && (code != "" ==> s'.attempts[id].refusalCode == Some(code))
  {
    hide ChargeInv, Observe, SettleCharge, Outcome, GoodSubs, GoodActions, GoodAttempts, TruthfulAttempts, NotAhead;
    WorkingOn(env, s, id);
    Basics(env, s, None);
    DeclinedSteps(s, env.cfg, a, id, token, fence, paymentId, code, now, ids, txNow);
    var s1 := s.(attempts := s.attempts[id := DeclinedAttempt(s.attempts[id], paymentId, code, now)]);
    SameSubsGood(s, s1);
    ObserveOutcome(s1, a.ref, Observed(Status.PastDue), now, ids, txNow);
    var s2 := Observe(s1, a.ref, Observed(Status.PastDue), now, ids, txNow).value;
    RefusedRow(s.subs[a.ref], s2.subs[a.ref], now);
  }

  lemma DeclinedTables(s: Store, cfg: Config, a: ScheduledAction, number: AttemptNumber, retryable: bool,
          token: string, fence: int, now: Instant, dunningId: string)
    ensures var last := LastRefusal(cfg, number, retryable);
            var r := FinishAction(s, a.id, token, fence, if last then ActionStatus.Completed else ActionStatus.Pending,
                                  if last then None else Some(now + cfg.retryDelays[number - 1]), Some("refused"));
            r.Success? ==>
              var s' := if last then EnsureAction(r.value,
                                                  NewAction(dunningId, a.ref, Expire, now + cfg.dunningTermination))
                        else r.value;
              s' == s.(actions := s'.actions)
  {
    hide EnsureAction, FinishAction;
    var last := LastRefusal(cfg, number, retryable);
    var status, due := if last then ActionStatus.Completed else ActionStatus.Pending,
        if last then None else Some(now + cfg.retryDelays[number - 1]);
    var r := FinishAction(s, a.id, token, fence, status, due, Some("refused"));
    if r.Success? {
      FinishEffect(s, a.id, token, fence, status, due, Some("refused"));
      Effects.EnsureEffect(r.value, NewAction(dunningId, a.ref, Expire, now + cfg.dunningTermination));
    }
  }

  /** An unclear outcome: the attempt stays open, and its action is looked at again in a minute, or at the deadline of
      the attempt if that comes first. */
  ghost predicate LeftOpen(s: Store, s': Store, id: string, now: Instant) {
    && id in s.attempts && id in s'.attempts && s'.attempts == s.attempts[id := s'.attempts[id]]
    && s'.attempts[id].status.Uncertain? && s'.attempts[id].claim.token.None? && s'.subs == s.subs
    && (var t := s.attempts[id];
        && t.actionId in s'.actions && s'.actions[t.actionId].status.Uncertain?
        && s'.actions[t.actionId].claim.token.None?
        && s'.actions[t.actionId].dueAt == (match t.resolutionDeadline
                                            case Some(deadline) => if deadline < now + 60 then deadline else now + 60
                                            case None => now + 60))
  }

  lemma SettledOpen(env: Environment, s: Store, a: ScheduledAction, id: string, token: string, fence: int,
          now: Instant, ids: Ids, txNow: Instant)
    requires hide *; ChargeInv(env, s, None) && id in s.attempts && s.attempts[id].claim.Owned(token, fence)
             && a.id == s.attempts[id].actionId
             && SettleCharge(s, env.cfg, a, id, token, fence, Unclear, now, ids, txNow).Success?
    ensures LeftOpen(s, SettleCharge(s, env.cfg, a, id, token, fence, Unclear, now, ids, txNow).value, id, now)
  {
    hide ChargeInv;
    WorkingOn(env, s, id);
  }

  /** What the reply to a charge leaves behind, under the claim that it was sent with. */
  ghost predicate ReplyFollowed(s: Store, s': Store, id: string, reply: Reply, now: Instant) {
    match reply
    case Unclear => LeftOpen(s, s', id, now)
    case Authorised(paymentId) =>
      MonthPaid(s, s', id) && s'.attempts[id].paymentId == Some(paymentId) && s'.attempts[id].completedAt == Some(now)
      && s'.attempts[id].claim.token.None?
    case Declined(paymentId, code) =>
      MonthRefused(s, s', id, now) && s'.attempts[id].claim.token.None?
      && (paymentId != "" ==> s'.attempts[id].paymentId == Some(paymentId))
      && (code != "" ==> s'.attempts[id].refusalCode == Some(code))
  }

  lemma SettleStepFollowed(env: Environment, sys: System, step: Step)
    requires hide *; Safe(env, sys) && Enabled(env, sys, step) && step.SettleStep?
    ensures step.w in sys.workers && sys.workers[step.w].Answered?
    ensures var k, s, s' := sys.workers[step.w], sys.db, DbAfter(env, sys, step);
            || s' == s
            || (&& k.attempt.id in s.attempts
                && s.attempts[k.attempt.id].claim.token == Some(k.token)
                && s.attempts[k.attempt.id].claim.fence == k.action.claim.fence
                && ReplyFollowed(s, s', k.attempt.id, k.reply, k.now))
  {
    hide ChargeInv, Bindings.Bound, Ledger.LedgerInv, SettleCharge, MonthPaid, MonthRefused, LeftOpen;
    var k, s := sys.workers[step.w], sys.db;
    assert Remembers(env, s, k);
    HeldAttempt(s, k.action, k.attempt);
    if SettleCharge(s, env.cfg, k.action, k.attempt.id, k.token, k.action.claim.fence, k.reply, k.now, step.ids,
                    step.txNow).Success? {
      SettledAttempt(s, env.cfg, k.action, k.attempt.id, k.token, k.action.claim.fence, k.reply, k.now, step.ids,
                     step.txNow);
      if s.attempts[k.attempt.id].claim.Owned(k.token, k.action.claim.fence) {
        match k.reply
        case Unclear =>
          SettledOpen(env, s, k.action, k.attempt.id, k.token, k.action.claim.fence, k.now, step.ids, step.txNow);
        case Authorised(paymentId) =>
          SettledPaid(env, s, k.action, k.attempt.id, k.token, k.action.claim.fence, paymentId, k.now, step.ids,
                      step.txNow);
        case Declined(paymentId, code) =>
          SettledRefused(env, s, k.action, k.attempt.id, k.token, k.action.claim.fence, paymentId, code, k.now,
                         step.ids, step.txNow);
      }
    }
  }

  /** In every run, a reply that still finds the claim of its charge, and whose transaction goes through, is recorded
      for what it is: paid and served, refused and past due, or open and looked at again in time; any other changes
      nothing. */
  lemma ReplyRecorded(env: Environment, states: seq<System>, steps: seq<Step>, n: nat)
    requires hide Leads; Run(env, states, steps) && n < |steps| && n + 1 < |states| && steps[n].SettleStep?
    ensures steps[n].w in states[n].workers && states[n].workers[steps[n].w].Answered?
    ensures var k, s, s' := states[n].workers[steps[n].w], states[n].db, states[n + 1].db;
            || s' == s
            || (&& k.attempt.id in s.attempts
                && s.attempts[k.attempt.id].claim.token == Some(k.token)
                && s.attempts[k.attempt.id].claim.fence == k.action.claim.fence
                && ReplyFollowed(s, s', k.attempt.id, k.reply, k.now))
  {
    hide Run, Safe, Enabled, DbAfter, WorkersAfter, ReadsAfter, SentAfter, ClaimsRun, Arrived, ReplyFollowed;
    RunStep(env, states, steps, n);
    RunBasics(env, states, steps, n);
    SettleStepFollowed(env, states[n], steps[n]);
  }

  // ---------- how long an outcome may stay open ----------

  /** Until when the outcome of a charge may stay open that is first submitted now: as configured, or six days. */
  function OpenUntil(cfg: Config, now: Instant): Instant {
    var deadline := now + (if cfg.resolutionDeadline > 0 then cfg.resolutionDeadline else 518400);
    if deadline == ZERO_TIME then now + 518400 else deadline
  }

  /** An attempt has its deadline from its first submission on. */
  predicate Timed(cfg: Config, t: ChargeAttempt) {
    match t.firstSubmittedAt
    case Some(first) => t.resolutionDeadline == Some(OpenUntil(cfg, first))
    case None => t.resolutionDeadline.None?
  }

  lemma ClaimTimed(s: Store, cfg: Config, x: string, a: string, token: string, now: Instant, id: string)
    requires ClaimCharge(s, cfg, x, a, token, now).Success? && id in s.attempts && Timed(cfg, s.attempts[id])
    ensures hide *; var s' := ClaimCharge(s, cfg, x, a, token, now).value.0;
            id in s'.attempts && Timed(cfg, s'.attempts[id])
  {
    hide ClaimAction;
    ClaimedAttempts(s, x, token, now, Lease(cfg));
  }

  lemma StepTimed(env: Environment, sys: System, step: Step, id: string)
    requires hide *; Safe(env, sys) && Enabled(env, sys, step) && id in sys.db.attempts
             && Timed(env.cfg, sys.db.attempts[id])
    ensures id in DbAfter(env, sys, step).attempts && Timed(env.cfg, DbAfter(env, sys, step).attempts[id])
  {
    hide Safe, Enabled, DbAfter, Dealt, OpenUntil;
    if step.PrepareStep? {
      PrepareStepDealt(env, sys, step);
    } else if step.ClaimStep? {
      ClaimStepTimed(env, sys, step, id);
    } else {
      StepKept(env, sys, step);
    }
  }

  lemma ClaimStepTimed(env: Environment, sys: System, step: Step, id: string)
    requires hide *; Enabled(env, sys, step) && step.ClaimStep? && id in sys.db.attempts
             && Timed(env.cfg, sys.db.attempts[id])
    ensures id in DbAfter(env, sys, step).attempts && Timed(env.cfg, DbAfter(env, sys, step).attempts[id])
  {
    hide ClaimCharge, Timed;
    var k := sys.workers[step.w];
    if ClaimCharge(sys.db, env.cfg, k.actionId, k.attemptId, step.token, step.now).Success? {
      ClaimTimed(sys.db, env.cfg, k.actionId, k.attemptId, step.token, step.now, id);
    }
  }

  /** In every state of every run an attempt has a deadline exactly from its first submission on, as long after it as
      configured. */
  lemma {:induction false} RunTimed(env: Environment, states: seq<System>, steps: seq<Step>, n: nat, id: string)
    requires hide *; Run(env, states, steps) && n < |states| && id in states[n].db.attempts
    ensures Timed(env.cfg, states[n].db.attempts[id])
    decreases n
  {
    hide Run, Safe, Enabled, DbAfter, WorkersAfter, ReadsAfter, SentAfter, ClaimsRun, Arrived, OpenUntil;
    RunLength(env, states, steps);
    StartsEmpty(env, states, steps);
    RunBasics(env, states, steps, n - 1);
    RunStep(env, states, steps, n - 1);
    if id in states[n - 1].db.attempts {
      RunTimed(env, states, steps, n - 1, id);
      StepTimed(env, states[n - 1], steps[n - 1], id);
    } else {
      assert PreparedBy(states, n - 1, n, id);
      AddedAsks(env, states, steps, n - 1, n, id);
    }
  }

  lemma PickOutcome(env: Environment, sys: System, step: Step)
    requires hide Safe, Enabled, DbAfter, WorkerAfter; Safe(env, sys) && Enabled(env, sys, step)
             && step.PickUncertainStep?
    ensures step.attemptId in sys.db.attempts && IsInFlight(sys.db.attempts[step.attemptId].status)
            && sys.db.attempts[step.attemptId].actionId == step.id
            && step.id in sys.db.actions && sys.db.actions[step.id].kind.Renew?
    ensures var t, s, s' := sys.db.attempts[step.attemptId], sys.db, DbAfter(env, sys, step);
            if t.resolutionDeadline.Some? && t.resolutionDeadline.value <= step.now
            then WorkerAfter(env, sys, step).None? && (s' == s || HandedOver(s, s', step.attemptId))
            else s' == s && WorkerAfter(env, sys, step) == Some(Ready(step.id, step.attemptId))
  {
    hide ChargeInv, Bindings.Bound, Ledger.LedgerInv, WorkersAgree, GiveUp, EarliestAction, GoodSubs, GoodActions,
         GoodAttempts, TruthfulAttempts, NotAhead, HandedOver;
    var s := sys.db;
    PickedAction(s, step.now, ActionStatus.Uncertain, Renew, step.id);
    InFlightOpen(s, step.id, step.attemptId);
    AttemptOf(env, s, step.attemptId);
    Basics(env, s, None);
    if PastDeadline(s.attempts[step.attemptId], step.now)
         && GiveUp(s, s.actions[step.id], step.attemptId, step.now, step.ids, step.txNow).Success? {
      GiveUpBlocks(s, s.actions[step.id], step.attemptId, step.now, step.ids, step.txNow);
      HandOver(s, s.actions[step.id], step.attemptId, step.now, step.ids, step.txNow);
    }
  }

  /** An attempt is handed over to an operator: it is in manual review, its action finished, and its subscription
      blocked, and past due unless it has expired. */
  ghost predicate HandedOver(s: Store, s': Store, id: string) {
    && id in s.attempts && id in s'.attempts && s'.attempts[id].status.ManualReview?
    && s'.attempts[id].claim.token.None?
    && (var t := s.attempts[id];
        && t.ref in s'.subs && s'.subs[t.ref].chargingBlocked
        && (s'.subs[t.ref].status == Status.PastDue || s'.subs[t.ref].status == Status.Expired)
        && t.actionId in s'.actions && !Claimable(s'.actions[t.actionId].status))
  }

  lemma HandOver(s: Store, a: ScheduledAction, id: string, now: Instant, ids: Ids, txNow: Instant)
    requires GoodSubs(s) && id in s.attempts && s.attempts[id].id == id && s.attempts[id].actionId == a.id
             && s.attempts[id].ref == a.ref && GiveUp(s, a, id, now, ids, txNow).Success?
    ensures HandedOver(s, GiveUp(s, a, id, now, ids, txNow).value, id)
  {
    hide GoodSubs, ForceFinishAction, BlockAutomaticCharging, Claimable;
    GiveUpBlocks(s, a, id, now, ids, txNow);
    var u := s.attempts[id].(status := AttemptStatus.ManualReview, claim := s.attempts[id].claim.Release());
    var s1 := UpdateAttempt(s, u).value;
    ForceFinishEffect(s1, a.id, ActionStatus.ManualReview, None, Some("resolution_deadline"));
    var s2 := ForceFinishAction(s1, a.id, ActionStatus.ManualReview, None, Some("resolution_deadline")).value;
    BlockTables(s2, s2.subs[a.ref], "resolution_deadline", now, ids, txNow);
    assert !Claimable(ActionStatus.ManualReview) by { ReviewFinished(); }
  }

  lemma ReviewFinished()
    ensures !Claimable(ActionStatus.ManualReview)
  {
  }

  /** In every run, a charge whose outcome is open is submitted again under the same key until its deadline, and handed
      over to an operator after it, not before. */
  lemma OpenUntilDeadline(env: Environment, states: seq<System>, steps: seq<Step>, n: nat)
    requires hide Leads; Run(env, states, steps) && n < |steps| && n + 1 < |states| && steps[n].PickUncertainStep?
    ensures steps[n].attemptId in states[n].db.attempts
    ensures var t, s, s', step := states[n].db.attempts[steps[n].attemptId], states[n].db, states[n + 1].db, steps[n];
            match t.firstSubmittedAt
            case Some(first) =>
              if OpenUntil(env.cfg, first) <= step.now
              then s' == s || HandedOver(s, s', step.attemptId)
              else s' == s && step.w in states[n + 1].workers
                   && states[n + 1].workers[step.w] == Ready(step.id, step.attemptId)
            case None => s' == s
  {
    hide Run, Safe, Enabled, DbAfter, WorkerAfter, ReadsAfter, SentAfter, ClaimsRun, Arrived, HandedOver, OpenUntil;
    RunStep(env, states, steps, n);
    RunBasics(env, states, steps, n);
    PickOutcome(env, states[n], steps[n]);
    RunTimed(env, states, steps, n, steps[n].attemptId);
  }

  // ---------- operators ----------

  /** What an operator's decision about an attempt leaves behind. */
  ghost predicate Resolved(s: Store, s': Store, id: string, outcome: Resolution, reason: string, actor: string,
          paymentId: string, now: Instant) {
    && id in s.attempts && (s.attempts[id].status.Uncertain? || s.attempts[id].status.ManualReview?)
    && id in s'.attempts && s'.attempts[id].completedAt == Some(now) && s'.attempts[id].claim.token.None?
    && (paymentId != "" ==> s'.attempts[id].paymentId == Some(paymentId))
    && s'.audits == s.audits + [Audit("resolve-attempt", id, if actor == "" then "cli" else actor,
                                      if reason == "" then "operator" else reason)]
    && match outcome
       case Paid => MonthPaid(s, s', id) && !s'.subs[s.attempts[id].ref].chargingBlocked
       case Declined => MonthRefused(s, s', id, now)
       case GivenUp =>
         && s'.attempts[id].status.Canceled? && s'.attempts == s.attempts[id := s'.attempts[id]]
         && s.attempts[id].ref in s'.subs && s'.subs[s.attempts[id].ref].status == Status.Expired
       case Unknown => false
  }

  lemma ResolveOutcome(env: Environment, s: Store, id: string, outcome: Resolution, reason: string, actor: string,
          paymentId: string, now: Instant, ids: Ids, txNow: Instant)
    requires hide *; ChargeInv(env, s, None)
             && (id in s.attempts ==> TruthfulResolution(env, s.attempts[id].request.idempotencyKey, outcome))
             && ResolveAttempt(s, env.cfg, id, outcome, reason, actor, paymentId, now, ids, txNow).Success?
    ensures Resolved(s, ResolveAttempt(s, env.cfg, id, outcome, reason, actor, paymentId, now, ids, txNow).value, id,
                     outcome, reason, actor, paymentId, now)
  {
    hide ChargeInv, Observe, ForceFinishAction, RecordAuthorised, RecordRefused, GoodSubs, GoodActions, GoodAttempts,
         TruthfulAttempts, NotAhead, MonthPaid, MonthRefused;
    AttemptOf(env, s, id);
    var t0 := s.attempts[id];
    var s1 := InsertAudit(s,
                          Audit("resolve-attempt", id, if actor == "" then "cli" else actor,
                                if reason == "" then "operator" else reason));
    AuditKeeps(env, s, s1);
    var u := t0.(claim := t0.claim.Release(), completedAt := Some(now),
                 paymentId := if paymentId != "" then Some(paymentId) else t0.paymentId);
    match outcome {
      case Paid =>
        AuthorisedOutcome(env, s1, u, true, now, ids, txNow);
        AuthorisedUnblocks(env, s1, u, now, ids, txNow);
        SameMonthPaid(s, s1, RecordAuthorised(s1, u, true, now, ids, txNow).value, id);
      case Declined =>
        RefusedOutcome(env, s1, u, now, ids, txNow);
        RefusedAudits(s1, env.cfg, u, now, ids, txNow);
        SameMonthRefused(s, s1, RecordRefused(s1, env.cfg, u, now, ids, txNow).value, id, now);
      case GivenUp =>
        Basics(env, s1, None);
        GivenUpOutcome(s1, u.(status := AttemptStatus.Canceled), now, ids, txNow);
      case Unknown =>
    }
  }

  lemma SameMonthPaid(s: Store, s1: Store, s': Store, id: string)
    requires MonthPaid(s1, s', id) && s1.subs == s.subs && s1.attempts == s.attempts
    ensures MonthPaid(s, s', id)
  {
  }

  lemma SameMonthRefused(s: Store, s1: Store, s': Store, id: string, now: Instant)
    requires MonthRefused(s1, s', id, now) && s1.subs == s.subs && s1.attempts == s.attempts
    ensures MonthRefused(s, s', id, now)
  {
  }

  lemma AuthorisedUnblocks(env: Environment, s: Store, t: ChargeAttempt, now: Instant, ids: Ids, txNow: Instant)
    requires hide *; ChargeInv(env, s, None) && t.id in s.attempts && SameAttempt(s.attempts[t.id], t)
             && !s.attempts[t.id].status.Authorized? && Authorises(env, t)
             && RecordAuthorised(s, t, true, now, ids, txNow).Success?
    ensures var s' := RecordAuthorised(s, t, true, now, ids, txNow).value;
            t.ref in s'.subs && !s'.subs[t.ref].chargingBlocked && s'.audits == s.audits
  {
    hide ChargeInv, Decide, Commit, ForceFinishAction, AddCalendarMonths, GoodRow, Unblocked;
    AttemptOf(env, s, t.id);
    var s1 := UpdateAttempt(s, t.(status := Authorized)).value;
    ForceFinishEffect(s1, t.actionId, ActionStatus.Completed, None, None);
    var s2 := ForceFinishAction(s1, t.actionId, ActionStatus.Completed, None, None).value;
    var a := s.subs[t.ref];
    var sub := a.(chargingBlocked := false, blockReason := None);
    EitherUnblocked(a, sub);
    PaidNext(env, s, t.id, sub, now);
    var d := Decide(sub, PaidPeriod(t.periodStart, t.periodEnd), now).value;
    CommitNoop(s2, d, ids, txNow);
    CommittedSubs(s2, d, sub, ids, txNow);
    CommittedAudits(s2, d, ids, txNow);
  }

  lemma CommittedAudits(s: Store, d: Decision, ids: Ids, txNow: Instant)
    requires Commit(s, d, ids, txNow).Success?
    ensures Commit(s, d, ids, txNow).value.audits == s.audits
  {
    hide CommitChange, FollowUp, BuildCallback, ValidateCallback, NewEvent;
    if d.Change? { Effects.CommitEffect(s, false, d.next, d.event, ids, txNow); }
  }

  lemma RefusedAudits(s: Store, cfg: Config, t: ChargeAttempt, now: Instant, ids: Ids, txNow: Instant)
    requires RecordRefused(s, cfg, t, now, ids, txNow).Success?
    ensures RecordRefused(s, cfg, t, now, ids, txNow).value.audits == s.audits
  {
    hide Decide, Commit, RescheduleOrExpire;
    var s1 := UpdateAttempt(s, t.(status := Refused)).value;
    CommittedAudits(s1, Decide(s1.subs[t.ref], Observed(Status.PastDue), now).value, ids, txNow);
    RescheduledTables(Observe(s1, t.ref, Observed(Status.PastDue), now, ids, txNow).value, cfg, t, t.ref, now,
                      ids.dunning);
  }

  lemma EndedRow(a: Subscription, b: Subscription, now: Instant)
    requires Outcome(a, IMMEDIATE_EXPIRY, b, now)
    ensures EndedNow(a, b, now)
  {
  }

  /** A subscription has expired at once; if it was not canceled before, it is canceled now. */
  predicate EndedNow(a: Subscription, b: Subscription, now: Instant) {
    if a.status == Status.Expired then b == a
    else b.status == Status.Expired && b.periodStart == a.periodStart && b.periodEnd == a.periodEnd
         && b.planId == a.planId && !b.cancelAtPeriodEnd && b.version == a.version + 1 && b.stateChangedAt == now
         && b.canceledAt == (if a.canceledAt.Some? || a.status == Status.Canceled then a.canceledAt else Some(now))
  }

  lemma GivenUpOutcome(s: Store, t: ChargeAttempt, now: Instant, ids: Ids, txNow: Instant)
    requires hide *; GoodSubs(s) && t.id in s.attempts
    requires var s1 := s.(attempts := s.attempts[t.id := t]);
             var r := ForceFinishAction(s1, t.actionId, ActionStatus.Canceled, None, Some("operator"));
             r.Success? && Observe(r.value, t.ref, IMMEDIATE_EXPIRY, now, ids, txNow).Success?
    ensures var s1 := s.(attempts := s.attempts[t.id := t]);
            var s2 := ForceFinishAction(s1, t.actionId, ActionStatus.Canceled, None, Some("operator")).value;
            var s' := Observe(s2, t.ref, IMMEDIATE_EXPIRY, now, ids, txNow).value;
            s'.attempts == s.attempts[t.id := t] && s'.audits == s.audits && t.ref in s'.subs
            && s'.subs[t.ref].status == Status.Expired
  {
    hide Observe, ForceFinishAction, GoodSubs, Outcome;
    var s1 := s.(attempts := s.attempts[t.id := t]);
    ForceFinishEffect(s1, t.actionId, ActionStatus.Canceled, None, Some("operator"));
    var s2 := ForceFinishAction(s1, t.actionId, ActionStatus.Canceled, None, Some("operator")).value;
    SameSubsGood(s, s2);
    ObserveOutcome(s2, t.ref, IMMEDIATE_EXPIRY, now, ids, txNow);
    var s' := Observe(s2, t.ref, IMMEDIATE_EXPIRY, now, ids, txNow).value;
    EndedRow(s2.subs[t.ref], s'.subs[t.ref], now);
  }

  lemma ResolveStepFollowed(env: Environment, sys: System, step: Step)
    requires hide *; Safe(env, sys) && Enabled(env, sys, step) && step.ResolveStep?
    ensures var s, s' := sys.db, DbAfter(env, sys, step);
            s' == s || Resolved(s, s', step.id, step.outcome, step.reason, step.actor, step.paymentId, step.now)
  {
    hide ChargeInv, Bindings.Bound, Ledger.LedgerInv, WorkersAgree, ResolveAttempt, Resolved, TruthfulResolution;
    if ResolveAttempt(sys.db, env.cfg, step.id, step.outcome, step.reason, step.actor, step.paymentId, step.now,
                      step.ids, step.txNow).Success? {
      ResolveOutcome(env, sys.db, step.id, step.outcome, step.reason, step.actor, step.paymentId, step.now, step.ids,
                     step.txNow);
    }
  }

  /** In every run, an operator's decision is about an attempt whose outcome is open or in review; it is recorded and
      audited as what it is: paid, served and unblocked; refused and past due; or given up and expired. Otherwise
      nothing changes. */
  lemma DecisionRecorded(env: Environment, states: seq<System>, steps: seq<Step>, n: nat)
    requires hide Leads; Run(env, states, steps) && n < |steps| && n + 1 < |states| && steps[n].ResolveStep?
    ensures var s, s', step := states[n].db, states[n + 1].db, steps[n];
            s' == s || Resolved(s, s', step.id, step.outcome, step.reason, step.actor, step.paymentId, step.now)
  {
    hide Run, Safe, Enabled, DbAfter, WorkersAfter, ReadsAfter, SentAfter, ClaimsRun, Arrived, Resolved;
    RunStep(env, states, steps, n);
    RunBasics(env, states, steps, n);
    ResolveStepFollowed(env, states[n], steps[n]);
  }

  // ---------- ends that are asked for ----------

  /** The named subscription has moved on in this way, or nothing has changed. */
  lemma KeptOutcome(s: Store, ref: string, obs: Observation, now: Instant, ids: Ids, txNow: Instant)
    requires GoodSubs(s)
    ensures hide *; var s' := KeptStore(s, Observe(s, ref, obs, now, ids, txNow));
            s' == s || (&& ref in s.subs && ref in s'.subs && s'.subs == s.subs[ref := s'.subs[ref]]
                        && Outcome(s.subs[ref], obs, s'.subs[ref], now) && s'.attempts == s.attempts)
  {
    hide Observe, Outcome, GoodSubs;
    if Observe(s, ref, obs, now, ids, txNow).Success? { ObserveOutcome(s, ref, obs, now, ids, txNow); }
  }

  /** In every run, a cancellation that goes through ends the named subscription with its period, and an end at once
      expires it; nothing else changes among the subscriptions. */
  lemma EndAskedFor(env: Environment, states: seq<System>, steps: seq<Step>, n: nat)
    requires hide Leads; Run(env, states, steps) && n < |steps| && n + 1 < |states|
             && (steps[n].CancelStep? || steps[n].ExpireNowStep?)
    ensures var s, s', step := states[n].db, states[n + 1].db, steps[n];
            s' == s || (&& step.ref in s.subs && step.ref in s'.subs
                        && s'.subs == s.subs[step.ref := s'.subs[step.ref]]
                        && (if step.CancelStep? then CanceledNow(s.subs[step.ref], s'.subs[step.ref], step.now)
                            else EndedNow(s.subs[step.ref], s'.subs[step.ref], step.now)))
  {
    hide Run, Safe, Enabled, DbAfter, WorkersAfter, ReadsAfter, SentAfter, ClaimsRun, Arrived, CanceledNow, EndedNow;
    RunStep(env, states, steps, n);
    RunBasics(env, states, steps, n);
    StepEndsAsked(env, states[n], steps[n]);
  }

  lemma StepEndsAsked(env: Environment, sys: System, step: Step)
    requires hide *; Safe(env, sys) && Enabled(env, sys, step) && (step.CancelStep? || step.ExpireNowStep?)
    ensures var s, s' := sys.db, DbAfter(env, sys, step);
            s' == s || (&& step.ref in s.subs && step.ref in s'.subs
                        && s'.subs == s.subs[step.ref := s'.subs[step.ref]]
                        && (if step.CancelStep? then CanceledNow(s.subs[step.ref], s'.subs[step.ref], step.now)
                            else EndedNow(s.subs[step.ref], s'.subs[step.ref], step.now)))
  {
    hide ChargeInv, Bindings.Bound, Ledger.LedgerInv, WorkersAgree, Observe, GoodSubs, GoodActions, GoodAttempts,
         TruthfulAttempts, NotAhead, Outcome, CanceledNow, EndedNow;
    Basics(env, sys.db, None);
    var s, s' := sys.db, DbAfter(env, sys, step);
    var obs := if step.CancelStep? then CANCELLATION else IMMEDIATE_EXPIRY;
    KeptOutcome(s, step.ref, obs, step.now, step.ids, step.txNow);
    if s' != s {
      if step.CancelStep? {
        CanceledRowNow(s.subs[step.ref], s'.subs[step.ref], step.now);
      } else {
        EndedRow(s.subs[step.ref], s'.subs[step.ref], step.now);
      }
    }
  }
}
