/**
 * The scheduler and the notifier (internal/scheduler/scheduler.go, internal/notify/notify.go) as methods over the
 * store: each method is one of the transactions between which a worker talks to the network.
 */
module WorkerService {
  import opened Wrappers
  import opened Calendar
  import opened Protocol
  import opened Model
  import opened Transition
  import opened MemoryStore
  import opened EngineService
  import opened Engine
  import opened Scheduler
  import Notify

  class SchedulerWorker {
    const store: Memory
    const engine: Service

    constructor (engine: Service)
      ensures this.engine == engine && store == engine.store
    {
      this.engine, this.store := engine, engine.store;
    }

    // ---------- expiry ----------

    /** Takes up a due expire action, an earliest one, and expires its subscription. */
    method RunExpire(token: string, now: Instant, ids: Ids, txNow: Instant)
      returns (picked: Option<string>, r: Result<(), Error>)
      requires hide *; store == engine.store
      modifies store
      ensures match picked
              case None => store.Contents() == old(store.Contents()) && r == Success(())
              case Some(id) =>
                && EarliestAction(old(store.Contents()), now, ActionStatus.Pending, [Expire], id)
                && Applied(Scheduler.RunExpire(old(store.Contents()), id, token, engine.cfg, now, ids, txNow),
                           old(store.Contents()), r, store.Contents())
    {
      hide EarliestAction, Scheduler.RunExpire;
      var snapshot := store.Contents();
      picked := store.LockDueAction(now, ActionStatus.Pending, [Expire]);
      r := Success(());
      if picked.Some? {
        r := ExpireOne(picked.value, token, now, ids, txNow);
        if r.Failure? { store.Restore(snapshot); }
      }
    }

    method ExpireOne(id: string, token: string, now: Instant, ids: Ids, txNow: Instant) returns (r: Result<(), Error>)
      requires hide *; store == engine.store
      modifies store
      ensures Did(Scheduler.RunExpire(old(store.Contents()), id, token, engine.cfg, now, ids, txNow), r,
                  store.Contents())
    {
      hide Model.ClaimAction, Model.FinishAction, Engine.Observe;
      var a :- store.ClaimAction(id, token, now, Lease(engine.cfg));
      r := engine.Observe(a.ref, Observed(Status.Expired), now, ids, txNow);
      if r.Failure? { return; }
      r := store.FinishAction(id, token, a.claim.fence, ActionStatus.Completed, None, None);
    }

    // ---------- preparing ----------

    /** The open attempt of an action, or the number that its next attempt will have. */
    method Choose(actionId: string) returns (choice: Choice)
      ensures Chooses(store.Contents(), actionId, choice)
    {
      var list := store.GetAttemptsForAction(actionId);
      var next: AttemptNumber := 1;
      var i := 0;
      while i < |list|
        invariant 0 <= i <= |list|
        invariant forall j :: 0 <= j < i ==> !IsOpen(list[j].status) && list[j].number < next
        invariant next == 1 || exists j :: 0 <= j < i && list[j].number == next - 1
      {
        if IsOpen(list[i].status) {
          FirstOf(store.Contents(), actionId, list, i, IsOpen);
          return Reuse(list[i].id);
        }
        if list[i].number >= next {
          next := list[i].number + 1;
        }
        i := i + 1;
      }
      AllClosed(store.Contents(), actionId, list, next);
      choice := Anew(next);
    }

    /** Prepares the charge of a due renewal: the first transaction of a renewal run. */
    method PrepareRenewal(attemptId: string, reference: string, now: Instant)
      returns (picked: Option<string>, choice: Choice,
            r: Result<string, Error>)
      requires store == engine.store
      modifies store
      ensures match picked
              case None => store.Contents() == old(store.Contents())
              case Some(id) =>
                && EarliestAction(old(store.Contents()), now, ActionStatus.Pending, [Renew], id)
                   && Chooses(old(store.Contents()), id, choice)
                && AppliedTo(EnsurePrepared(old(store.Contents()), engine.cfg, old(store.actions)[id], choice,
                                            attemptId, reference),
                             old(store.Contents()), r, store.Contents())
    {
      hide Chooses, NewAttempt, Model.InsertAttempt, ActionDue;
      picked := store.LockDueAction(now, ActionStatus.Pending, [Renew]);
      choice, r := Anew(1), Failure(Error.NotFound);
      if picked.Some? {
        var a := store.actions[picked.value];
        choice := Choose(picked.value);
        var sub := GetSubscription(store.Contents(), a.ref);
        if sub.Failure? {
          r := Failure(sub.error);
        } else if sub.value.chargingBlocked {
          r := Failure(ChargeBlocked);
        } else if choice.Reuse? {
          r := Success(choice.id);
        } else {
          r := Prepare(a, sub.value, choice.number, attemptId, reference);
        }
      }
    }

    method Prepare(a: ScheduledAction, sub: Subscription, number: AttemptNumber, attemptId: string,
            reference: string) returns (r: Result<string, Error>)
      modifies store
      ensures AppliedTo(match ResolvePlan(engine.cfg, sub.planId)
                        case Failure(e) => Failure(e)
                        case Success(plan) =>
                          match Model.InsertAttempt(old(store.Contents()),
                                                    NewAttempt(attemptId, reference, number, a.id, sub, plan,
                                                               engine.cfg.endpoint))
                          case Failure(e) => Failure(e)
                          case Success(s') => Success((s', attemptId)), old(store.Contents()), r, store.Contents())
    {
      hide NewAttempt, Model.InsertAttempt;
      var plan :- ResolvePlan(engine.cfg, sub.planId);
      var w := store.InsertAttempt(NewAttempt(attemptId, reference, number, a.id, sub, plan, engine.cfg.endpoint));
      r := if w.Success? then Success(attemptId) else Failure(w.error);
    }

    /** The first attempt of an action whose outcome is still open at the provider. */
    method FirstInFlight(actionId: string) returns (found: Option<string>)
      ensures match found
              case Some(id) => FirstWith(store.Contents(), actionId, IsInFlight, id)
              case None => NoneWith(store.Contents(), actionId, IsInFlight)
    {
      var list := store.GetAttemptsForAction(actionId);
      var i := 0;
      while i < |list|
        invariant 0 <= i <= |list|
        invariant forall j :: 0 <= j < i ==> !IsInFlight(list[j].status)
      {
        if IsInFlight(list[i].status) {
          FirstOf(store.Contents(), actionId, list, i, IsInFlight);
          return Some(list[i].id);
        }
        i := i + 1;
      }
      NoneOf(store.Contents(), actionId, list, IsInFlight);
      found := None;
    }

    /** Picks up a charge with an unclear outcome: to send it again, or, past its deadline, to hand it over. */
    method PickUncertain(now: Instant, ids: Ids, txNow: Instant) returns (picked: Option<string>, found: Option<string>,
            r: Result<(), Error>)
      requires store == engine.store
      modifies store
      ensures hide *; match (picked, found)
              case (Some(id), Some(attemptId)) =>
                && EarliestAction(old(store.Contents()), now, ActionStatus.Uncertain, [Renew], id)
                && FirstWith(old(store.Contents()), id, IsInFlight, attemptId)
                && (if PastDeadline(old(store.attempts)[attemptId], now)
                    then Applied(Scheduler.GiveUp(old(store.Contents()), old(store.actions)[id], attemptId, now,
                                                  ids, txNow), old(store.Contents()), r, store.Contents())
                    else r == Success(()) && store.Contents() == old(store.Contents()))
              case _ => store.Contents() == old(store.Contents())
    {
      hide Scheduler.GiveUp, ActionDue, IsInFlight;
      found, r := None, Success(());
      picked := store.LockDueAction(now, ActionStatus.Uncertain, [Renew]);
      if picked.Some? {
        found := FirstInFlight(picked.value);
        if found.Some? && PastDeadline(store.attempts[found.value], now) {
          r := GiveUp(store.actions[picked.value], found.value, now, ids, txNow);
        }
      }
    }

    /** Hands an attempt whose deadline has passed to an operator. */
    method GiveUp(a: ScheduledAction, attemptId: string, now: Instant, ids: Ids, txNow: Instant)
      returns (r: Result<(), Error>)
      requires hide *; store == engine.store
      modifies store
      ensures Applied(Scheduler.GiveUp(old(store.Contents()), a, attemptId, now, ids, txNow), old(store.Contents()), r,
                      store.Contents())
    {
      hide Scheduler.GiveUp;
      var snapshot := store.Contents();
      r := HandOver(a, attemptId, now, ids, txNow);
      if r.Failure? { store.Restore(snapshot); }
    }

    method HandOver(a: ScheduledAction, attemptId: string, now: Instant, ids: Ids, txNow: Instant)
      returns (r: Result<(), Error>)
      requires hide *; store == engine.store
      modifies store
      ensures Did(Scheduler.GiveUp(old(store.Contents()), a, attemptId, now, ids, txNow), r, store.Contents())
    {
      hide Model.UpdateAttempt, Model.ForceFinishAction, Engine.BlockAutomaticCharging;
      var t :- GetAttempt(store.Contents(), attemptId);
      r := store.UpdateAttempt(t.(status := AttemptStatus.ManualReview, claim := t.claim.Release()));
      if r.Failure? { return; }
      r := store.ForceFinishAction(a.id, ActionStatus.ManualReview, None, Some("resolution_deadline"));
      if r.Failure? { return; }
      var sub :- GetSubscription(store.Contents(), a.ref);
      r := engine.BlockAutomaticCharging(sub, "resolution_deadline", now, ids, txNow);
    }

    // ---------- charging ----------

    /** Takes the action and its attempt under one fence: the transaction before the provider is called. */
    method ClaimCharge(actionId: string, attemptId: string, token: string, now: Instant)
      returns (r: Result<(ScheduledAction, ChargeAttempt), Error>)
      modifies store
      ensures match Scheduler.ClaimCharge(old(store.Contents()), engine.cfg, actionId, attemptId, token, now)
              case Success((s', a, t)) => r == Success((a, t)) && store.Contents() == s'
              case Failure(e) => r == Failure(e) && store.Contents() == old(store.Contents())
    {
      hide Model.ClaimAction, Model.ClaimAttemptWithAction;
      var snapshot := store.Contents();
      var claimed := store.ClaimAction(actionId, token, now, Lease(engine.cfg));
      if claimed.Failure? { return Failure(claimed.error); }
      var a := claimed.value;
      var taken := store.ClaimAttemptWithAction(actionId, attemptId, token, a.claim.fence, now, Lease(engine.cfg),
                                                Deadline(engine.cfg, now));
      if taken.Failure? {
        store.Restore(snapshot);
        return Failure(taken.error);
      }
      r := Success((a, taken.value));
    }

    /** Records the provider's answer: the transaction after the provider was called. */
    method SettleCharge(a: ScheduledAction, attemptId: string, token: string, fence: int, reply: Reply, now: Instant,
            ids: Ids, txNow: Instant)
      returns (r: Result<(), Error>)
      requires hide *; store == engine.store
      modifies store
      ensures Applied(Scheduler.SettleCharge(old(store.Contents()), engine.cfg, a, attemptId, token, fence, reply, now,
                                             ids, txNow),
                      old(store.Contents()), r, store.Contents())
    {
      hide Scheduler.SettleCharge;
      var snapshot := store.Contents();
      r := Settle(a, attemptId, token, fence, reply, now, ids, txNow);
      if r.Failure? { store.Restore(snapshot); }
    }

    method Settle(a: ScheduledAction, attemptId: string, token: string, fence: int, reply: Reply, now: Instant,
            ids: Ids, txNow: Instant)
      returns (r: Result<(), Error>)
      requires hide *; store == engine.store
      modifies store
      ensures Did(Scheduler.SettleCharge(old(store.Contents()), engine.cfg, a, attemptId, token, fence, reply, now, ids,
                                         txNow), r, store.Contents())
    {
      hide Model.UpdateAttempt, Model.FinishAction, Engine.Observe, IsRetryableRefusal, EnsureAction;
      var cur :- GetAttempt(store.Contents(), attemptId);
      if cur.claim.token != Some(token) || cur.claim.fence != fence { return Success(()); }
      match reply
      case Unclear =>
        r := store.UpdateAttempt(cur.(status := AttemptStatus.Uncertain, claim := cur.claim.Release()));
        if r.Failure? { return; }
        r := store.FinishAction(a.id, token, fence, ActionStatus.Uncertain, Some(RecheckAt(cur, now)),
                                Some("uncertain"));
      case Authorised(paymentId) =>
        r := store.UpdateAttempt(cur.(status := Authorized, paymentId := Some(paymentId), completedAt := Some(now),
                                      claim := cur.claim.Release()));
        if r.Failure? { return; }
        r := engine.Observe(a.ref, PaidPeriod(cur.periodStart, cur.periodEnd), now, ids, txNow);
        if r.Failure? { return; }
        r := store.FinishAction(a.id, token, fence, ActionStatus.Completed, None, None);
      case Declined(paymentId, code) =>
        r := store.UpdateAttempt(DeclinedAttempt(cur, paymentId, code, now));
        if r.Failure? { return; }
        r := engine.Observe(a.ref, Observed(Status.PastDue), now, ids, txNow);
        if r.Failure? { return; }
        r := GoOn(a, cur.number, code, token, fence, now, ids.dunning);
    }

    /** After a refusal: retry later, or give up and schedule the expiry. */
    method GoOn(a: ScheduledAction, number: AttemptNumber, code: string, token: string, fence: int, now: Instant,
            dunningId: string) returns (r: Result<(), Error>)
      modifies store
      ensures var s := old(store.Contents());
              if LastRefusal(engine.cfg, number, IsRetryableRefusal(code)) then
                Did(match Model.FinishAction(s, a.id, token, fence, ActionStatus.Completed, None, Some("refused"))
                    case Failure(e) => Failure(e)
                    case Success(s3) =>
                      Success(EnsureAction(s3,
                                           NewAction(dunningId, a.ref, Expire, now + engine.cfg.dunningTermination))),
                    r, store.Contents())
              else
                Did(Model.FinishAction(s, a.id, token, fence, ActionStatus.Pending,
                                       Some(now + engine.cfg.retryDelays[number - 1]), Some("refused")),
                    r, store.Contents())
    {
      hide Model.FinishAction, Model.InsertAction, IsRetryableRefusal;
      if !IsRetryableRefusal(code) || number >= |engine.cfg.retryDelays| {
        r := store.FinishAction(a.id, token, fence, ActionStatus.Completed, None, Some("refused"));
        if r.Failure? { return; }
        var inserted := store.InsertAction(NewAction(dunningId, a.ref, Expire, now + engine.cfg.dunningTermination));
      } else {
        r := store.FinishAction(a.id, token, fence, ActionStatus.Pending,
                                Some(now + engine.cfg.retryDelays[number - 1]), Some("refused"));
      }
    }
  }

  lemma FirstOf(s: Store, actionId: string, list: seq<ChargeAttempt>, i: nat, wanted: AttemptStatus -> bool)
    requires AttemptsForAction(s, actionId, list) && i < |list| && wanted(list[i].status)
    requires forall j :: 0 <= j < i ==> !wanted(list[j].status)
    ensures FirstWith(s, actionId, wanted, list[i].id)
  {
    assert list[i] in list;
    forall other | other in s.attempts && s.attempts[other].actionId == actionId && wanted(s.attempts[other].status)
      ensures list[i].number <= s.attempts[other].number
    {
      var k :| 0 <= k < |list| && list[k] == s.attempts[other];
    }
  }

  lemma NoneOf(s: Store, actionId: string, list: seq<ChargeAttempt>, wanted: AttemptStatus -> bool)
    requires AttemptsForAction(s, actionId, list) && forall j :: 0 <= j < |list| ==> !wanted(list[j].status)
    ensures NoneWith(s, actionId, wanted)
  {
    forall id | id in s.attempts && s.attempts[id].actionId == actionId ensures !wanted(s.attempts[id].status) {
      var k :| 0 <= k < |list| && list[k] == s.attempts[id];
    }
  }

  lemma AllClosed(s: Store, actionId: string, list: seq<ChargeAttempt>, next: AttemptNumber)
    requires AttemptsForAction(s, actionId, list)
    requires forall j :: 0 <= j < |list| ==> !IsOpen(list[j].status) && list[j].number < next
    requires next == 1 || exists j :: 0 <= j < |list| && list[j].number == next - 1
    ensures Chooses(s, actionId, Anew(next))
  {
    NoneOf(s, actionId, list, IsOpen);
    forall id | id in s.attempts && s.attempts[id].actionId == actionId ensures s.attempts[id].number < next {
      var k :| 0 <= k < |list| && list[k] == s.attempts[id];
    }
    if next != 1 {
      var j :| 0 <= j < |list| && list[j].number == next - 1;
      assert list[j] in list;
      assert list[j].id in s.attempts && s.attempts[list[j].id].actionId == actionId
             && s.attempts[list[j].id].number == next - 1;
    }
  }

  class Notifier {
    const store: Memory

    constructor (store: Memory)
      ensures this.store == store
    {
      this.store := store;
    }

    /** Schedules another delivery; a retry that has lost its claim is dropped. */
    method Retry(e: OutboundEvent, token: string, next: Instant, class_: string) returns (r: Result<(), Error>)
      modifies store
      ensures Applied(Notify.Retry(old(store.Contents()), e, token, next, class_), old(store.Contents()), r,
                      store.Contents())
    {
      hide Model.RetryOutbound;
      r := store.RetryOutbound(e.id, token, e.claim.fence, next, class_);
      if r.Failure? && r.error == NotOwned {
        r := Success(());
      }
    }

    /** Records the response to a delivery. */
    method Record(e: OutboundEvent, token: string, response: Notify.Response, now: Instant, next: Instant)
      returns (r: Result<(), Error>)
      modifies store
      ensures Applied(Notify.RecordResponse(old(store.Contents()), e, token, response, now, next),
                      old(store.Contents()), r, store.Contents())
    {
      hide Notify.Retry, Model.CompleteOutbound, Model.DeadLetterOutbound, Notify.StatusClass;
      if response.NetworkError? {
        r := Retry(e, token, next, "network");
      } else {
        var code := response.code;
        if code >= 200 && code <= 299 {
          r := store.CompleteOutbound(e.id, token, e.claim.fence, now);
        } else if code == 408 || code == 425 || code == 429 || code >= 500 {
          r := Retry(e, token, next, Notify.StatusClass(code));
        } else if code >= 400 && code <= 499 {
          r := store.DeadLetterOutbound(e.id, token, e.claim.fence, now, Notify.StatusClass(code));
        } else {
          r := Retry(e, token, next, Notify.StatusClass(code));
        }
      }
    }
  }
}
