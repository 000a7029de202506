/**
 * The in-memory store (internal/store/memory.go): maps that the methods of a transaction update in place. Every method
 * is proved against the function of the same name in module Model. Fresh claim tokens and the clock are parameters.
 */
module MemoryStore {
  import opened Wrappers
  import opened Calendar
  import opened Protocol
  import opened Model

  /** A method does what its specification says: on success the new state is the specified one, and otherwise the error
      is the specified one and nothing has changed. */
  ghost predicate Applied(spec: Result<Store, Error>, before: Store, r: Result<(), Error>, after: Store) {
    match spec
    case Success(s) => r == Success(()) && after == s
    case Failure(e) => r == Failure(e) && after == before
  }

  ghost predicate AppliedTo<T(!new)>(spec: Result<(Store, T), Error>, before: Store, r: Result<T, Error>, after: Store)
  {
    match spec
    case Success((s, value)) => r == Success(value) && after == s
    case Failure(e) => r == Failure(e) && after == before
  }

  /** The checkouts among `ids` whose time has come. */
  ghost function DueIds(checkouts: map<string, Checkout>, ids: set<string>, now: Instant): set<string>
    requires ids <= checkouts.Keys
  {
    set id | id in ids && CheckoutDue(checkouts[id], now)
  }

  /** The table after the sweep has looked at `ids`. */
  ghost function Swept(checkouts: map<string, Checkout>, ids: set<string>, now: Instant): map<string, Checkout> {
    map id | id in checkouts :: if id in ids && CheckoutDue(checkouts[id], now)
      then checkouts[id].(status := CheckoutStatus.Expired) else checkouts[id]
  }

  lemma SweptEnds(checkouts: map<string, Checkout>, now: Instant)
    ensures Swept(checkouts, checkouts.Keys - checkouts.Keys, now) == checkouts
            && DueIds(checkouts, checkouts.Keys - checkouts.Keys, now) == {}
    ensures Swept(checkouts, checkouts.Keys, now)
            == map id | id in checkouts :: if CheckoutDue(checkouts[id], now)
              then checkouts[id].(status := CheckoutStatus.Expired) else checkouts[id]
  {
    hide CheckoutDue;
  }

  lemma SweepOne(checkouts: map<string, Checkout>, todo: set<string>, id: string, now: Instant)
    requires todo <= checkouts.Keys && id in todo
    ensures var before, after := Swept(checkouts, checkouts.Keys - todo, now),
            Swept(checkouts, checkouts.Keys - (todo - {id}), now);
            && id in before && before[id] == checkouts[id]
            && after == if CheckoutDue(checkouts[id], now)
               then before[id := checkouts[id].(status := CheckoutStatus.Expired)] else before
    ensures |DueIds(checkouts, checkouts.Keys - (todo - {id}), now)|
            == |DueIds(checkouts, checkouts.Keys - todo, now)| + (if CheckoutDue(checkouts[id], now) then 1 else 0)
    ensures CheckoutDue(checkouts[id], now)
            <==> (checkouts[id].status.Creating? || checkouts[id].status.Pending?) && checkouts[id].expiresAt <= now
  {
    var done := DueIds(checkouts, checkouts.Keys - todo, now);
    assert DueIds(checkouts, checkouts.Keys - (todo - {id}), now) == if CheckoutDue(checkouts[id], now) then done + {id}
           else done;
  }

  /** The table of actions after those among `ids` were canceled where they may be. */
  ghost function CanceledAmong(actions: map<string, ScheduledAction>, ids: set<string>, ref: string,
        except: Option<ActionKey>): map<string, ScheduledAction> {
    map id | id in actions ::
      if id in ids && Cancelable(actions[id], ref, except)
        then actions[id].(status := ActionStatus.Canceled, claim := actions[id].claim.Release()) else actions[id]
  }

  lemma CanceledEnds(actions: map<string, ScheduledAction>, ref: string, except: Option<ActionKey>)
    ensures CanceledAmong(actions, actions.Keys - actions.Keys, ref, except) == actions
    ensures CanceledAmong(actions, actions.Keys, ref, except)
            == map id | id in actions ::
                 if Cancelable(actions[id], ref, except)
                   then actions[id].(status := ActionStatus.Canceled, claim := actions[id].claim.Release())
                   else actions[id]
  {
    hide Cancelable;
  }

  lemma CancelOne(actions: map<string, ScheduledAction>, todo: set<string>, id: string, ref: string,
          except: Option<ActionKey>)
    requires todo <= actions.Keys && id in todo
    ensures var before, after := CanceledAmong(actions, actions.Keys - todo, ref, except),
            CanceledAmong(actions, actions.Keys - (todo - {id}), ref, except);
            && id in before && before[id] == actions[id]
            && after == if Cancelable(actions[id], ref, except)
               then before[id := actions[id].(status := ActionStatus.Canceled, claim := actions[id].claim.Release())]
                        else before
  {
    hide Cancelable;
  }

  /** Every attempt is kept under its own identifier. */
  type Attempts = m: map<string, ChargeAttempt> | forall id :: id in m ==> m[id].id == id witness map[]

  /** What the rows of a store can be. */
  type Snapshot = s: Store | forall id :: id in s.attempts ==> s.attempts[id].id == id witness EMPTY

  class Memory {
    var checkouts: map<string, Checkout>
    var subs: map<string, Subscription>
    var outbound: map<string, OutboundEvent>
    var procEvents: map<EventKey, ProcessorEvent>
    var leases: map<string, ProcessingLease>
    var actions: map<string, ScheduledAction>
    var attempts: Attempts
    var audits: seq<Audit>

    /** The rows of the store; a snapshot of them is what a failed transaction is rolled back to. */
    function Contents(): (s: Snapshot)
      reads this
    {
      Store(checkouts, subs, outbound, procEvents, leases, actions, attempts, audits)
    }

    constructor ()
      ensures Contents() == EMPTY
    {
      checkouts, subs, outbound, procEvents := map[], map[], map[], map[];
      leases, actions, attempts, audits := map[], map[], map[], [];
    }

    method Restore(s: Snapshot)
      modifies this
      ensures Contents() == s
    {
      checkouts, subs, outbound, procEvents := s.checkouts, s.subs, s.outbound, s.procEvents;
      leases, actions, attempts, audits := s.leases, s.actions, s.attempts, s.audits;
    }

    // ---------- checkouts ----------

    method InsertCheckout(c: Checkout) returns (r: Result<(), Error>)
      modifies `checkouts
      ensures Applied(Model.InsertCheckout(old(Contents()), c), old(Contents()), r, Contents())
    {
      if c.id in checkouts {
        return Failure(Error.Conflict);
      }
      var todo := checkouts.Keys;
      while todo != {}
        invariant todo <= checkouts.Keys
        invariant forall id :: id in checkouts.Keys - todo ==> checkouts[id].idempotencyKey != c.idempotencyKey
        decreases |todo|
      {
        var id :| id in todo;
        if checkouts[id].idempotencyKey == c.idempotencyKey {
          return Failure(Error.Conflict);
        }
        todo := todo - {id};
      }
      checkouts := checkouts[c.id := c];
      r := Success(());
    }

    method UpdateCheckout(c: Checkout) returns (r: Result<(), Error>)
      modifies `checkouts
      ensures Applied(Model.UpdateCheckout(old(Contents()), c), old(Contents()), r, Contents())
    {
      if c.id !in checkouts {
        return Failure(Error.NotFound);
      }
      checkouts := checkouts[c.id := c];
      r := Success(());
    }

    method ExpireDueCheckouts(now: Instant) returns (n: nat)
      modifies `checkouts
      ensures Contents() == Model.ExpireDueCheckouts(old(Contents()), now)
      ensures n == |DueIds(old(checkouts), old(checkouts).Keys, now)|
    {
      hide Swept, DueIds, CheckoutDue;
      n := 0;
      var todo := checkouts.Keys;
      ghost var before := checkouts;
      SweptEnds(before, now);
      while todo != {}
        invariant todo <= before.Keys
        invariant checkouts == Swept(before, before.Keys - todo, now) && n == |DueIds(before, before.Keys - todo, now)|
        decreases |todo|
      {
        var id :| id in todo;
        SweepOne(before, todo, id, now);
        var c := checkouts[id];
        if (c.status.Creating? || c.status.Pending?) && c.expiresAt <= now {
          checkouts := checkouts[id := c.(status := CheckoutStatus.Expired)];
          n := n + 1;
        }
        todo := todo - {id};
      }
      assert before.Keys - todo == before.Keys;
    }

    // ---------- subscriptions ----------

    method InsertSubscription(sub: Subscription) returns (r: Result<(), Error>)
      modifies `subs
      ensures Applied(Model.InsertSubscription(old(Contents()), sub), old(Contents()), r, Contents())
    {
      if sub.ref in subs {
        return Failure(Error.Conflict);
      }
      var todo := subs.Keys;
      while todo != {}
        invariant todo <= subs.Keys
        invariant forall ref :: ref in subs.Keys - todo ==> subs[ref].checkoutId != sub.checkoutId
        decreases |todo|
      {
        var ref :| ref in todo;
        if subs[ref].checkoutId == sub.checkoutId {
          return Failure(Error.Conflict);
        }
        todo := todo - {ref};
      }
      subs := subs[sub.ref := sub];
      r := Success(());
    }

    method UpdateSubscription(sub: Subscription) returns (r: Result<(), Error>)
      modifies `subs
      ensures Applied(Model.UpdateSubscription(old(Contents()), sub), old(Contents()), r, Contents())
    {
      if sub.ref !in subs {
        return Failure(Error.NotFound);
      }
      subs := subs[sub.ref := sub];
      r := Success(());
    }

    method GetSubscriptionByCheckout(id: string) returns (hit: Option<string>)
      ensures Finds(subs, HasCheckout(id), hit)
    {
      var todo := subs.Keys;
      while todo != {}
        invariant todo <= subs.Keys
        invariant forall ref :: ref in subs.Keys - todo ==> subs[ref].checkoutId != id
        decreases |todo|
      {
        var ref :| ref in todo;
        if subs[ref].checkoutId == id {
          return Some(ref);
        }
        todo := todo - {ref};
      }
      hit := None;
    }

    method GetSubscriptionByProcessor(family: Family, id: string) returns (hit: Option<string>)
      ensures Finds(subs, HasProcessorSub(family, id), hit)
    {
      var todo := subs.Keys;
      while todo != {}
        invariant todo <= subs.Keys
        invariant forall ref :: ref in subs.Keys - todo ==>
                    !(subs[ref].family == family && subs[ref].processorSubId == Some(id))
        decreases |todo|
      {
        var ref :| ref in todo;
        if subs[ref].family == family && subs[ref].processorSubId == Some(id) {
          return Some(ref);
        }
        todo := todo - {ref};
      }
      hit := None;
    }

    method GetSubscriptionByInitialPayment(family: Family, id: string) returns (hit: Option<string>)
      ensures Finds(subs, HasInitialPayment(family, id), hit)
    {
      var todo := subs.Keys;
      while todo != {}
        invariant todo <= subs.Keys
        invariant forall ref :: ref in subs.Keys - todo ==>
                    !(subs[ref].family == family && subs[ref].initialPaymentId == Some(id))
        decreases |todo|
      {
        var ref :| ref in todo;
        if subs[ref].family == family && subs[ref].initialPaymentId == Some(id) {
          return Some(ref);
        }
        todo := todo - {ref};
      }
      hit := None;
    }

    // ---------- outbound events ----------

    method InsertOutbound(e: OutboundEvent) returns (r: Result<(), Error>)
      modifies `outbound
      ensures Applied(Model.InsertOutbound(old(Contents()), e), old(Contents()), r, Contents())
    {
      if e.id in outbound {
        return Failure(Error.Conflict);
      }
      var todo := outbound.Keys;
      while todo != {}
        invariant todo <= outbound.Keys
        invariant forall id :: id in outbound.Keys - todo ==>
                    outbound[id].ref != e.ref || outbound[id].version != e.version
        decreases |todo|
      {
        var id :| id in todo;
        if outbound[id].ref == e.ref && outbound[id].version == e.version {
          return Failure(Error.Conflict);
        }
        todo := todo - {id};
      }
      outbound := outbound[e.id := e];
      r := Success(());
    }

    /** Leases one due row, an earliest one, under a new fence. */
    method ClaimDueOutbound(now: Instant, lease: int, token: string) returns (claimed: Option<string>)
      modifies `outbound
      ensures match claimed
              case None =>
                Contents() == old(Contents()) && forall id :: id in outbound ==> !OutboundDue(outbound[id], now)
              case Some(id) =>
                && EarliestOutbound(old(Contents()), now, id)
                && Contents() == old(Contents()).(outbound := old(outbound)[id := ClaimOutbound(old(outbound)[id],
                    token, now, lease)])
    {
      var chosen: Option<string> := None;
      var todo := outbound.Keys;
      while todo != {}
        invariant todo <= outbound.Keys
        invariant chosen.None? ==> forall id :: id in outbound.Keys - todo ==> !OutboundDue(outbound[id], now)
        invariant chosen.Some? ==>
                    && chosen.value in outbound && OutboundDue(outbound[chosen.value], now)
                    && forall id :: id in outbound.Keys - todo && OutboundDue(outbound[id], now) ==>
                         outbound[chosen.value].nextAttemptAt.value <= outbound[id].nextAttemptAt.value
        decreases |todo|
      {
        var id :| id in todo;
        var e := outbound[id];
        if e.state.Pending? && e.nextAttemptAt.Some? && e.nextAttemptAt.value <= now
             && !(e.claim.leaseUntil.Some? && e.claim.leaseUntil.value > now) {
          if chosen.None? || e.nextAttemptAt.value < outbound[chosen.value].nextAttemptAt.value {
            chosen := Some(id);
          }
        }
        todo := todo - {id};
      }
      if chosen.Some? {
        outbound := outbound[chosen.value := ClaimOutbound(outbound[chosen.value], token, now, lease)];
      }
      claimed := chosen;
    }

    method CompleteOutbound(id: string, token: string, fence: int, now: Instant) returns (r: Result<(), Error>)
      modifies `outbound
      ensures Applied(Model.CompleteOutbound(old(Contents()), id, token, fence, now), old(Contents()), r, Contents())
    {
      var e :- OwnedOutbound(Contents(), id, token, fence);
      outbound := outbound[id := e.(state := Delivered, deliveredAt := Some(now), nextAttemptAt := None,
                                    claim := e.claim.Release(), attemptCount := e.attemptCount + 1)];
      r := Success(());
    }

    method RetryOutbound(id: string, token: string, fence: int, next: Instant, class_: string)
      returns (r: Result<(), Error>)
      modifies `outbound
      ensures Applied(Model.RetryOutbound(old(Contents()), id, token, fence, next, class_), old(Contents()), r,
                      Contents())
    {
      var e :- OwnedOutbound(Contents(), id, token, fence);
      outbound := outbound[id := e.(nextAttemptAt := Some(next), lastError := Some(class_), claim := e.claim.Release(),
                                    attemptCount := e.attemptCount + 1)];
      r := Success(());
    }

    method DeadLetterOutbound(id: string, token: string, fence: int, now: Instant, class_: string)
      returns (r: Result<(), Error>)
      modifies `outbound
      ensures Applied(Model.DeadLetterOutbound(old(Contents()), id, token, fence, now, class_), old(Contents()), r,
                      Contents())
    {
      var e :- OwnedOutbound(Contents(), id, token, fence);
      outbound := outbound[id := e.(state := DeadLettered, deadLetteredAt := Some(now), nextAttemptAt := None,
                                    claim := e.claim.Release(),
                                    lastError := Some(class_), attemptCount := e.attemptCount + 1)];
      r := Success(());
    }

    method AbandonOutbound(id: string, reason: string, actor: string, now: Instant) returns (r: Result<(), Error>)
      modifies `outbound, `audits
      ensures Applied(Model.AbandonOutbound(old(Contents()), id, reason, actor, now), old(Contents()), r, Contents())
    {
      if id !in outbound {
        return Failure(Error.NotFound);
      }
      var e := outbound[id];
      if !e.state.Pending? {
        return Failure(Error.Conflict);
      }
      outbound := outbound[id := e.(state := Abandoned, abandonedAt := Some(now), nextAttemptAt := None,
                                    claim := e.claim.Release())];
      InsertAudit(Audit("abandon-event", id, actor, reason));
      r := Success(());
    }

    method RequeueOutbound(id: string, reason: string, actor: string, now: Instant) returns (r: Result<(), Error>)
      modifies `outbound, `audits
      ensures Applied(Model.RequeueOutbound(old(Contents()), id, reason, actor, now), old(Contents()), r, Contents())
    {
      if id !in outbound {
        return Failure(Error.NotFound);
      }
      var e := outbound[id];
      if !e.state.DeadLettered? && !e.state.Abandoned? {
        return Failure(Error.Conflict);
      }
      outbound := outbound[id := e.(state := DeliveryState.Pending, nextAttemptAt := Some(now), deadLetteredAt := None,
                                    abandonedAt := None,
                                    deliveredAt := None, claim := e.claim.Release())];
      InsertAudit(Audit("requeue-event", id, actor, reason));
      r := Success(());
    }

    method InsertAudit(a: Audit)
      modifies `audits
      ensures Contents() == Model.InsertAudit(old(Contents()), a)
    {
      audits := audits + [a];
    }

    method GetLatestOutbound(ref: string) returns (best: Option<string>)
      ensures match best
              case Some(id) => LatestOutbound(Contents(), ref, id)
              case None => forall id :: id in outbound ==> outbound[id].ref != ref
    {
      best := None;
      var todo := outbound.Keys;
      while todo != {}
        invariant todo <= outbound.Keys
        invariant best.None? ==> forall id :: id in outbound.Keys - todo ==> outbound[id].ref != ref
        invariant best.Some? ==>
                    && best.value in outbound && outbound[best.value].ref == ref
                    && forall id :: id in outbound.Keys - todo && outbound[id].ref == ref ==>
                         outbound[id].version <= outbound[best.value].version
        decreases |todo|
      {
        var id :| id in todo;
        if outbound[id].ref == ref && (best.None? || outbound[id].version > outbound[best.value].version) {
          best := Some(id);
        }
        todo := todo - {id};
      }
    }

    // ---------- processor events and processing leases ----------

    method InsertProcessorEvent(e: ProcessorEvent) returns (inserted: bool)
      modifies `procEvents
      ensures inserted == (e.key !in old(procEvents))
      ensures Contents() == Model.InsertProcessorEvent(old(Contents()), e)
    {
      if e.key in procEvents {
        return false;
      }
      procEvents := procEvents[e.key := e];
      inserted := true;
    }

    method ClaimProcessorEvent(key: EventKey, processingKey: string, token: string, now: Instant,
            lease: int) returns (r: Result<ProcessingLease, Error>)
      modifies `leases, `procEvents
      ensures AppliedTo(Model.ClaimProcessorEvent(old(Contents()), key, processingKey, token, now, lease),
                        old(Contents()), r, Contents())
    {
      if key !in procEvents {
        return Failure(Error.NotFound);
      }
      var e := procEvents[key];
      if e.state.Processed? || e.state.Quarantined? || e.state.ManualReview? {
        return Failure(Error.Conflict);
      }
      var row := ProcessingLease(processingKey, false, None, UNCLAIMED);
      if processingKey in leases {
        row := leases[processingKey];
        if row.running && row.claim.leaseUntil.Some? && row.claim.leaseUntil.value > now {
          if row.activeActionId != Some(e.actionId) {
            return Failure(Error.Conflict);
          }
        }
      }
      row := ProcessingLease(processingKey, true, Some(e.actionId), row.claim.Take(token, now + lease));
      e := e.(state := ProcessingState.Running, claim := row.claim);
      leases := leases[processingKey := row];
      procEvents := procEvents[key := e];
      r := Success(row);
    }

    method FinishProcessorEvent(key: EventKey, token: string, fence: int, state: ProcessingState, ref: Option<string>,
            now: Instant) returns (r: Result<(), Error>)
      modifies `procEvents
      ensures Applied(Model.FinishProcessorEvent(old(Contents()), key, token, fence, state, ref, now), old(Contents()),
                      r, Contents())
    {
      if key !in procEvents {
        return Failure(Error.NotFound);
      }
      var e := procEvents[key];
      if !e.state.Running? || e.claim.token != Some(token) || e.claim.fence != fence {
        return Failure(NotOwned);
      }
      e := e.(state := state, claim := e.claim.Release(), ref := ref);
      if state.Processed? {
        e := e.(processedAt := Some(now));
      }
      procEvents := procEvents[key := e];
      r := Success(());
    }

    method ReleaseProcessorLease(key: string, token: string, fence: int) returns (r: Result<(), Error>)
      modifies `leases
      ensures Applied(Model.ReleaseProcessorLease(old(Contents()), key, token, fence), old(Contents()), r, Contents())
    {
      if key !in leases {
        return Failure(Error.NotFound);
      }
      var row := leases[key];
      if row.claim.token != Some(token) || row.claim.fence != fence {
        return Failure(NotOwned);
      }
      leases := leases[key := ProcessingLease(row.key, false, None, row.claim.Release())];
      r := Success(());
    }

    // ---------- scheduled actions ----------

    method InsertAction(a: ScheduledAction) returns (r: Result<(), Error>)
      modifies `actions
      ensures Applied(Model.InsertAction(old(Contents()), a), old(Contents()), r, Contents())
    {
      if a.id in actions {
        return Failure(Error.Conflict);
      }
      var todo := actions.Keys;
      while todo != {}
        invariant todo <= actions.Keys
        invariant forall id :: id in actions.Keys - todo ==> actions[id].key != a.key
        decreases |todo|
      {
        var id :| id in todo;
        if actions[id].key == a.key {
          return Failure(Error.Conflict);
        }
        todo := todo - {id};
      }
      actions := actions[a.id := a];
      r := Success(());
    }

    /** Whether an action can be taken up by a scheduler that looks for the given status. */
    predicate IsDue(a: ScheduledAction, now: Instant, status: ActionStatus)
      reads this
      ensures IsDue(a, now, status) <==> ActionDue(Contents(), a, now, status)
    {
      if a.status != status && !(a.status.Running? && (status.Pending? || status.Uncertain?) && !a.claim.Live(now))
        then false
      else if a.dueAt > now && !a.status.Running? then false
      else if !a.status.Running? && a.claim.Live(now) then false
      else !(a.kind.Renew? && (a.ref !in subs || subs[a.ref].chargingBlocked))
    }

    /** One due action of the requested status and kinds, an earliest one, without claiming it. */
    method LockDueAction(now: Instant, status: ActionStatus, kinds: seq<ActionKind>) returns (chosen: Option<string>)
      ensures match chosen
              case Some(id) => EarliestAction(Contents(), now, status, kinds, id)
              case None =>
                forall id :: id in actions ==>
                  !ActionDue(Contents(), actions[id], now, status) || !KindAllowed(kinds, actions[id].kind)
    {
      chosen := None;
      var todo := actions.Keys;
      while todo != {}
        invariant todo <= actions.Keys
        invariant chosen.None? ==> forall id :: id in actions.Keys - todo ==>
                    !ActionDue(Contents(), actions[id], now, status) || !KindAllowed(kinds, actions[id].kind)
        invariant chosen.Some? ==>
                    && chosen.value in actions && ActionDue(Contents(), actions[chosen.value], now, status)
                       && KindAllowed(kinds, actions[chosen.value].kind)
                    && forall id ::
                         id in actions.Keys - todo && ActionDue(Contents(), actions[id], now, status)
                         && KindAllowed(kinds, actions[id].kind) ==>
                         actions[chosen.value].dueAt <= actions[id].dueAt
        decreases |todo|
      {
        var id :| id in todo;
        if IsDue(actions[id], now, status) && KindAllowed(kinds, actions[id].kind) {
          if chosen.None? || actions[id].dueAt < actions[chosen.value].dueAt {
            chosen := Some(id);
          }
        }
        todo := todo - {id};
      }
    }

    method ClaimAction(id: string, token: string, now: Instant, lease: int) returns (r: Result<ScheduledAction, Error>)
      modifies `actions
      ensures AppliedTo(Model.ClaimAction(old(Contents()), id, token, now, lease), old(Contents()), r, Contents())
    {
      if id !in actions {
        return Failure(Error.NotFound);
      }
      var a := actions[id];
      if !a.status.Pending? && !a.status.Uncertain? {
        if !a.status.Running? || (a.claim.leaseUntil.Some? && a.claim.leaseUntil.value > now) {
          return Failure(NotOwned);
        }
      }
      if a.kind.Renew? {
        if a.ref !in subs || subs[a.ref].chargingBlocked {
          return Failure(ChargeBlocked);
        }
      }
      a := a.(status := ActionStatus.Running, claim := a.claim.Take(token, now + lease));
      actions := actions[id := a];
      r := Success(a);
    }

    method FinishAction(id: string, token: string, fence: int, status: ActionStatus, dueAt: Option<Instant>,
            class_: Option<string>) returns (r: Result<(), Error>)
      modifies `actions
      ensures Applied(Model.FinishAction(old(Contents()), id, token, fence, status, dueAt, class_), old(Contents()), r,
                      Contents())
    {
      if id !in actions {
        return Failure(Error.NotFound);
      }
      var a := actions[id];
      if !a.status.Running? || a.claim.token != Some(token) || a.claim.fence != fence {
        return Failure(NotOwned);
      }
      a := a.(status := status, lastError := class_);
      if dueAt.Some? {
        a := a.(dueAt := dueAt.value);
      }
      if !status.Running? {
        a := a.(claim := a.claim.Release());
      }
      actions := actions[id := a];
      r := Success(());
    }

    method ForceFinishAction(id: string, status: ActionStatus, dueAt: Option<Instant>,
            class_: Option<string>) returns (r: Result<(), Error>)
      modifies `actions
      ensures Applied(Model.ForceFinishAction(old(Contents()), id, status, dueAt, class_), old(Contents()), r,
                      Contents())
    {
      if id !in actions {
        return Failure(Error.NotFound);
      }
      var a := actions[id];
      if !a.status.Pending? && !a.status.Running? && !a.status.Uncertain? {
        return Success(());
      }
      a := a.(status := status, lastError := class_, claim := a.claim.Release());
      if dueAt.Some? {
        a := a.(dueAt := dueAt.value);
      }
      actions := actions[id := a];
      r := Success(());
    }

    method CancelActionsForSubscription(ref: string, except: Option<ActionKey>)
      modifies `actions
      ensures Contents() == CancelActions(old(Contents()), ref, except)
    {
      hide CanceledAmong;
      var todo := actions.Keys;
      ghost var before := actions;
      CanceledEnds(before, ref, except);
      while todo != {}
        invariant todo <= before.Keys && actions == CanceledAmong(before, before.Keys - todo, ref, except)
        decreases |todo|
      {
        var id :| id in todo;
        CancelOne(before, todo, id, ref, except);
        var a := actions[id];
        if a.ref == ref && except != Some(a.key) && (a.status.Pending? || a.status.Uncertain?) {
          actions := actions[id := a.(status := ActionStatus.Canceled, claim := a.claim.Release())];
        }
        todo := todo - {id};
      }
      assert before.Keys - todo == before.Keys;
    }

    // ---------- charge attempts ----------

    method InsertAttempt(t: ChargeAttempt) returns (r: Result<(), Error>)
      modifies `attempts
      ensures Applied(Model.InsertAttempt(old(Contents()), t), old(Contents()), r, Contents())
    {
      hide Model.InsertAttempt;
      InsertedUnlessClashing(Contents(), t);
      if t.id in attempts {
        return Failure(Error.Conflict);
      }
      var todo := attempts.Keys;
      while todo != {}
        invariant todo <= attempts.Keys
        invariant forall id :: id in attempts.Keys - todo ==> !Clashes(attempts[id], t)
        decreases |todo|
      {
        var id :| id in todo;
        var other := attempts[id];
        if other.request.reference == t.request.reference || other.request.idempotencyKey == t.request.idempotencyKey {
          return Failure(Error.Conflict);
        }
        if other.ref == t.ref && other.periodStart == t.periodStart && other.number == t.number {
          return Failure(Error.Conflict);
        }
        todo := todo - {id};
      }
      attempts := attempts[t.id := t];
      r := Success(());
    }

    method UpdateAttempt(t: ChargeAttempt) returns (r: Result<(), Error>)
      modifies `attempts
      ensures Applied(Model.UpdateAttempt(old(Contents()), t), old(Contents()), r, Contents())
    {
      if t.id !in attempts {
        return Failure(Error.NotFound);
      }
      attempts := attempts[t.id := t];
      r := Success(());
    }

    method GetAttemptByReference(reference: string) returns (hit: Option<string>)
      ensures Finds(attempts, HasReference(reference), hit)
    {
      var todo := attempts.Keys;
      while todo != {}
        invariant todo <= attempts.Keys
        invariant forall id :: id in attempts.Keys - todo ==> attempts[id].request.reference != reference
        decreases |todo|
      {
        var id :| id in todo;
        if attempts[id].request.reference == reference {
          return Some(id);
        }
        todo := todo - {id};
      }
      hit := None;
    }

    method GetAttemptByPayment(paymentId: string) returns (hit: Option<string>)
      ensures Finds(attempts, HasPayment(paymentId), hit)
    {
      var todo := attempts.Keys;
      while todo != {}
        invariant todo <= attempts.Keys
        invariant forall id :: id in attempts.Keys - todo ==> attempts[id].paymentId != Some(paymentId)
        decreases |todo|
      {
        var id :| id in todo;
        if attempts[id].paymentId == Some(paymentId) {
          return Some(id);
        }
        todo := todo - {id};
      }
      hit := None;
    }

    /** The attempts of an action, sorted by number. */
    method GetAttemptsForAction(actionId: string) returns (list: seq<ChargeAttempt>)
      ensures AttemptsForAction(Contents(), actionId, list)
    {
      list := [];
      var todo := attempts.Keys;
      while todo != {}
        invariant todo <= attempts.Keys
        invariant forall t :: t in list ==>
                    t.id in attempts.Keys - todo && attempts[t.id] == t && t.actionId == actionId
        invariant forall id :: id in attempts.Keys - todo && attempts[id].actionId == actionId ==> attempts[id] in list
        invariant Sorted(list)
        decreases |todo|
      {
        var id :| id in todo;
        if attempts[id].actionId == actionId {
          list := InsertByNumber(list, attempts[id]);
        }
        todo := todo - {id};
      }
    }

    method ClaimAttemptWithAction(actionId: string, attemptId: string, token: string, fence: int, now: Instant,
            lease: int, deadline: Instant)
      returns (r: Result<ChargeAttempt, Error>)
      modifies `attempts
      ensures AppliedTo(Model.ClaimAttemptWithAction(old(Contents()), actionId, attemptId, token, fence, now, lease,
                                                     deadline), old(Contents()), r, Contents())
    {
      if actionId !in actions {
        return Failure(Error.NotFound);
      }
      var a := actions[actionId];
      if !a.status.Running? || a.claim.token != Some(token) || a.claim.fence != fence {
        return Failure(NotOwned);
      }
      if attemptId !in attempts {
        return Failure(Error.NotFound);
      }
      var t := attempts[attemptId].(status := AttemptStatus.Running,
                                    claim := Claim(Some(token), fence, Some(now + lease)));
      if t.firstSubmittedAt.None? {
        t := t.(firstSubmittedAt := Some(now),
                resolutionDeadline := Some(if deadline == ZERO_TIME then now + SIX_DAYS else deadline));
      }
      attempts := attempts[attemptId := t];
      r := Success(t);
    }
  }

  /** Two attempts that must not both be stored. */
  predicate Clashes(other: ChargeAttempt, t: ChargeAttempt) {
    || other.request.reference == t.request.reference || other.request.idempotencyKey == t.request.idempotencyKey
    || (other.ref == t.ref && other.periodStart == t.periodStart && other.number == t.number)
  }

  lemma InsertedUnlessClashing(s: Store, t: ChargeAttempt)
    ensures Model.InsertAttempt(s, t) ==
            if t.id !in s.attempts && (forall id :: id in s.attempts ==> !Clashes(s.attempts[id], t))
            then Success(s.(attempts := s.attempts[t.id := t])) else Failure(Error.Conflict)
  {
  }

  predicate Sorted(list: seq<ChargeAttempt>) {
    forall i, j :: 0 <= i < j < |list| ==> list[i].number <= list[j].number && list[i].id != list[j].id
  }

  /** Puts an attempt in its place. */
  function InsertByNumber(list: seq<ChargeAttempt>, t: ChargeAttempt): (r: seq<ChargeAttempt>)
    requires Sorted(list) && forall u :: u in list ==> u.id != t.id
    ensures Sorted(r) && multiset(r) == multiset(list) + multiset{t}
    ensures forall u :: u in r <==> u in list || u == t
  {
    if list == [] || t.number < list[0].number then [t] + list else
      var rest := InsertByNumber(list[1..], t);
      InsertionOrder(list, t, rest);
      [list[0]] + rest
  }

  lemma InsertionOrder(list: seq<ChargeAttempt>, t: ChargeAttempt, rest: seq<ChargeAttempt>)
    requires list != [] && Sorted(list) && t.number >= list[0].number && (forall u :: u in list ==> u.id != t.id)
    requires Sorted(rest) && multiset(rest) == multiset(list[1..]) + multiset{t}
             && (forall u :: u in rest <==> u in list[1..] || u == t)
    ensures Sorted([list[0]] + rest) && multiset([list[0]] + rest) == multiset(list) + multiset{t}
    ensures forall u :: u in [list[0]] + rest <==> u in list || u == t
  {
    assert list == [list[0]] + list[1..];
    forall u | u in rest ensures list[0].number <= u.number && list[0].id != u.id {
      if u in list[1..] {
        var k :| 0 <= k < |list[1..]| && list[1..][k] == u;
        assert list[k + 1] == u;
      }
    }
  }
}
