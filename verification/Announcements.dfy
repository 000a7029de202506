/** When a change can be announced to the consumer, and so committed. */
module Announcements {
  import opened Wrappers
  import opened Calendar
  import opened Protocol
  import opened Model
  import opened Transition
  import opened Engine
  import opened Ledger
  import T = Timestamps

  /** What a callback needs of a row beyond its bookkeeping: a plan, and times that have a canonical text. */
  predicate Presentable(sub: Subscription) {
    && ValidPlanId(sub.planId)
    && T.FourDigitYear(sub.periodStart) && T.FourDigitYear(sub.periodEnd) && T.FourDigitYear(sub.stateChangedAt)
  }

  predicate Addressable(sub: Subscription) {
    ValidOpaqueId(sub.checkoutId, CHECKOUT_PREFIX) && ValidOpaqueId(sub.ref, SUBSCRIPTION_PREFIX)
  }

  lemma PrintedTime(t: Instant)
    ensures ParseTime(T.FormatUTC(t)) == if T.FourDigitYear(t) then Success(t) else Failure(InvalidTimestamp)
  {
    hide T.FormatUTC, T.ParseUTC, T.FourDigitYear;
    match T.ParseUTC(T.FormatUTC(t)) {
      case Success(u) =>
        T.CanonicalTimestamps(T.FormatUTC(t), u);
        T.FormatInjective(t, u);
      case Failure(_) => T.CanonicalTimestamps(T.FormatUTC(t), t);
    }
  }

  /** A callback is valid if and only if its event and its subscription have proper names, the row is presentable, its
      period is in order, and the event fits the status. */
  lemma CallbackValid(id: string, event: EventType, sub: Subscription)
    ensures ValidateCallback(BuildCallback(id, event, sub)).Success? <==>
            && ValidOpaqueId(id, EVENT_PREFIX) && Addressable(sub) && Presentable(sub) && sub.version >= 1
               && sub.periodStart < sub.periodEnd
            && ValidateEventStatus(event, sub.status, sub.cancelAtPeriodEnd).None?
  {
    hide T.FormatUTC, T.ParseUTC, T.FourDigitYear, ValidOpaqueId, ValidPlanId, ParseTime, ValidateEventStatus;
    PrintedTime(sub.periodStart);
    PrintedTime(sub.periodEnd);
    PrintedTime(sub.stateChangedAt);
  }

  /** No stored event has this identifier, and none is about this version of this subscription. */
  ghost predicate NewToOutbox(s: Store, id: string, ref: string, version: int) {
    id !in s.outbound && forall other :: other in s.outbound ==>
      s.outbound[other].ref != ref || s.outbound[other].version != version
  }

  lemma InsertsExactly(s: Store, e: OutboundEvent)
    ensures InsertOutbound(s, e).Success? <==> NewToOutbox(s, e.id, e.ref, e.version)
  {
  }

  lemma WritesExactly(s: Store, sub: Subscription)
    ensures var r := InsertSubscription(s, sub);
            && (r.Success? <==>
                  sub.ref !in s.subs && forall ref :: ref in s.subs ==> s.subs[ref].checkoutId != sub.checkoutId)
            && (r.Success? ==> r.value.outbound == s.outbound)
    ensures var r := UpdateSubscription(s, sub);
            (r.Success? <==> sub.ref in s.subs) && (r.Success? ==> r.value.outbound == s.outbound)
  {
  }

  /** A change is committed if and only if its callback is valid, its event is new, and its row exists, or, when it is
      to be created, neither its reference nor its checkout has a subscription. */
  lemma CommitsExactly(s: Store, created: bool, next: Subscription, event: EventType, ids: Ids, now: Instant)
    ensures CommitChange(s, created, next, event, ids, now).Success? <==>
            && ValidateCallback(BuildCallback(ids.event, event, next)).Success?
               && NewToOutbox(s, ids.event, next.ref, next.version)
            && if created
               then next.ref !in s.subs && (forall r :: r in s.subs ==> s.subs[r].checkoutId != next.checkoutId)
               else next.ref in s.subs
  {
    hide FollowUp, BuildCallback, ValidateCallback, InsertOutbound, InsertSubscription, UpdateSubscription, NewToOutbox;
    WritesExactly(s, next);
    var e := NewEvent(ids.event, event, next, BuildCallback(ids.event, event, next), now);
    var r := if created then InsertSubscription(s, next) else UpdateSubscription(s, next);
    if r.Success? {
      InsertsExactly(r.value, e);
      SameOutbox(s, r.value, ids.event, next.ref, next.version);
    }
  }

  lemma SameOutbox(s: Store, s1: Store, id: string, ref: string, version: int)
    requires s1.outbound == s.outbound
    ensures NewToOutbox(s1, id, ref, version) <==> NewToOutbox(s, id, ref, version)
  {
  }

  /** Every stored subscription has been announced before, so its names are proper. */
  lemma StoredAddressable(s: Store, ref: string)
    requires LedgerInv(s) && ref in s.subs && s.subs[ref].ref == ref && s.subs[ref].version >= 1
    ensures Addressable(s.subs[ref])
  {
    hide Unique, UpToDate, Story, ParseTime, ValidOpaqueId, ValidPlanId;
    assert HasVersion(s, ref, s.subs[ref].version);
    var id :| IsVersion(s, ref, s.subs[ref].version, id);
    assert GoodEvent(s, id);
  }

  /** A change decided on a stored row is committed if and only if the row it leads to is presentable and the event
      identifier is proper and new. */
  lemma DecisionCommits(s: Store, ref: string, obs: Observation, now: Instant, ids: Ids, txNow: Instant)
    requires hide *; LedgerInv(s) && ref in s.subs && s.subs[ref].ref == ref && GoodRow(s.subs[ref])
    requires Decide(s.subs[ref], obs, now).Success? && Decide(s.subs[ref], obs, now).value.Change?
    ensures var d := Decide(s.subs[ref], obs, now).value;
            Commit(s, d, ids, txNow).Success?
            <==> ValidOpaqueId(ids.event, EVENT_PREFIX) && ids.event !in s.outbound && Presentable(d.next)
  {
    hide Decide, LedgerInv, Presentable, ValidOpaqueId, ValidateCallback, BuildCallback;
    var d := Decide(s.subs[ref], obs, now).value;
    DecideAdvances(s.subs[ref], obs, now);
    StoredAddressable(s, ref);
    NewVersion(s, ref, d.next.version);
    CallbackValid(ids.event, d.event, d.next);
    AdvancedStatus(s.subs[ref], d.event, d.next, now);
    CommitsExactly(s, false, d.next, d.event, ids, txNow);
  }

  lemma NewVersion(s: Store, ref: string, version: int)
    requires LedgerInv(s) && ref in s.subs && version > s.subs[ref].version
    ensures forall id :: id in s.outbound ==> s.outbound[id].ref != ref || s.outbound[id].version != version
  {
    hide Complete, Unique, UpToDate, Story, ValidateCallback;
    forall id | id in s.outbound ensures s.outbound[id].ref != ref || s.outbound[id].version != version {
      assert GoodEvent(s, id);
    }
  }

  lemma AdvancedStatus(sub: Subscription, event: EventType, next: Subscription, now: Instant)
    requires Advances(sub, event, next, now)
    ensures ValidateEventStatus(event, next.status, next.cancelAtPeriodEnd).None? && next.ref == sub.ref
            && next.version == sub.version + 1 && next.periodStart < next.periodEnd && next.checkoutId == sub.checkoutId
               && next.version >= 1
  {
  }
}
