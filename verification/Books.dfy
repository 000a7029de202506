/**
 * The books: subscriptions, their outbound events and their checkouts. Whatever a transaction does, it either writes
 * nothing that the consumer can see, or it moves one subscription on by one version and writes the one event about it.
 */
module Books {
  import opened Wrappers
  import opened Calendar
  import opened Protocol
  import opened Model
  import opened Transition
  import opened Engine
  import opened Bindings

  // ---------- what a step writes ----------

  /** Fields of an outbound event that delivery does not touch. */
  predicate SameEvent(a: OutboundEvent, b: OutboundEvent) {
    && a.id == b.id && a.eventType == b.eventType && a.ref == b.ref && a.checkoutId == b.checkoutId
    && a.version == b.version && a.payload == b.payload
  }

  /** Rows that look the same to the consumer. */
  predicate SameView(a: Subscription, b: Subscription) {
    && SameIdentity(a, b) && ContentOf(a) == ContentOf(b) && a.version == b.version
       && a.stateChangedAt == b.stateChangedAt
  }

  predicate SameCheckout(a: Checkout, b: Checkout) {
    a.id == b.id && a.family == b.family && a.subscriptionRef == b.subscriptionRef
  }

  datatype Written = Nothing | Event(id: string, event: EventType, next: Subscription)

  /** An Adyen subscription is billed month by month: a renewal is for the month that follows, and nothing else touches
      the period. */
  predicate Tiles(current: Subscription, event: EventType, next: Subscription) {
    next.family == Adyen ==>
      next.planId == current.planId
      && (if event == Renewed then next.periodStart == current.periodEnd
                                 && next.periodEnd == AddCalendarMonths(current.periodEnd, 1)
          else SamePeriod(current, next))
  }

  type Rows = map<string, Subscription>
  type Events = map<string, OutboundEvent>
  type Checkouts = map<string, Checkout>

  ghost predicate RowsKept(rows: Rows, rows': Rows, except: Option<string>) {
    forall ref :: ref in rows ==> ref in rows' && (except != Some(ref) ==> SameView(rows[ref], rows'[ref]))
  }

  ghost predicate EventsKept(events: Events, events': Events) {
    forall id :: id in events ==> id in events' && SameEvent(events[id], events'[id])
  }

  ghost predicate CheckoutsKept(checkouts: Checkouts, checkouts': Checkouts, except: Option<string>) {
    && (forall id :: id in checkouts ==> id in checkouts' && (except != Some(id) ==> SameCheckout(checkouts[id],
        checkouts'[id])))
    && (forall id :: id in checkouts' && id !in checkouts ==>
          checkouts'[id].id == id && checkouts'[id].subscriptionRef.None?)
  }

  /** A subscription is created for a checkout that had none. */
  ghost predicate Creates(rows: Rows, checkouts: Checkouts, checkouts': Checkouts, event: EventType, next: Subscription)
  {
    && next.ref !in rows && event == Activated && next.version == 1 && GoodRow(next)
    && (forall r :: r in rows ==> rows[r].checkoutId != next.checkoutId)
    && (next.family == Adyen ==>
          next.status == Status.Active && next.periodEnd == AddCalendarMonths(next.periodStart, 1))
    && CheckoutsKept(checkouts, checkouts', Some(next.checkoutId))
    && next.checkoutId in checkouts && checkouts[next.checkoutId].family == next.family
    && SameCheckout(checkouts[next.checkoutId].(subscriptionRef := Some(next.ref)), checkouts'[next.checkoutId])
  }

  /** A subscription moves on. */
  ghost predicate Updates(rows: Rows, checkouts: Checkouts, checkouts': Checkouts, event: EventType, next: Subscription)
  {
    && next.ref in rows && Advances(rows[next.ref], event, next, next.stateChangedAt)
       && Tiles(rows[next.ref], event, next)
    && CheckoutsKept(checkouts, checkouts', None)
  }

  ghost predicate OneEvent(events: Events, events': Events, id: string, event: EventType, next: Subscription) {
    && id !in events && EventsKept(events, events') && events'.Keys == events.Keys + {id}
    && (forall e :: e in events ==> events[e].ref != next.ref || events[e].version != next.version)
    && SameEvent(events'[id], NewEvent(id, event, next, BuildCallback(id, event, next), 0))
    && ValidateCallback(BuildCallback(id, event, next)).Success?
  }

  ghost predicate OneRow(rows: Rows, rows': Rows, next: Subscription) {
    RowsKept(rows, rows', Some(next.ref)) && rows'.Keys == rows.Keys + {next.ref} && SameView(next, rows'[next.ref])
  }

  /** An authorised charge attempt pays for the current period of a row. */
  ghost predicate Backed(attempts: map<string, ChargeAttempt>, next: Subscription) {
    exists id :: Pays(attempts, id, next)
  }

  ghost predicate Pays(attempts: map<string, ChargeAttempt>, id: string, next: Subscription) {
    && id in attempts && attempts[id].status.Authorized? && attempts[id].ref == next.ref
    && attempts[id].periodStart == next.periodStart && attempts[id].periodEnd == next.periodEnd
  }

  /** From `s` to `s'` exactly this was written for the consumer to see. */
  ghost predicate Booked(s: Store, s': Store, w: Written) {
    match w
    case Nothing =>
      && RowsKept(s.subs, s'.subs, None) && s'.subs.Keys == s.subs.Keys
      && EventsKept(s.outbound, s'.outbound) && s'.outbound.Keys == s.outbound.Keys
      && CheckoutsKept(s.checkouts, s'.checkouts, None)
    case Event(id, event, next) =>
      && OneEvent(s.outbound, s'.outbound, id, event, next) && OneRow(s.subs, s'.subs, next)
      && (event == Renewed && next.family == Adyen ==> Backed(s'.attempts, next))
      && (|| Creates(s.subs, s.checkouts, s'.checkouts, event, next)
          || Updates(s.subs, s.checkouts, s'.checkouts, event, next))
  }

  ghost predicate Balanced(s: Store, s': Store) {
    exists w :: Booked(s, s', w)
  }

  // ---------- composing ----------

  predicate SameBooks(s: Store, s': Store) {
    s'.subs == s.subs && s'.outbound == s.outbound && s'.checkouts == s.checkouts
  }

  lemma SilentSame(s: Store, s': Store)
    requires SameBooks(s, s')
    ensures Balanced(s, s')
  {
    assert Booked(s, s', Nothing);
  }

  lemma BalancedFrame(s: Store, s1: Store, s2: Store, s3: Store)
    requires SameBooks(s, s1) && Balanced(s1, s2) && SameBooks(s2, s3) && s3.attempts == s2.attempts
    ensures Balanced(s, s3)
  {
    hide RowsKept, EventsKept, CheckoutsKept, Creates, Updates, OneEvent, OneRow;
    var w :| Booked(s1, s2, w);
    assert Booked(s, s3, w);
  }

  lemma RowsKeptRow(rows: Rows, rows': Rows, except: Option<string>, row: Subscription)
    requires RowsKept(rows, rows', except) && row.ref in rows' && SameView(rows'[row.ref], row)
    ensures RowsKept(rows, rows'[row.ref := row], except)
  {
    hide ContentOf;
  }

  /** A row may be rewritten where the consumer does not look. */
  lemma BalancedRow(s: Store, s1: Store, row: Subscription)
    requires Balanced(s, s1) && row.ref in s1.subs && SameView(s1.subs[row.ref], row)
    ensures Balanced(s, s1.(subs := s1.subs[row.ref := row]))
  {
    hide RowsKept, EventsKept, CheckoutsKept, Creates, Updates, OneEvent;
    var w :| Booked(s, s1, w);
    var s' := s1.(subs := s1.subs[row.ref := row]);
    RowsKeptRow(s.subs, s1.subs, if w.Nothing? then None else Some(w.next.ref), row);
    assert s'.subs.Keys == s1.subs.Keys;
    assert Booked(s, s', w);
  }

  // ---------- the correspondence of checkouts and subscriptions ----------

  lemma KeptIdentity(rows: Rows, rows': Rows, except: Option<string>, ref: string)
    requires RowsKept(rows, rows', except) && ref in rows
    requires except.Some? && except.value in rows ==>
               except.value in rows' && SameIdentity(rows[except.value], rows'[except.value])
    ensures ref in rows' && rows'[ref].checkoutId == rows[ref].checkoutId && rows'[ref].family == rows[ref].family
  {
    hide ContentOf;
  }

  lemma KeptKeepsBound(s: Store, s': Store, except: Option<string>)
    requires Bound(s) && RowsKept(s.subs, s'.subs, except) && s'.subs.Keys == s.subs.Keys
             && CheckoutsKept(s.checkouts, s'.checkouts, None)
    requires except.Some? && except.value in s.subs ==> SameIdentity(s.subs[except.value], s'.subs[except.value])
    ensures Bound(s')
  {
    hide RowsKept, SameIdentity;
    forall ref | ref in s'.subs ensures Names(s', s'.subs[ref].checkoutId, ref) {
      KeptIdentity(s.subs, s'.subs, except, ref);
      assert Names(s, s.subs[ref].checkoutId, ref);
    }
    forall id | id in s'.checkouts && s'.checkouts[id].subscriptionRef.Some?
      ensures Carries(s', s'.checkouts[id].subscriptionRef.value, id)
    {
      assert Carries(s, s.checkouts[id].subscriptionRef.value, id);
      KeptIdentity(s.subs, s'.subs, except, s.checkouts[id].subscriptionRef.value);
    }
  }

  lemma CreateKeepsBound(s: Store, s': Store, event: EventType, next: Subscription)
    requires Bound(s) && OneRow(s.subs, s'.subs, next) && Creates(s.subs, s.checkouts, s'.checkouts, event, next)
    ensures Bound(s')
  {
    hide GoodRow, ContentOf;
    forall ref | ref in s'.subs ensures Names(s', s'.subs[ref].checkoutId, ref) {
      if ref in s.subs {
        assert Names(s, s.subs[ref].checkoutId, ref);
      }
    }
    forall id | id in s'.checkouts && s'.checkouts[id].subscriptionRef.Some?
      ensures Carries(s', s'.checkouts[id].subscriptionRef.value, id)
    {
      if id in s.checkouts && id != next.checkoutId {
        assert Carries(s, s.checkouts[id].subscriptionRef.value, id);
      }
    }
  }

  lemma BalancedKeepsBound(s: Store, s': Store)
    requires Bound(s) && Balanced(s, s')
    ensures Bound(s')
  {
    hide Bound, OneEvent, Creates, GoodRow, ContentOf, Tiles, RowsKept, CheckoutsKept, EventsKept;
    var w :| Booked(s, s', w);
    match w
    case Nothing => KeptKeepsBound(s, s', None);
    case Event(id, event, next) =>
      if Creates(s.subs, s.checkouts, s'.checkouts, event, next) {
        CreateKeepsBound(s, s', event, next);
      } else {
        assert s'.subs.Keys == s.subs.Keys;
        KeptKeepsBound(s, s', Some(next.ref));
      }
  }

  /** Once a checkout names a subscription, it names that subscription for ever. */
  lemma BindingStays(s: Store, s': Store, id: string)
    requires Bound(s) && Balanced(s, s') && id in s.checkouts && s.checkouts[id].subscriptionRef.Some?
    ensures id in s'.checkouts && s'.checkouts[id].subscriptionRef == s.checkouts[id].subscriptionRef
  {
    hide GoodRow, Tiles, ContentOf, OneEvent, OneRow, Advances, EventsKept, RowsKept;
    var w :| Booked(s, s', w);
    assert Carries(s, s.checkouts[id].subscriptionRef.value, id);
  }
}
