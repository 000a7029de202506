/** The outbox always tells the whole story of every subscription, up to its present state. */
module Ledger {
  import opened Wrappers
  import opened Calendar
  import opened Protocol
  import opened Model
  import opened Transition
  import opened Engine
  import opened Books
  import T = Timestamps

  // ---------- the outbox ----------

  /** An event stands under its identifier, is about a stored subscription and carries a valid callback about it. */
  ghost predicate GoodEvent(s: Store, id: string)
    requires id in s.outbound
  {
    var e := s.outbound[id];
    && e.id == id && e.ref in s.subs && 1 <= e.version <= s.subs[e.ref].version
    && e.payload.eventId == id && e.payload.eventType == e.eventType && e.payload.subscriptionRef == e.ref
    && e.payload.stateVersion == e.version && e.payload.checkoutId == e.checkoutId == s.subs[e.ref].checkoutId
    && ValidateCallback(e.payload).Success?
  }

  ghost predicate GoodOutbox(s: Store) {
    forall id :: id in s.outbound ==> GoodEvent(s, id)
  }

  /** Every version of every subscription has its event ... */
  ghost predicate Complete(s: Store) {
    forall ref, v :: ref in s.subs && 1 <= v <= s.subs[ref].version ==> HasVersion(s, ref, v)
  }

  ghost predicate HasVersion(s: Store, ref: string, v: int) {
    exists id :: IsVersion(s, ref, v, id)
  }

  ghost predicate IsVersion(s: Store, ref: string, v: int, id: string) {
    id in s.outbound && s.outbound[id].ref == ref && s.outbound[id].version == v
  }

  /** ... and only one. */
  ghost predicate Unique(s: Store) {
    forall ref, v, i, j :: IsVersion(s, ref, v, i) && IsVersion(s, ref, v, j) ==> i == j
  }

  /** The latest event tells what the reconciliation endpoint would answer. */
  ghost predicate UpToDate(s: Store) {
    forall ref, id :: ref in s.subs && IsVersion(s, ref, s.subs[ref].version, id) ==>
      SnapshotFromCallback(s.outbound[id].payload) == SnapshotOf(s.subs[ref])
  }

  /** The callback of the first version. */
  ghost predicate Opens(family: Family, c: Callback) {
    c.eventType == Activated && (family == Adyen ==> exists t :: IsMonth(c, t))
  }

  /** The callback speaks of the month that starts at `t`. */
  ghost predicate IsMonth(c: Callback, t: Instant) {
    c.periodStart == T.FormatUTC(t) && c.periodEnd == T.FormatUTC(AddCalendarMonths(t, 1))
  }

  /** One callback after another: the event may follow, the content differs, and Adyen periods tile. */
  ghost predicate Follows(family: Family, a: Callback, b: Callback) {
    && MayFollow(a.status, b.eventType) && b.status == StatusAfter(b.eventType) && a.checkoutId == b.checkoutId
    && (a.planId != b.planId || a.status != b.status || a.periodStart != b.periodStart || a.periodEnd != b.periodEnd)
    && (family == Adyen ==>
          a.planId == b.planId
          && if b.eventType == Renewed then exists t :: a.periodEnd == T.FormatUTC(t) && IsMonth(b, t)
             else a.periodStart == b.periodStart && a.periodEnd == b.periodEnd)
  }

  ghost predicate Story(s: Store) {
    && (forall ref,
        id :: ref in s.subs && IsVersion(s, ref, 1, id) ==> Opens(s.subs[ref].family, s.outbound[id].payload))
    && (forall ref, v, w, i, j :: ref in s.subs && w == v + 1 && IsVersion(s, ref, v, i) && IsVersion(s, ref, w, j) ==>
          Follows(s.subs[ref].family, s.outbound[i].payload, s.outbound[j].payload))
  }

  ghost predicate LedgerInv(s: Store) {
    GoodOutbox(s) && Complete(s) && Unique(s) && UpToDate(s) && Story(s)
  }

  // ---------- nothing visible is written ----------

  lemma KeptVersion(s: Store, s': Store, ref: string, v: int, id: string)
    requires Booked(s, s', Nothing)
    ensures IsVersion(s', ref, v, id) <==> IsVersion(s, ref, v, id)
    ensures id in s.outbound ==> id in s'.outbound && SameEvent(s.outbound[id], s'.outbound[id])
  {
    hide SameView, SameCheckout;
  }

  lemma KeptRow(s: Store, s': Store, ref: string)
    requires Booked(s, s', Nothing)
    ensures ref in s.subs <==> ref in s'.subs
    ensures ref in s.subs ==> SameView(s.subs[ref], s'.subs[ref])
  {
    hide SameView, SameCheckout, SameEvent;
  }

  lemma KeptSnapshot(a: Subscription, b: Subscription)
    requires SameView(a, b)
    ensures SnapshotOf(a) == SnapshotOf(b) && a.version == b.version && a.family == b.family
            && a.checkoutId == b.checkoutId
  {
    hide T.FormatUTC;
  }

  lemma SilentKeepsOutbox(s: Store, s': Store)
    requires GoodOutbox(s) && Booked(s, s', Nothing)
    ensures GoodOutbox(s')
  {
    hide Booked, SameView, ValidateCallback, SnapshotOf;
    forall id | id in s'.outbound ensures GoodEvent(s', id) {
      var e := s'.outbound[id];
      KeptVersion(s, s', e.ref, e.version, id);
      assert GoodEvent(s, id);
      KeptRow(s, s', e.ref);
      KeptSnapshot(s.subs[e.ref], s'.subs[e.ref]);
    }
  }

  lemma SilentKeepsVersions(s: Store, s': Store)
    requires Complete(s) && Unique(s) && Booked(s, s', Nothing)
    ensures Complete(s') && Unique(s')
  {
    hide Booked, SameView, SameEvent, IsVersion, SnapshotOf;
    forall ref, v | ref in s'.subs && 1 <= v <= s'.subs[ref].version ensures HasVersion(s', ref, v) {
      KeptRow(s, s', ref);
      KeptSnapshot(s.subs[ref], s'.subs[ref]);
      assert HasVersion(s, ref, v);
      var id :| IsVersion(s, ref, v, id);
      KeptVersion(s, s', ref, v, id);
    }
    forall ref, v, i, j | IsVersion(s', ref, v, i) && IsVersion(s', ref, v, j) ensures i == j {
      KeptVersion(s, s', ref, v, i);
      KeptVersion(s, s', ref, v, j);
    }
  }

  lemma SilentKeepsStory(s: Store, s': Store)
    requires UpToDate(s) && Story(s) && Booked(s, s', Nothing)
    ensures UpToDate(s') && Story(s')
  {
    hide Booked, SameView, Opens, Follows, SnapshotOf;
    forall ref, v, id | ref in s'.subs && IsVersion(s', ref, v, id)
      ensures ref in s.subs && IsVersion(s, ref, v, id) && s.outbound[id].payload == s'.outbound[id].payload
              && s.subs[ref].family == s'.subs[ref].family && s.subs[ref].version == s'.subs[ref].version
                 && SnapshotOf(s.subs[ref]) == SnapshotOf(s'.subs[ref])
    {
      KeptVersion(s, s', ref, v, id);
      KeptRow(s, s', ref);
      KeptSnapshot(s.subs[ref], s'.subs[ref]);
    }
  }

  // ---------- an event is written ----------

  /** The callback about the next state follows any callback that told the current one. */
  lemma FollowsCurrent(current: Subscription, event: EventType, next: Subscription, a: Callback, id: string)
    requires GoodRow(current) && Advances(current, event, next, next.stateChangedAt) && Tiles(current, event, next)
    requires SnapshotFromCallback(a) == SnapshotOf(current)
    ensures Follows(next.family, a, BuildCallback(id, event, next))
  {
    hide T.FormatUTC, AddCalendarMonths;
    var b := BuildCallback(id, event, next);
    if a.periodStart == b.periodStart { T.FormatInjective(current.periodStart, next.periodStart); }
    if a.periodEnd == b.periodEnd { T.FormatInjective(current.periodEnd, next.periodEnd); }
    if event == Renewed && next.family == Adyen {
      assert a.periodEnd == T.FormatUTC(current.periodEnd) && IsMonth(b, current.periodEnd);
    }
  }

  lemma OpensCreated(event: EventType, next: Subscription, id: string)
    requires event == Activated && (next.family == Adyen ==> next.periodEnd == AddCalendarMonths(next.periodStart, 1))
    ensures Opens(next.family, BuildCallback(id, event, next))
  {
    hide T.FormatUTC, AddCalendarMonths;
    assert next.family == Adyen ==> IsMonth(BuildCallback(id, event, next), next.periodStart);
  }

  /** How versions are numbered after an event was written. */
  lemma WrittenVersion(s: Store, s': Store, id: string, event: EventType, next: Subscription, ref: string, v: int,
          e: string)
    requires OneEvent(s.outbound, s'.outbound, id, event, next)
    ensures IsVersion(s', ref, v, e) <==> IsVersion(s, ref, v, e) || (e == id && ref == next.ref && v == next.version)
    ensures IsVersion(s, ref, v, e) ==>
              e != id && SameEvent(s.outbound[e], s'.outbound[e]) && (ref != next.ref || v != next.version)
    ensures id in s'.outbound
            && SameEvent(s'.outbound[id], NewEvent(id, event, next, BuildCallback(id, event, next), 0))
  {
    hide ValidateCallback, BuildCallback;
  }

  lemma WrittenRow(s: Store, s': Store, next: Subscription, ref: string)
    requires OneRow(s.subs, s'.subs, next)
    ensures ref in s'.subs <==> ref in s.subs || ref == next.ref
    ensures ref in s'.subs ==> SameView(if ref == next.ref then next else s.subs[ref], s'.subs[ref])
  {
    hide SameView;
  }

  /** The version that is written is the next one. */
  ghost predicate NextVersion(s: Store, event: EventType, next: Subscription) {
    && next.version == (if next.ref in s.subs then s.subs[next.ref].version + 1 else 1) && next.version >= 1
    && (next.ref in s.subs ==>
                  s.subs[next.ref].family == next.family && s.subs[next.ref].checkoutId == next.checkoutId
                  && s.subs[next.ref].version >= 1)
  }

  lemma WrittenNext(s: Store, s': Store, event: EventType, next: Subscription)
    requires forall ref :: ref in s.subs ==> GoodRow(s.subs[ref])
    requires Creates(s.subs, s.checkouts, s'.checkouts, event, next)
             || Updates(s.subs, s.checkouts, s'.checkouts, event, next)
    ensures NextVersion(s, event, next)
  {
    hide CheckoutsKept, ContentOf, Tiles;
  }

  lemma EventKeepsOutbox(s: Store, s': Store, id: string, event: EventType, next: Subscription)
    requires GoodOutbox(s) && OneEvent(s.outbound, s'.outbound, id, event, next) && OneRow(s.subs, s'.subs, next)
             && NextVersion(s, event, next)
    ensures GoodOutbox(s')
  {
    hide OneEvent, OneRow, SameView, ValidateCallback, SnapshotOf;
    assert ValidateCallback(BuildCallback(id, event, next)).Success? by { WrittenValid(s, s', id, event, next); }
    forall e | e in s'.outbound ensures GoodEvent(s', e) {
      var row := s'.outbound[e];
      WrittenVersion(s, s', id, event, next, row.ref, row.version, e);
      assert IsVersion(s', row.ref, row.version, e);
      assert e in s.outbound ==> GoodEvent(s, e);
      WrittenRow(s, s', next, row.ref);
      KeptSnapshot(if row.ref == next.ref then next else s.subs[row.ref], s'.subs[row.ref]);
    }
  }

  lemma WrittenValid(s: Store, s': Store, id: string, event: EventType, next: Subscription)
    requires OneEvent(s.outbound, s'.outbound, id, event, next)
    ensures ValidateCallback(BuildCallback(id, event, next)).Success?
  {
    hide ValidateCallback, BuildCallback;
  }

  lemma EventKeepsVersions(s: Store, s': Store, id: string, event: EventType, next: Subscription)
    requires Complete(s) && Unique(s) && OneEvent(s.outbound, s'.outbound, id, event, next)
             && OneRow(s.subs, s'.subs, next)
             && NextVersion(s, event, next)
    ensures Complete(s') && Unique(s')
  {
    hide OneEvent, OneRow, SameView, SameEvent, IsVersion, SnapshotOf;
    forall ref, v | ref in s'.subs && 1 <= v <= s'.subs[ref].version ensures HasVersion(s', ref, v) {
      WrittenRow(s, s', next, ref);
      KeptSnapshot(if ref == next.ref then next else s.subs[ref], s'.subs[ref]);
      WrittenVersion(s, s', id, event, next, ref, v, id);
      if ref != next.ref || v != next.version {
        assert HasVersion(s, ref, v);
        var e :| IsVersion(s, ref, v, e);
        WrittenVersion(s, s', id, event, next, ref, v, e);
      }
    }
    forall ref, v, i, j | IsVersion(s', ref, v, i) && IsVersion(s', ref, v, j) ensures i == j {
      WrittenVersion(s, s', id, event, next, ref, v, i);
      WrittenVersion(s, s', id, event, next, ref, v, j);
    }
  }

  lemma EventKeepsUpToDate(s: Store, s': Store, id: string, event: EventType, next: Subscription)
    requires GoodOutbox(s) && UpToDate(s) && OneEvent(s.outbound, s'.outbound, id, event, next)
             && OneRow(s.subs, s'.subs, next)
    requires NextVersion(s, event, next)
    ensures UpToDate(s')
  {
    hide OneEvent, OneRow, SameView, GoodOutbox;
    forall ref, e | ref in s'.subs && IsVersion(s', ref, s'.subs[ref].version, e)
      ensures SnapshotFromCallback(s'.outbound[e].payload) == SnapshotOf(s'.subs[ref])
    {
      WrittenRow(s, s', next, ref);
      KeptSnapshot(if ref == next.ref then next else s.subs[ref], s'.subs[ref]);
      WrittenVersion(s, s', id, event, next, ref, s'.subs[ref].version, e);
      hide T.FormatUTC;
    }
  }

  /** A stored event is about a version that its subscription has reached. */
  lemma VersionReached(s: Store, ref: string, v: int, id: string)
    requires GoodOutbox(s) && IsVersion(s, ref, v, id)
    ensures ref in s.subs && 1 <= v <= s.subs[ref].version
  {
    assert GoodEvent(s, id);
  }

  lemma EventKeepsOpening(s: Store, s': Store, id: string, event: EventType, next: Subscription, ref: string, e: string)
    requires GoodOutbox(s) && Story(s) && OneEvent(s.outbound, s'.outbound, id, event, next)
             && OneRow(s.subs, s'.subs, next)
             && NextVersion(s, event, next)
    requires next.ref !in s.subs ==> Opens(next.family, BuildCallback(id, event, next))
    requires ref in s'.subs && IsVersion(s', ref, 1, e)
    ensures Opens(s'.subs[ref].family, s'.outbound[e].payload)
  {
    hide OneEvent, OneRow, SameView, GoodOutbox, Opens, Follows, BuildCallback;
    WrittenRow(s, s', next, ref);
    KeptSnapshot(if ref == next.ref then next else s.subs[ref], s'.subs[ref]);
    WrittenVersion(s, s', id, event, next, ref, 1, e);
    if IsVersion(s, ref, 1, e) {
      VersionReached(s, ref, 1, e);
    }
  }

  lemma EventKeepsChain(s: Store, s': Store, id: string, event: EventType, next: Subscription, ref: string, v: int,
          i: string, j: string)
    requires GoodOutbox(s) && UpToDate(s) && Story(s) && OneEvent(s.outbound, s'.outbound, id, event, next)
             && OneRow(s.subs, s'.subs, next)
    requires NextVersion(s, event, next)
    requires next.ref in s.subs ==>
               GoodRow(s.subs[next.ref]) && Advances(s.subs[next.ref], event, next, next.stateChangedAt)
               && Tiles(s.subs[next.ref], event, next)
    requires ref in s'.subs && IsVersion(s', ref, v, i) && IsVersion(s', ref, v + 1, j)
    ensures Follows(s'.subs[ref].family, s'.outbound[i].payload, s'.outbound[j].payload)
  {
    hide OneEvent, OneRow, SameView, GoodOutbox, Opens, Follows, BuildCallback, Advances, Tiles, GoodRow, SnapshotOf,
         SnapshotFromCallback;
    WrittenRow(s, s', next, ref);
    KeptSnapshot(if ref == next.ref then next else s.subs[ref], s'.subs[ref]);
    WrittenVersion(s, s', id, event, next, ref, v, i);
    WrittenVersion(s, s', id, event, next, ref, v + 1, j);
    if IsVersion(s, ref, v, i) { VersionReached(s, ref, v, i); }
    if IsVersion(s, ref, v + 1, j) { VersionReached(s, ref, v + 1, j); }
    if IsVersion(s, ref, v, i) && !IsVersion(s, ref, v + 1, j) {
      FollowsCurrent(s.subs[ref], event, next, s.outbound[i].payload, id);
    }
  }

  lemma EventKeepsLedger(s: Store, s': Store, id: string, event: EventType, next: Subscription)
    requires hide *; LedgerInv(s) && Booked(s, s', Event(id, event, next))
             && (forall ref :: ref in s.subs ==> GoodRow(s.subs[ref]))
    ensures LedgerInv(s')
  {
    hide GoodOutbox, Complete, Unique, UpToDate, OneEvent, OneRow, GoodRow, Advances, Tiles, Opens, Follows,
         BuildCallback, CheckoutsKept, IsVersion, NextVersion, SameCheckout;
    WrittenNext(s, s', event, next);
    EventKeepsOutbox(s, s', id, event, next);
    EventKeepsVersions(s, s', id, event, next);
    EventKeepsUpToDate(s, s', id, event, next);
    if next.ref !in s.subs { OpensCreated(event, next, id); }
    forall ref, e | ref in s'.subs && IsVersion(s', ref, 1, e)
      ensures e in s'.outbound && Opens(s'.subs[ref].family, s'.outbound[e].payload)
    {
      InOutbox(s', ref, 1, e);
      EventKeepsOpening(s, s', id, event, next, ref, e);
    }
    forall ref, v, w, i, j | ref in s'.subs && w == v + 1 && IsVersion(s', ref, v, i) && IsVersion(s', ref, w, j)
      ensures i in s'.outbound && j in s'.outbound
              && Follows(s'.subs[ref].family, s'.outbound[i].payload, s'.outbound[j].payload)
    {
      InOutbox(s', ref, v, i);
      InOutbox(s', ref, w, j);
      EventKeepsChain(s, s', id, event, next, ref, v, i, j);
    }
  }

  lemma InOutbox(s: Store, ref: string, v: int, id: string)
    requires IsVersion(s, ref, v, id)
    ensures id in s.outbound
  {
  }

  lemma BalancedKeepsLedger(s: Store, s': Store)
    requires hide *; LedgerInv(s) && Balanced(s, s') && (forall ref :: ref in s.subs ==> GoodRow(s.subs[ref]))
    ensures LedgerInv(s')
  {
    hide Booked, GoodOutbox, Complete, Unique, UpToDate, Story, GoodRow;
    var w :| Booked(s, s', w);
    match w
    case Nothing =>
      SilentKeepsOutbox(s, s');
      SilentKeepsVersions(s, s');
      SilentKeepsStory(s, s');
    case Event(id, event, next) => EventKeepsLedger(s, s', id, event, next);
  }
}
