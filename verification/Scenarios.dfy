/** States that runs reach, and one webhook or one operator request at a time, what leads from one to the next. */
module Scenarios {
  import opened Wrappers
  import opened Calendar
  import opened Protocol
  import opened Model
  import opened Transition
  import opened Engine
  import opened Scheduler
  import opened System
  import opened Effects
  import opened Bindings
  import opened Books
  import opened Ledger
  import opened ChargeSafety
  import opened ChargeSteps
  import opened Announcements
  import opened Growth
  import opened StepSafety
  import opened Arrivals
  import opened Runs
  import opened Regressions
  import Payments
  import Reads
  import T = Timestamps

  // ---------- reachable states ----------

  ghost predicate EndsIn(env: Environment, states: seq<System>, steps: seq<Step>, sys: System) {
    hide *;
    Run(env, states, steps) && |states| == |steps| + 1 && states[|steps|] == sys
  }

  ghost predicate Reachable(env: Environment, sys: System) {
    exists states, steps :: EndsIn(env, states, steps, sys)
  }

  lemma ReachInit(env: Environment)
    ensures Reachable(env, INIT)
  {
    assert EndsIn(env, [INIT], [], INIT);
  }

  lemma ReachNext(env: Environment, sys: System, step: Step)
    requires Reachable(env, sys) && Enabled(env, sys, step)
    ensures hide *; Reachable(env, Next(env, sys, step))
  {
    hide Enabled, Next;
    var states, steps :| EndsIn(env, states, steps, sys);
    var states', steps' := states + [Next(env, sys, step)], steps + [step];
    forall i: nat | i < |steps'| ensures Leads(env, states', steps', i) {
      if i < |steps| {
        assert Leads(env, states, steps, i);
      }
    }
    assert EndsIn(env, states', steps', Next(env, sys, step));
  }

  lemma ReachInv(env: Environment, sys: System)
    requires Reachable(env, sys)
    ensures Inv(env, sys)
  {
    hide Run, Inv;
    var states, steps :| EndsIn(env, states, steps, sys);
    RunInv(env, states, steps, |steps|);
  }

  lemma ReachBooks(env: Environment, sys: System)
    requires Reachable(env, sys)
    ensures LedgerInv(sys.db) && Bound(sys.db) && GoodSubs(sys.db) && GoodActions(sys.db)
  {
    hide Reachable, ChargeInv, Bound, LedgerInv, WorkersAgree, Reads.ReadsInv, Payments.RenewalsPaid, Payments.SentInv,
         UniqueKeys, ClaimsRun, DeliveriesFenced, Arrived, GoodSubs, GoodActions, GoodAttempts, TruthfulAttempts,
         NotAhead;
    ReachInv(env, sys);
    Basics(env, sys.db, None);
  }

  // ---------- one subscription, nobody at work ----------

  /** One subscription, these actions, no charge and no worker; all identifiers used so far are among `used`. */
  ghost predicate Scene(env: Environment, sys: System, row: Subscription, acts: map<string, ScheduledAction>,
          used: set<string>) {
    hide *;
    && Reachable(env, sys) && sys.workers == map[] && sys.sent == []
    && sys.db.subs == map[row.ref := row] && sys.db.actions == acts && sys.db.attempts == map[]
    && (forall id :: id in sys.db.outbound ==> id in used)
    && (forall key :: key in sys.db.procEvents ==> key.id in used && sys.db.procEvents[key].actionId in used)
    && (forall key :: key in sys.db.leases ==> !sys.db.leases[key].running)
  }

  /** What the follow-up work of an event makes of the actions. */
  ghost predicate WorkAfter(acts: map<string, ScheduledAction>, event: EventType, next: Subscription, newId: string,
          acts': map<string, ScheduledAction>) {
    forall s: Store :: s.actions == acts ==> FollowUp(s, event, next, newId).actions == acts'
  }

  /** The row that an observation leads to, announced under a proper, new identifier. */
  predicate Becomes(row: Subscription, obs: Observation, now: Instant, event: EventType, next: Subscription) {
    var d := Decide(row, obs, now);
    d.Success? && d.value.Change? && d.value.event == event && d.value.next == next && Presentable(next)
  }

  /** A store with one subscription, in which a change is committed. */
  lemma ObservedScene(s: Store, row: Subscription, obs: Observation, now: Instant, ids: Ids, event: EventType,
          next: Subscription, acts': map<string, ScheduledAction>)
    requires LedgerInv(s) && GoodSubs(s) && s.subs == map[row.ref := row]
    requires Becomes(row, obs, now, event, next) && ValidOpaqueId(ids.event, EVENT_PREFIX) && ids.event !in s.outbound
    requires WorkAfter(s.actions, event, next, ids.action, acts')
    ensures hide *; var r := Observe(s, row.ref, obs, now, ids, now);
            && r.Success?
            && r.value == s.(subs := map[next.ref := next], actions := acts', outbound := r.value.outbound)
            && next.ref == row.ref && r.value.outbound.Keys == s.outbound.Keys + {ids.event}
  {
    hide LedgerInv, GoodRow, Decide, CommitChange, Presentable, ValidOpaqueId, FollowUp, BuildCallback,
         ValidateCallback, NewEvent, Followed, Spared;
    assert s.subs[row.ref] == row;
    DecisionCommits(s, row.ref, obs, now, ids, now);
    DecideAdvances(row, obs, now);
    AdvancedStatus(row, event, next, now);
    CommitEffect(s, false, next, event, ids, now);
  }

  // ---------- an operator cancels ----------

  /** Identifiers that are proper and new. */
  predicate NewIds(acts: map<string, ScheduledAction>, used: set<string>, ids: Ids) {
    && ValidOpaqueId(ids.event, EVENT_PREFIX) && ids.event !in used
    && ids.action !in acts && ids.dunning !in acts && ids.action != ids.dunning
  }

  lemma CancelScene(env: Environment, sys: System, row: Subscription, acts: map<string, ScheduledAction>,
          used: set<string>, now: Instant, ids: Ids, next: Subscription, acts': map<string, ScheduledAction>)
    requires Scene(env, sys, row, acts, used) && NewIds(acts, used, ids)
    requires Becomes(row, CANCELLATION, now, WasCanceled, next) && WorkAfter(acts, WasCanceled, next, ids.action, acts')
    ensures hide *; var step := CancelStep(row.ref, now, ids, now);
            Enabled(env, sys, step) && Scene(env, Next(env, sys, step), next, acts', used + {ids.event})
  {
    hide Reachable, Observe, LedgerInv, Bound, GoodSubs, GoodActions, Becomes, WorkAfter, ValidOpaqueId;
    ReachBooks(env, sys);
    ObservedScene(sys.db, row, CANCELLATION, now, ids, WasCanceled, next, acts');
    ReachNext(env, sys, CancelStep(row.ref, now, ids, now));
  }

  // ---------- a webhook ----------

  /** A webhook about the checkout of a subscription. */
  function About(row: Subscription, name: string): NormalizedEvent {
    NormalizedEvent(EventKey(Stripe, name), StripeSubscription, row.checkoutId, "", "", "", false, "", "")
  }

  function Arrival(name: string): ProcessorEvent {
    ProcessorEvent(EventKey(Stripe, name), name, ProcessingState.Pending, None, None, UNCLAIMED)
  }

  lemma ReceiveScene(env: Environment, sys: System, row: Subscription, name: string)
    requires Reachable(env, sys) && sys.workers == map[] && EventKey(Stripe, name) !in sys.db.procEvents
             && FreshWork(sys.db, name)
    ensures hide *; var step := ReceiveStep(0, About(row, name), name);
            && Enabled(env, sys, step) && Reachable(env, Next(env, sys, step))
            && Next(env, sys,
                    step) == System(sys.db.(procEvents := sys.db.procEvents[EventKey(Stripe, name) := Arrival(name)]),
                                              map[0 := Received(About(row, name))], sys.sent, sys.readLog, sys.tick + 1)
  {
    hide Reachable, FreshWork;
    ReachNext(env, sys, ReceiveStep(0, About(row, name), name));
  }

  /** The claim under which the processing of an event starts. */
  function FirstClaim(s: Store, key: string, now: Instant): Claim {
    (if key in s.leases then s.leases[key].claim else UNCLAIMED).Take("t", now + 120)
  }

  function LeasedStore(s: Store, key: string, name: string, now: Instant): Store {
    s.(leases := s.leases[key := ProcessingLease(key, true, Some(name), FirstClaim(s, key, now))],
       procEvents := s.procEvents[EventKey(Stripe, name) := Arrival(name).(state := ProcessingState.Running,
           claim := FirstClaim(s, key, now))])
  }

  lemma ClaimedScene(s: Store, name: string, key: string, now: Instant)
    requires EventKey(Stripe, name) in s.procEvents && s.procEvents[EventKey(Stripe, name)] == Arrival(name)
    requires key in s.leases ==> !s.leases[key].running
    ensures ClaimProcessorEvent(s, EventKey(Stripe, name), key, "t", now, 120) ==
            Success((LeasedStore(s, key, name, now), ProcessingLease(key, true, Some(name), FirstClaim(s, key, now))))
  {
  }

  lemma LeaseScene(env: Environment, sys: System, row: Subscription, name: string, now: Instant)
    requires hide *; Reachable(env, sys) && sys.workers == map[0 := Received(About(row, name))] && row.checkoutId != ""
    requires EventKey(Stripe, name) in sys.db.procEvents && sys.db.procEvents[EventKey(Stripe, name)] == Arrival(name)
    requires row.checkoutId in sys.db.leases ==> !sys.db.leases[row.checkoutId].running
    ensures var step := LeaseStep(0, "t", now);
            && Enabled(env, sys, step) && Reachable(env, Next(env, sys, step))
            && var lease := EventLease("t", FirstClaim(sys.db, row.checkoutId, now).fence);
               Next(env, sys, step) == System(LeasedStore(sys.db, row.checkoutId, name, now),
                                              map[0 := Leased(About(row, name), lease)], sys.sent, sys.readLog,
                                                  sys.tick + 1)
  {
    hide Reachable, ClaimProcessorEvent, LeasedStore, FirstClaim;
    ClaimedScene(sys.db, name, row.checkoutId, now);
    ReachNext(env, sys, LeaseStep(0, "t", now));
  }

  lemma FetchScene(env: Environment, sys: System, row: Subscription, name: string, lease: EventLease,
          state: SubscriptionState)
    requires Reachable(env, sys) && sys.workers == map[0 := Leased(About(row, name), lease)]
    ensures hide *; var step := FetchStep(0, Some(state));
            && Enabled(env, sys, step) && Reachable(env, Next(env, sys, step))
            && Next(env, sys, step) == System(sys.db, map[0 := Fetched(About(row, name), lease, Some(state), sys.tick)],
                                              sys.sent, sys.readLog, sys.tick + 1)
  {
    hide Reachable;
    ReachNext(env, sys, FetchStep(0, Some(state)));
  }

  /** What the processor reports about a subscription that goes on, with no plan and no subscription named. */
  function Reports(start: Instant, end: Instant): SubscriptionState {
    SubscriptionState(Status.Active, "", start, end, false, "", "", false, false)
  }

  function HitsOf(row: Subscription): Hits {
    Hits(None, Some(row.ref), None, None, None)
  }

  lemma HitsScene(s: Store, row: Subscription, name: string, state: SubscriptionState)
    requires s.subs == map[row.ref := row] && s.attempts == map[] && row.family == Stripe && row.processorSubId.None?
             && state.subId == ""
    ensures HitsAgree(s, About(row, name), Some(state), HitsOf(row))
  {
  }

  function Seen(state: SubscriptionState): Observation {
    Observation(None, state.status, "", state.periodStart, state.periodEnd, state.cancelAtPeriodEnd,
                state.immediateCancel || state.deleted)
  }

  lemma AppliedScene(s: Store, cfg: Config, row: Subscription, name: string, state: SubscriptionState, now: Instant,
          ids: Ids)
    requires s.subs == map[row.ref := row] && row.checkoutId != "" && state.subId == "" && state.priceId == ""
    requires Observe(s, row.ref, Seen(state), now, ids, now).Success?
    ensures hide *; ApplyObservation(s, cfg, About(row, name), Some(state), HitsOf(row), now, ids, now)
            == Success((Observe(s, row.ref, Seen(state), now, ids, now).value, Some(row.ref)))
  {
    hide Decide, Commit;
  }

  /** A worker has fetched what it needs and holds the only running lease. */
  ghost predicate Fetching(env: Environment, sys: System, row: Subscription, acts: map<string, ScheduledAction>,
          used: set<string>, name: string, lease: EventLease, state: SubscriptionState, tick: nat) {
    hide *;
    && Reachable(env, sys) && sys.workers == map[0 := Fetched(About(row, name), lease, Some(state), tick)]
       && sys.sent == []
    && sys.db.subs == map[row.ref := row] && sys.db.actions == acts && sys.db.attempts == map[]
    && (forall id :: id in sys.db.outbound ==> id in used)
    && (forall key :: key in sys.db.procEvents ==> key.id in used && sys.db.procEvents[key].actionId in used)
    && row.checkoutId != "" && StillOwned(sys.db, About(row, name), lease)
       && HoldsLease(sys.db, About(row, name), lease)
    && (forall key :: key in sys.db.leases && key != row.checkoutId ==> !sys.db.leases[key].running)
  }

  lemma ClosedScene(s: Store, row: Subscription, name: string, lease: EventLease, now: Instant, used: set<string>)
    requires row.checkoutId != "" && StillOwned(s, About(row, name), lease) && HoldsLease(s, About(row, name), lease)
    requires forall key :: key in s.leases && key != row.checkoutId ==> !s.leases[key].running
    requires forall key :: key in s.procEvents ==> key.id in used && s.procEvents[key].actionId in used
    ensures var r := CloseEvent(s, About(row, name), lease, Processed, Some(row.ref), now);
            && r.Success? && r.value == s.(procEvents := r.value.procEvents, leases := r.value.leases)
            && (forall key :: key in r.value.leases ==> !r.value.leases[key].running)
            && (forall key :: key in r.value.procEvents ==> key.id in used && r.value.procEvents[key].actionId in used)
  {
  }

  lemma CommittedScene(s: Store, cfg: Config, row: Subscription, name: string, lease: EventLease,
          state: SubscriptionState, used: set<string>, now: Instant, ids: Ids, event: EventType, next: Subscription,
          acts': map<string, ScheduledAction>)
    requires hide *;
             LedgerInv(s) && GoodSubs(s) && s.subs == map[row.ref := row] && row.checkoutId != "" && state.subId == ""
             && state.priceId == ""
    requires StillOwned(s, About(row, name), lease) && HoldsLease(s, About(row, name), lease)
    requires forall key :: key in s.leases && key != row.checkoutId ==> !s.leases[key].running
    requires forall key :: key in s.procEvents ==> key.id in used && s.procEvents[key].actionId in used
    requires Becomes(row, Seen(state), now, event, next) && ValidOpaqueId(ids.event, EVENT_PREFIX)
             && ids.event !in s.outbound
    requires WorkAfter(s.actions, event, next, ids.action, acts')
    ensures var r := CommitEvent(s, cfg, About(row, name), lease, Some(state), HitsOf(row), now, ids, now);
            && r.Success? && r.value.subs == map[next.ref := next] && r.value.actions == acts'
               && r.value.attempts == s.attempts
            && r.value.outbound.Keys == s.outbound.Keys + {ids.event}
            && (forall key :: key in r.value.leases ==> !r.value.leases[key].running)
            && (forall key :: key in r.value.procEvents ==> key.id in used && r.value.procEvents[key].actionId in used)
  {
    hide LedgerInv, GoodSubs, Observe, CloseEvent, ApplyObservation, Becomes, WorkAfter, ValidOpaqueId;
    ObservedScene(s, row, Seen(state), now, ids, event, next, acts');
    AppliedScene(s, cfg, row, name, state, now, ids);
    var s1 := Observe(s, row.ref, Seen(state), now, ids, now).value;
    SameHold(s, s1, About(row, name), lease);
    ClosedScene(s1, row, name, lease, now, used);
  }

  lemma CommitScene(env: Environment, sys: System, row: Subscription, acts: map<string, ScheduledAction>,
          used: set<string>, name: string, lease: EventLease, state: SubscriptionState, tick: nat, now: Instant,
          ids: Ids, event: EventType, next: Subscription, acts': map<string, ScheduledAction>)
    requires Fetching(env, sys, row, acts, used, name, lease, state, tick) && NewIds(acts, used, ids) && SaneClock(now)
    requires row.family == Stripe && row.processorSubId.None? && state.subId == "" && state.priceId == ""
    requires Becomes(row, Seen(state), now, event, next) && WorkAfter(acts, event, next, ids.action, acts')
    ensures hide *; var step := CommitEventStep(0, HitsOf(row), now, ids, now);
            Enabled(env, sys, step) && Scene(env, Next(env, sys, step), next, acts', used + {ids.event})
  {
    hide Reachable, CommitEvent, LedgerInv, GoodSubs, GoodActions, StillOwned, HoldsLease, Becomes, WorkAfter,
         ValidOpaqueId, HitsAgree;
    ReachBooks(env, sys);
    HitsScene(sys.db, row, name, state);
    CommittedScene(sys.db, env.cfg, row, name, lease, state, used, now, ids, event, next, acts');
    assert OwnCheckout(sys.db, About(row, name)) by { OwnScene(sys.db, row, name); }
    ReachNext(env, sys, CommitEventStep(0, HitsOf(row), now, ids, now));
  }

  lemma OwnScene(s: Store, row: Subscription, name: string)
    requires Bound(s) && s.subs == map[row.ref := row] && row.family == Stripe
    ensures OwnCheckout(s, About(row, name))
  {
    assert row.ref in s.subs && s.subs[row.ref] == row;
    assert Names(s, row.checkoutId, row.ref);
  }

  lemma CheckoutNamed(s: Store, row: Subscription)
    requires LedgerInv(s) && GoodSubs(s) && s.subs == map[row.ref := row]
    ensures row.checkoutId != ""
  {
    hide LedgerInv;
    assert row.ref in s.subs && s.subs[row.ref] == row;
    StoredAddressable(s, row.ref);
  }

  /** One webhook, from its arrival to its commit; also the state before the commit, and the commit. */
  lemma WebhookScene(env: Environment, sys: System, row: Subscription, acts: map<string, ScheduledAction>,
          used: set<string>, name: string, state: SubscriptionState, now: Instant, ids: Ids, event: EventType,
          next: Subscription, acts': map<string, ScheduledAction>)
    returns (before: System, step: Step)
    requires Scene(env, sys, row, acts, used) && name !in used && NewIds(acts, used + {name}, ids) && SaneClock(now)
    requires row.family == Stripe && row.processorSubId.None? && state.subId == "" && state.priceId == ""
    requires Becomes(row, Seen(state), now, event, next) && WorkAfter(acts, event, next, ids.action, acts')
    ensures hide *; Reachable(env, before) && before.db.subs == map[row.ref := row] && Enabled(env, before, step)
    ensures Scene(env, Next(env, before, step), next, acts', used + {name, ids.event})
  {
    hide Reachable, Enabled, Next, LedgerInv, Bound, GoodSubs, GoodActions, Becomes, WorkAfter, ValidOpaqueId,
         LeasedStore;
    ReachBooks(env, sys);
    CheckoutNamed(sys.db, row);
    ReceiveScene(env, sys, row, name);
    var sys1 := Next(env, sys, ReceiveStep(0, About(row, name), name));
    LeaseScene(env, sys1, row, name, now);
    var sys2 := Next(env, sys1, LeaseStep(0, "t", now));
    var lease := EventLease("t", FirstClaim(sys1.db, row.checkoutId, now).fence);
    FetchScene(env, sys2, row, name, lease, state);
    var sys3 := Next(env, sys2, FetchStep(0, Some(state)));
    LeasedHolds(sys1.db, row, name, now);
    assert Fetching(env, sys3, row, acts, used + {name}, name, lease, state, sys2.tick) by {
      LeasedOthers(sys1.db, row.checkoutId, name, now);
    }
    CommitScene(env, sys3, row, acts, used + {name}, name, lease, state, sys2.tick, now, ids, event, next, acts');
    before, step := sys3, CommitEventStep(0, HitsOf(row), now, ids, now);
    assert used + {name} + {ids.event} == used + {name, ids.event};
  }

  lemma LeasedHolds(s: Store, row: Subscription, name: string, now: Instant)
    requires row.checkoutId != ""
    ensures var s', lease := LeasedStore(s, row.checkoutId, name, now),
            EventLease("t", FirstClaim(s, row.checkoutId, now).fence);
            StillOwned(s', About(row, name), lease) && HoldsLease(s', About(row, name), lease)
  {
  }

  lemma LeasedOthers(s: Store, key: string, name: string, now: Instant)
    ensures var s' := LeasedStore(s, key, name, now);
            && s' == s.(leases := s'.leases, procEvents := s'.procEvents)
            && (forall other :: other in s'.leases && other != key ==>
                  other in s.leases && s'.leases[other] == s.leases[other])
            && (forall e :: e in s'.procEvents ==>
                  if e == EventKey(Stripe, name) then s'.procEvents[e].actionId == name
                  else e in s.procEvents && s'.procEvents[e] == s.procEvents[e])
  {
  }

  // ---------- the first activation ----------

  /** The row of a new checkout that is activated at the given time. */
  function FirstRow(c: Checkout, ref: string, now: Instant): Subscription {
    FirstActivation(c, ref, Status.Active, now, AddCalendarMonths(now, 1), now, None, None, None, c.shopperRef)
  }

  function Opened(c: Checkout): Checkout {
    c.(status := Creating, subscriptionRef := None, processorCheckoutId := None)
  }

  lemma OpenedScene(env: Environment, c: Checkout)
    ensures hide *; var step := StartCheckoutStep(c);
            && Enabled(env, INIT, step) && Reachable(env, Next(env, INIT, step))
            && Next(env, INIT, step) == System(EMPTY.(checkouts := map[c.id := Opened(c)]), map[], [], [], 1)
  {
    hide Reachable;
    ReachInit(env);
    ReachNext(env, INIT, StartCheckoutStep(c));
  }

  lemma CreatedScene(s: Store, c: Checkout, now: Instant, ids: Ids, acts': map<string, ScheduledAction>)
    requires s == EMPTY.(checkouts := map[c.id := Opened(c)]) && Addressable(FirstRow(c, ids.subscription, now))
    requires ValidOpaqueId(ids.event, EVENT_PREFIX) && Presentable(FirstRow(c, ids.subscription, now))
    requires WorkAfter(map[], Activated, FirstRow(c, ids.subscription, now), ids.action, acts')
    ensures var row, r := FirstRow(c, ids.subscription, now), ActivateCheckout(s, c.id, now, ids, now);
            && r.Success? && r.value.subs == map[row.ref := row] && r.value.actions == acts'
               && r.value.attempts == map[]
            && r.value.procEvents == map[] && r.value.leases == map[] && r.value.outbound.Keys == {ids.event}
  {
    hide CommitChange, FollowUp, BuildCallback, ValidateCallback, NewEvent, Followed, Spared, AddCalendarMonths,
         Addressable, Presentable, ValidOpaqueId;
    var row := FirstRow(c, ids.subscription, now);
    OneMonth(now);
    CallbackValid(ids.event, Activated, row);
    CommitsExactly(s, true, row, Activated, ids, now);
    CommitEffect(s, true, row, Activated, ids, now);
  }

  lemma ActivateScene(env: Environment, c: Checkout, now: Instant, ids: Ids, acts': map<string, ScheduledAction>)
    returns (sys: System)
    requires SaneClock(now) && Addressable(FirstRow(c, ids.subscription, now))
             && Presentable(FirstRow(c, ids.subscription, now))
    requires NewIds(map[], {}, ids)
             && WorkAfter(map[], Activated, FirstRow(c, ids.subscription, now), ids.action, acts')
    ensures Scene(env, sys, FirstRow(c, ids.subscription, now), acts', {ids.event})
  {
    hide Reachable, ActivateCheckout, WorkAfter, Addressable, Presentable, ValidOpaqueId, FirstRow;
    OpenedScene(env, c);
    var sys1 := Next(env, INIT, StartCheckoutStep(c));
    CreatedScene(sys1.db, c, now, ids, acts');
    ReachNext(env, sys1, ActivateStep(c.id, now, ids, now));
    sys := Next(env, sys1, ActivateStep(c.id, now, ids, now));
  }

  // ---------- rows and follow-up work ----------

  function CanceledRow(row: Subscription, now: Instant): Subscription {
    row.(status := Status.Canceled, cancelAtPeriodEnd := true, version := row.version + 1, canceledAt := Some(now),
         stateChangedAt := now)
  }

  function RestoredRow(row: Subscription, start: Instant, end: Instant, now: Instant): Subscription {
    row.(status := Status.Active, cancelAtPeriodEnd := false, version := row.version + 1, pastDueSince := None,
         canceledAt := None,
         chargingBlocked := false, blockReason := None, periodStart := start, periodEnd := end, stateChangedAt := now)
  }

  /** A good row that can be shown to the consumer. */
  predicate Shown(row: Subscription) {
    GoodRow(row) && Presentable(row)
  }

  lemma CancelBecomes(row: Subscription, now: Instant)
    requires Shown(row) && row.status == Status.Active && T.FourDigitYear(now)
    ensures Becomes(row, CANCELLATION, now, WasCanceled, CanceledRow(row, now)) && Shown(CanceledRow(row, now))
  {
    hide T.FourDigitYear, ValidPlanId;
  }

  lemma RestoreBecomes(row: Subscription, start: Instant, end: Instant, now: Instant)
    requires Shown(row) && row.status == Status.Canceled && T.FourDigitYear(now) && T.FourDigitYear(start)
             && T.FourDigitYear(end)
    requires ZERO_TIME < start < end
    ensures Becomes(row, Seen(Reports(start, end)), now, Renewed, RestoredRow(row, start, end, now))
            && Shown(RestoredRow(row, start, end, now))
  {
    hide T.FourDigitYear, ValidPlanId;
  }

  /** The actions after a cancellation: all waiting ones are canceled but the expiry asked for, which is added if its
      key is free. */
  ghost function ActionsAfterCancel(acts: map<string, ScheduledAction>, next: Subscription, newId: string)
    : map<string, ScheduledAction>
  {
    var key := KeyOf(next.ref, Expire, next.periodEnd);
    var kept := map id | id in acts ::
                  if Cancelable(acts[id], next.ref, Some(key))
                  then acts[id].(status := ActionStatus.Canceled, claim := acts[id].claim.Release()) else acts[id];
    if forall id :: id in acts ==> acts[id].key != key
    then kept[newId := NewAction(newId, next.ref, Expire, next.periodEnd)] else kept
  }

  lemma CancelWork(acts: map<string, ScheduledAction>, next: Subscription, newId: string)
    requires newId !in acts
    ensures WorkAfter(acts, WasCanceled, next, newId, ActionsAfterCancel(acts, next, newId))
  {
    hide Schedule, CancelActions;
    forall s: Store | s.actions == acts
      ensures FollowUp(s, WasCanceled, next, newId).actions == ActionsAfterCancel(acts, next, newId)
    {
      ScheduleEffect(s, next.ref, Expire, next.periodEnd, newId);
      CancelEffect(s, next.ref, Some(KeyOf(next.ref, Expire, next.periodEnd)));
    }
  }

  lemma StripeWork(acts: map<string, ScheduledAction>, event: EventType, next: Subscription, newId: string)
    requires next.family == Stripe && (event == Renewed || event == Activated)
    ensures WorkAfter(acts, event, next, newId, acts)
  {
  }

  // ---------- an expiry ----------

  lemma SameBooksLedger(s: Store, s1: Store)
    requires LedgerInv(s) && GoodSubs(s) && SameBooks(s, s1)
    ensures LedgerInv(s1) && GoodSubs(s1)
  {
    hide LedgerInv, GoodRow;
    SilentSame(s, s1);
    BalancedKeepsLedger(s, s1);
  }

  /** The end of a subscription, by the clock. */
  function ExpiredRow(row: Subscription, now: Instant): Subscription {
    row.(status := Status.Expired, cancelAtPeriodEnd := false, version := row.version + 1, stateChangedAt := now)
  }

  lemma ExpireBecomes(row: Subscription, now: Instant)
    requires Shown(row) && row.status == Status.Active && T.FourDigitYear(now)
    ensures Becomes(row, Observed(Status.Expired), now, WasExpired, ExpiredRow(row, now))
  {
    hide T.FourDigitYear, ValidPlanId;
  }

  /** The only action of a subscription, an expiry, is due. */
  lemma DueAlone(s: Store, a: ScheduledAction, now: Instant)
    requires s.actions == map[a.id := a] && a.kind.Expire? && a.status.Pending? && a.claim == UNCLAIMED
             && a.dueAt <= now
    ensures EarliestAction(s, now, ActionStatus.Pending, [Expire], a.id)
  {
  }

  function Taken(a: ScheduledAction, token: string, until: Instant): ScheduledAction {
    a.(status := ActionStatus.Running, claim := a.claim.Take(token, until))
  }

  lemma TakenAlone(s: Store, a: ScheduledAction, token: string, now: Instant, lease: int)
    requires s.actions == map[a.id := a] && !Blocked(s, a) && a.status.Pending?
    ensures ClaimAction(s, a.id, token, now, lease) ==
            Success((s.(actions := map[a.id := Taken(a, token, now + lease)]), Taken(a, token, now + lease)))
  {
    hide Blocked;
    assert s.actions[a.id] == a;
    assert s.actions[a.id := Taken(a, token, now + lease)] == map[a.id := Taken(a, token, now + lease)];
  }

  lemma ExpiryWork(a: ScheduledAction, next: Subscription, newId: string)
    requires a.status.Running?
    ensures WorkAfter(map[a.id := a], WasExpired, next, newId, map[a.id := a])
  {
    hide CancelActions;
    forall s: Store | s.actions == map[a.id := a]
      ensures FollowUp(s, WasExpired, next, newId).actions == map[a.id := a]
    {
      CancelEffect(s, next.ref, None);
    }
  }

  lemma ExpiredStore(s: Store, cfg: Config, row: Subscription, a: ScheduledAction, now: Instant, ids: Ids)
    requires LedgerInv(s) && GoodSubs(s) && s.subs == map[row.ref := row] && s.actions == map[a.id := a]
    requires a.kind.Expire? && a.status.Pending? && a.ref == row.ref
    requires Becomes(row, Observed(Status.Expired), now, WasExpired, ExpiredRow(row, now))
             && ValidOpaqueId(ids.event, EVENT_PREFIX) && ids.event !in s.outbound
    ensures hide *; var r := RunExpire(s, a.id, "t", cfg, now, ids, now);
            r.Success? && r.value.subs == map[row.ref := ExpiredRow(row, now)]
  {
    hide LedgerInv, GoodSubs, ClaimAction, Observe, Becomes, WorkAfter, ValidOpaqueId;
    var a' := Taken(a, "t", now + Lease(cfg));
    TakenAlone(s, a, "t", now, Lease(cfg));
    var s1 := s.(actions := map[a.id := a']);
    SameBooksLedger(s, s1);
    ExpiryWork(a', ExpiredRow(row, now), ids.action);
    ObservedScene(s1, row, Observed(Status.Expired), now, ids, WasExpired, ExpiredRow(row, now), map[a.id := a']);
    var s2 := Observe(s1, row.ref, Observed(Status.Expired), now, ids, now).value;
    assert s2.actions[a.id] == a' && a'.claim.Owned("t", a'.claim.fence);
    assert FinishAction(s2, a.id, "t", a'.claim.fence, ActionStatus.Completed, None, None).Success?;
    assert a'.ref == row.ref;
  }

  lemma ExpireScene(env: Environment, sys: System, row: Subscription, a: ScheduledAction, used: set<string>,
          now: Instant, ids: Ids)
    requires Scene(env, sys, row, map[a.id := a], used) && NewIds(map[a.id := a], used, ids)
    requires a.kind.Expire? && a.status.Pending? && a.claim == UNCLAIMED && a.dueAt <= now && a.ref == row.ref
    requires Becomes(row, Observed(Status.Expired), now, WasExpired, ExpiredRow(row, now))
    ensures hide *; var step := ExpireStep(a.id, "t", now, ids, now);
            Enabled(env, sys, step) && Next(env, sys, step).db.subs == map[row.ref := ExpiredRow(row, now)]
  {
    hide Reachable, RunExpire, LedgerInv, Bound, GoodSubs, GoodActions, Becomes, EarliestAction, ValidOpaqueId;
    ReachBooks(env, sys);
    DueAlone(sys.db, a, now);
    ExpiredStore(sys.db, env.cfg, row, a, now, ids);
  }

  // ---------- a charge ----------

  /** An attempt that is submitted for the first time under the claim of its action. */
  function Submitted(t: ChargeAttempt, claim: Claim, now: Instant, deadline: Instant): ChargeAttempt {
    t.(status := AttemptStatus.Running, claim := claim, firstSubmittedAt := Some(now),
       resolutionDeadline := Some(deadline))
  }

  lemma SubmittedAlone(s: Store, a: ScheduledAction, t: ChargeAttempt, token: string, now: Instant, lease: int,
          deadline: Instant)
    requires s.actions == map[a.id := a] && a.status.Running? && a.claim.Owned(token, a.claim.fence)
    requires s.attempts == map[t.id := t] && t.firstSubmittedAt.None? && deadline != ZERO_TIME
    ensures var t' := Submitted(t, Claim(Some(token), a.claim.fence, Some(now + lease)), now, deadline);
            ClaimAttemptWithAction(s, a.id, t.id, token, a.claim.fence, now, lease,
                                   deadline) == Success((s.(attempts := map[t.id := t']), t'))
  {
    var t' := Submitted(t, Claim(Some(token), a.claim.fence, Some(now + lease)), now, deadline);
    assert s.actions[a.id] == a && s.attempts[t.id] == t;
    assert s.attempts[t.id := t'] == map[t.id := t'];
  }

  lemma RecordedAlone(s: Store, t: ChargeAttempt, t': ChargeAttempt)
    requires s.attempts == map[t.id := t] && t'.id == t.id
    ensures t.id in s.attempts && s.attempts[t.id] == t
            && UpdateAttempt(s, t') == Success(s.(attempts := map[t.id := t']))
  {
    assert s.attempts[t.id := t'] == map[t.id := t'];
  }

  lemma FinishedAmong(s: Store, a: ScheduledAction, token: string)
    requires a.id in s.actions && s.actions[a.id] == a && a.status.Running? && a.claim.Owned(token, a.claim.fence)
    ensures var r := FinishAction(s, a.id, token, a.claim.fence, ActionStatus.Completed, None, None);
            && r.Success? && r.value == s.(actions := r.value.actions)
            && forall id :: id in s.actions && id != a.id ==>
                 id in r.value.actions && r.value.actions[id] == s.actions[id]
  {
  }

  // ---------- single steps ----------

  lemma PrepareNext(env: Environment, sys: System, w: nat, id: string, choice: Choice, attemptId: string,
          reference: string, now: Instant, db: Store, chosen: string)
    requires Reachable(env, sys) && w !in sys.workers && EarliestAction(sys.db, now, ActionStatus.Pending, [Renew], id)
    requires Chooses(sys.db, id, choice)
             && EnsurePrepared(sys.db, env.cfg, sys.db.actions[id], choice, attemptId,
                               reference) == Success((db, chosen))
    ensures hide *; var step := PrepareStep(w, id, choice, attemptId, reference, now);
            && Enabled(env, sys, step) && Reachable(env, Next(env, sys, step))
            && Next(env, sys, step) == System(db, sys.workers[w := Ready(id, chosen)], sys.sent, sys.readLog,
                                              sys.tick + 1)
  {
    hide Reachable, EarliestAction, Chooses, EnsurePrepared;
    ReachNext(env, sys, PrepareStep(w, id, choice, attemptId, reference, now));
  }

  lemma ClaimNext(env: Environment, sys: System, w: nat, token: string, now: Instant, db: Store, a: ScheduledAction,
          t: ChargeAttempt)
    requires hide *; Reachable(env, sys) && w in sys.workers && sys.workers[w] == Ready(a.id, t.id)
    requires ClaimCharge(sys.db, env.cfg, a.id, t.id, token, now) == Success((db, a, t))
    ensures var step := ClaimStep(w, token, now);
            && Enabled(env, sys, step) && Reachable(env, Next(env, sys, step))
            && Next(env, sys, step)
               == System(db, sys.workers[w := Charging(a, t, token, now)], sys.sent, sys.readLog, sys.tick + 1)
  {
    hide Reachable, ClaimCharge;
    ReachNext(env, sys, ClaimStep(w, token, now));
  }

  lemma SendNext(env: Environment, sys: System, w: nat, reply: Reply)
    requires hide *; Reachable(env, sys) && w in sys.workers && sys.workers[w].Charging?
    requires TruthfulReply(env, sys.workers[w].attempt.request.idempotencyKey, reply)
    ensures var step, k := SendStep(w, true, reply), sys.workers[w];
            && Enabled(env, sys, step) && Reachable(env, Next(env, sys, step))
            && Next(env, sys, step)
               == System(sys.db, sys.workers[w := Answered(k.action, k.attempt, k.token, k.now, reply)],
                         sys.sent + [SubmissionOf(k.attempt.request)], sys.readLog, sys.tick + 1)
  {
    hide Reachable, TruthfulReply;
    ReachNext(env, sys, SendStep(w, true, reply));
  }

  lemma SettleNext(env: Environment, sys: System, w: nat, ids: Ids, txNow: Instant, db: Store)
    requires hide *; Reachable(env, sys) && w in sys.workers && sys.workers[w].Answered? && FreshIds(sys.db, ids)
    requires var k := sys.workers[w];
             SettleCharge(sys.db, env.cfg, k.action, k.attempt.id, k.token, k.action.claim.fence, k.reply, k.now, ids,
                          txNow)
             == Success(db)
    ensures var step := SettleStep(w, ids, txNow);
            && Enabled(env, sys, step) && Reachable(env, Next(env, sys, step))
            && Next(env, sys, step) == System(db, sys.workers - {w}, sys.sent, sys.readLog, sys.tick + 1)
  {
    hide Reachable, SettleCharge, FreshIds;
    ReachNext(env, sys, SettleStep(w, ids, txNow));
  }

  lemma ReceiveNext(env: Environment, sys: System, w: nat, ev: NormalizedEvent, actionId: string)
    requires Reachable(env, sys) && w !in sys.workers && TruthfulEvent(env, ev) && FreshWork(sys.db, actionId)
    requires ev.key !in sys.db.procEvents
    ensures hide *; var step := ReceiveStep(w, ev, actionId);
            var e := ProcessorEvent(ev.key, actionId, ProcessingState.Pending, None, None, UNCLAIMED);
            && Enabled(env, sys, step) && Reachable(env, Next(env, sys, step))
            && Next(env, sys, step)
               == System(sys.db.(procEvents := sys.db.procEvents[ev.key := e]), sys.workers[w := Received(ev)],
                         sys.sent,
                         sys.readLog, sys.tick + 1)
  {
    hide Reachable, TruthfulEvent, FreshWork;
    ReachNext(env, sys, ReceiveStep(w, ev, actionId));
  }

  lemma LeaseNext(env: Environment, sys: System, w: nat, token: string, now: Instant, db: Store, row: ProcessingLease)
    requires hide *; Reachable(env, sys) && w in sys.workers && sys.workers[w].Received?
    requires var ev := sys.workers[w].ev;
             ClaimProcessorEvent(sys.db, ev.key, ProcessingKey(ev), token, now, 120) == Success((db, row))
    ensures var step, ev := LeaseStep(w, token, now), sys.workers[w].ev;
            && Enabled(env, sys, step) && Reachable(env, Next(env, sys, step))
            && Next(env, sys, step) == System(db, sys.workers[w := Leased(ev, EventLease(token, row.claim.fence))],
                                              sys.sent,
                                              sys.readLog, sys.tick + 1)
  {
    hide Reachable, ClaimProcessorEvent, ProcessingKey;
    ReachNext(env, sys, LeaseStep(w, token, now));
  }

  lemma FetchNext(env: Environment, sys: System, w: nat, state: Option<SubscriptionState>)
    requires hide *; Reachable(env, sys) && w in sys.workers && sys.workers[w].Leased?
    ensures var step, k := FetchStep(w, state), sys.workers[w];
            && Enabled(env, sys, step) && Reachable(env, Next(env, sys, step))
            && Next(env, sys, step) == System(sys.db, sys.workers[w := Fetched(k.ev, k.lease, state, sys.tick)],
                                              sys.sent,
                                              sys.readLog, sys.tick + 1)
  {
    hide Reachable;
    ReachNext(env, sys, FetchStep(w, state));
  }

  lemma CommitNext(env: Environment, sys: System, w: nat, hits: Hits, now: Instant, ids: Ids, db: Store)
    requires hide *; Reachable(env, sys) && w in sys.workers && sys.workers[w].Fetched? && FreshIds(sys.db, ids)
             && SaneClock(now)
    requires HitsAgree(sys.db, sys.workers[w].ev, sys.workers[w].state, hits) && OwnCheckout(sys.db, sys.workers[w].ev)
    requires var k := sys.workers[w];
             CommitEvent(sys.db, env.cfg, k.ev, k.lease, k.state, hits, now, ids, now) == Success(db)
    ensures var step := CommitEventStep(w, hits, now, ids, now);
            && Enabled(env, sys, step) && Reachable(env, Next(env, sys, step))
            && Next(env, sys, step).db == db && Next(env, sys, step).workers == sys.workers - {w}
  {
    hide Reachable, CommitEvent, HitsAgree, OwnCheckout, FreshIds;
    ReachNext(env, sys, CommitEventStep(w, hits, now, ids, now));
  }

  lemma CancelNext(env: Environment, sys: System, ref: string, now: Instant, ids: Ids, db: Store)
    requires Reachable(env, sys) && FreshIds(sys.db, ids)
             && Observe(sys.db, ref, CANCELLATION, now, ids, now) == Success(db)
    ensures hide *; var step := CancelStep(ref, now, ids, now);
            && Enabled(env, sys, step) && Reachable(env, Next(env, sys, step)) && Next(env, sys, step).db == db
  {
    hide Reachable, Observe, FreshIds;
    ReachNext(env, sys, CancelStep(ref, now, ids, now));
  }
}
