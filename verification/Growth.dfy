/**
 * What no step ever undoes: fences only rise, an owner keeps its claim until it is released or a later claim is made,
 * finished work stays finished, and what was once promised to a provider or to the consumer stays as it was.
 */
module Growth {
  import opened Wrappers
  import opened Calendar
  import opened Protocol
  import opened Model
  import opened Transition
  import opened Engine
  import opened Effects
  import opened Books
  import opened ChargeSafety

  /** A claim stays, or is given back under the same fence, or is replaced under a higher one. */
  predicate ClaimGrows(c: Claim, d: Claim) {
    || d == c
    || d.fence > c.fence
    || (d.fence == c.fence && d.token.None? && d.leaseUntil.None?)
  }

  /** A finished action never changes again. */
  predicate ActionGrows(a: ScheduledAction, b: ScheduledAction) {
    SameAction(a, b) && ClaimGrows(a.claim, b.claim) && (!Claimable(a.status) ==> b == a)
  }

  /** The request never changes; the times that were fixed by the first submission never change; authorised is final. */
  predicate AttemptGrows(t: ChargeAttempt, u: ChargeAttempt) {
    && SameAttempt(t, u)
    && (t.firstSubmittedAt.Some? ==>
          u.firstSubmittedAt == t.firstSubmittedAt && u.resolutionDeadline == t.resolutionDeadline)
    && (t.status.Authorized? ==> u.status.Authorized?)
  }

  /** The callback never changes; a delivered event never changes at all. */
  predicate OutboundGrows(e: OutboundEvent, f: OutboundEvent) {
    SameEvent(e, f) && ClaimGrows(e.claim, f.claim) && e.attemptCount <= f.attemptCount
    && (e.state.Delivered? ==> f == e)
  }

  predicate Closed(state: ProcessingState) {
    state.Processed? || state.Quarantined? || state.ManualReview?
  }

  predicate ProcGrows(p: ProcessorEvent, q: ProcessorEvent) {
    p.key == q.key && p.actionId == q.actionId && (Closed(p.state) ==> q == p)
    && (!p.state.Pending? ==> !q.state.Pending?)
  }

  /** An action is running exactly while somebody holds its claim. */
  ghost predicate ClaimsRun(m: map<string, ScheduledAction>) {
    forall id :: id in m ==> (m[id].status.Running? <==> m[id].claim.token.Some?)
  }

  /** Every idempotency key belongs to one attempt. */
  ghost predicate UniqueKeys(m: map<string, ChargeAttempt>) {
    forall i, j :: i in m && j in m && m[i].request.idempotencyKey == m[j].request.idempotencyKey ==> i == j
  }

  /** The processing of every event goes by an identifier of its own. */
  ghost predicate UniqueWork(m: map<EventKey, ProcessorEvent>) {
    forall i, j :: i in m && j in m && m[i].actionId == m[j].actionId ==> i == j
  }

  /** Every delivery was made under a fence of its own. */
  predicate Fenced(e: OutboundEvent) {
    e.attemptCount + (if e.claim.token.Some? then 1 else 0) <= e.claim.fence
  }

  ghost predicate DeliveriesFenced(m: map<string, OutboundEvent>) {
    forall id :: id in m ==> Fenced(m[id])
  }

  ghost predicate ActionsGrow(m: map<string, ScheduledAction>, n: map<string, ScheduledAction>) {
    && (forall id :: id in m ==> id in n && ActionGrows(m[id], n[id]))
    && (ClaimsRun(m) ==> ClaimsRun(n))
  }

  ghost predicate AttemptsGrow(m: map<string, ChargeAttempt>, n: map<string, ChargeAttempt>) {
    && (forall id :: id in m ==> id in n && AttemptGrows(m[id], n[id]))
    && (UniqueKeys(m) ==> UniqueKeys(n))
  }

  ghost predicate OutboxGrows(m: map<string, OutboundEvent>, n: map<string, OutboundEvent>) {
    && (forall id :: id in m ==> id in n && OutboundGrows(m[id], n[id]))
    && (DeliveriesFenced(m) ==> DeliveriesFenced(n))
  }

  ghost predicate LeasesGrow(m: map<string, ProcessingLease>, n: map<string, ProcessingLease>) {
    forall key :: key in m ==> key in n && ClaimGrows(m[key].claim, n[key].claim)
  }

  ghost predicate ProcsGrow(m: map<EventKey, ProcessorEvent>, n: map<EventKey, ProcessorEvent>) {
    && (forall key :: key in m ==> key in n && ProcGrows(m[key], n[key]))
    && (UniqueWork(m) ==> UniqueWork(n))
  }

  ghost predicate Grows(s: Store, s': Store) {
    && ActionsGrow(s.actions, s'.actions) && AttemptsGrow(s.attempts, s'.attempts)
       && OutboxGrows(s.outbound, s'.outbound)
    && LeasesGrow(s.leases, s'.leases) && ProcsGrow(s.procEvents, s'.procEvents) && s.audits <= s'.audits
  }

  lemma GrowsSame(s: Store)
    ensures Grows(s, s)
  {
  }

  lemma ActionsGrowOn(a: map<string, ScheduledAction>, b: map<string, ScheduledAction>, c: map<string, ScheduledAction>)
    requires ActionsGrow(a, b) && ActionsGrow(b, c)
    ensures ActionsGrow(a, c)
  {
  }

  lemma AttemptsGrowOn(a: map<string, ChargeAttempt>, b: map<string, ChargeAttempt>, c: map<string, ChargeAttempt>)
    requires AttemptsGrow(a, b) && AttemptsGrow(b, c)
    ensures AttemptsGrow(a, c)
  {
  }

  lemma OutboxGrowsOn(a: map<string, OutboundEvent>, b: map<string, OutboundEvent>, c: map<string, OutboundEvent>)
    requires OutboxGrows(a, b) && OutboxGrows(b, c)
    ensures OutboxGrows(a, c)
  {
  }

  lemma LeasesGrowOn(a: map<string, ProcessingLease>, b: map<string, ProcessingLease>, c: map<string, ProcessingLease>)
    requires LeasesGrow(a, b) && LeasesGrow(b, c)
    ensures LeasesGrow(a, c)
  {
  }

  lemma ProcsGrowOn(a: map<EventKey, ProcessorEvent>, b: map<EventKey, ProcessorEvent>,
          c: map<EventKey, ProcessorEvent>)
    requires ProcsGrow(a, b) && ProcsGrow(b, c)
    ensures ProcsGrow(a, c)
  {
  }

  /** Growth composes. */
  lemma GrowsOn(s: Store, t: Store, u: Store)
    requires Grows(s, t) && Grows(t, u)
    ensures Grows(s, u)
  {
    hide ActionsGrow, AttemptsGrow, OutboxGrows, LeasesGrow, ProcsGrow;
    ActionsGrowOn(s.actions, t.actions, u.actions);
    AttemptsGrowOn(s.attempts, t.attempts, u.attempts);
    OutboxGrowsOn(s.outbound, t.outbound, u.outbound);
    LeasesGrowOn(s.leases, t.leases, u.leases);
    ProcsGrowOn(s.procEvents, t.procEvents, u.procEvents);
  }

  // ---------- transactions that take no claim ----------

  /** Nobody takes the action: it stays as it is, or its claim is given back. */
  predicate Untaken(a: ScheduledAction, b: ScheduledAction) {
    b == a || b.claim == a.claim.Release()
  }

  /** Nobody takes an action, except, perhaps, `x`. */
  ghost predicate ActionsSteady(x: Option<string>, m: map<string, ScheduledAction>, n: map<string, ScheduledAction>) {
    && (forall id :: id in m ==> id in n && ActionGrows(m[id], n[id]) && (x != Some(id) ==> Untaken(m[id], n[id])))
    && (ClaimsRun(m) ==> ClaimsRun(n))
  }

  /** An event is to be delivered, at a time on record. */
  predicate Awaits(e: OutboundEvent) {
    e.state.Pending? && e.nextAttemptAt.Some?
  }

  /** Events are added, none is touched. */
  ghost predicate OutboxSteady(m: map<string, OutboundEvent>, n: map<string, OutboundEvent>) {
    && (forall id :: id in m ==> id in n && n[id] == m[id])
    && (forall id :: id in n && id !in m ==> Fenced(n[id]) && Awaits(n[id]))
  }

  predicate LeaseSteady(a: ProcessingLease, b: ProcessingLease) {
    b == a || b == ProcessingLease(a.key, false, None, a.claim.Release())
  }

  /** Nobody takes a processing lease. */
  ghost predicate LeasesSteady(m: map<string, ProcessingLease>, n: map<string, ProcessingLease>) {
    forall key :: key in m ==> key in n && LeaseSteady(m[key], n[key])
  }

  /** No processor event arrives, and none is taken up. */
  ghost predicate ProcsSteady(m: map<EventKey, ProcessorEvent>, n: map<EventKey, ProcessorEvent>) {
    && (forall key :: key in n ==> key in m)
    && (forall key :: key in m ==>
          key in n && ProcGrows(m[key], n[key]) && (m[key].state.Pending? ==> n[key] == m[key]))
  }

  /** Nothing is undone and nobody takes a claim, except, perhaps, that of action `x`. */
  ghost predicate Steady(x: Option<string>, s: Store, s': Store) {
    && ActionsSteady(x, s.actions, s'.actions) && AttemptsGrow(s.attempts, s'.attempts)
       && OutboxSteady(s.outbound, s'.outbound)
    && LeasesSteady(s.leases, s'.leases) && ProcsSteady(s.procEvents, s'.procEvents) && s.audits <= s'.audits
  }

  lemma SteadySame(s: Store)
    ensures Steady(None, s, s)
  {
  }

  lemma ActionsSteadyGrow(x: Option<string>, m: map<string, ScheduledAction>, n: map<string, ScheduledAction>)
    requires ActionsSteady(x, m, n)
    ensures ActionsGrow(m, n)
  {
    hide ActionGrows, Untaken;
  }

  lemma OutboxSteadyGrows(m: map<string, OutboundEvent>, n: map<string, OutboundEvent>)
    requires OutboxSteady(m, n)
    ensures OutboxGrows(m, n)
  {
    hide Fenced;
  }

  lemma ProcsSteadyGrow(m: map<EventKey, ProcessorEvent>, n: map<EventKey, ProcessorEvent>)
    requires ProcsSteady(m, n)
    ensures ProcsGrow(m, n)
  {
  }

  /** What takes no claim undoes nothing. */
  lemma SteadyGrows(x: Option<string>, s: Store, s': Store)
    requires Steady(x, s, s')
    ensures Grows(s, s')
  {
    hide ActionsSteady, OutboxSteady, ProcsSteady, ActionsGrow, AttemptsGrow, OutboxGrows, ProcsGrow;
    ActionsSteadyGrow(x, s.actions, s'.actions);
    OutboxSteadyGrows(s.outbound, s'.outbound);
    ProcsSteadyGrow(s.procEvents, s'.procEvents);
  }

  lemma ActionsSteadyOn(x: Option<string>, a: map<string, ScheduledAction>, b: map<string, ScheduledAction>,
          c: map<string, ScheduledAction>)
    requires ActionsSteady(x, a, b) && (ActionsSteady(x, b, c) || ActionsSteady(None, b, c))
    ensures ActionsSteady(x, a, c)
  {
    hide ClaimsRun;
    forall id | id in a ensures id in c && ActionGrows(a[id], c[id]) && (x != Some(id) ==> Untaken(a[id], c[id])) {
      assert ActionGrows(a[id], b[id]) && ActionGrows(b[id], c[id]);
    }
  }

  lemma OutboxSteadyOn(a: map<string, OutboundEvent>, b: map<string, OutboundEvent>, c: map<string, OutboundEvent>)
    requires OutboxSteady(a, b) && OutboxSteady(b, c)
    ensures OutboxSteady(a, c)
  {
    hide Fenced;
  }

  lemma LeasesSteadyOn(a: map<string, ProcessingLease>, b: map<string, ProcessingLease>,
          c: map<string, ProcessingLease>)
    requires LeasesSteady(a, b) && LeasesSteady(b, c)
    ensures LeasesSteady(a, c)
  {
  }

  lemma ProcsSteadyOn(a: map<EventKey, ProcessorEvent>, b: map<EventKey, ProcessorEvent>,
          c: map<EventKey, ProcessorEvent>)
    requires ProcsSteady(a, b) && ProcsSteady(b, c)
    ensures ProcsSteady(a, c)
  {
  }

  /** Steadiness composes. */
  lemma SteadyOn(x: Option<string>, s: Store, t: Store, u: Store)
    requires Steady(x, s, t) && (Steady(x, t, u) || Steady(None, t, u))
    ensures Steady(x, s, u)
  {
    hide ActionsSteady, AttemptsGrow, OutboxSteady, LeasesSteady, ProcsSteady;
    ActionsSteadyOn(x, s.actions, t.actions, u.actions);
    AttemptsGrowOn(s.attempts, t.attempts, u.attempts);
    OutboxSteadyOn(s.outbound, t.outbound, u.outbound);
    LeasesSteadyOn(s.leases, t.leases, u.leases);
    ProcsSteadyOn(s.procEvents, t.procEvents, u.procEvents);
  }

  // ---------- one table at a time ----------

  lemma SameGrow(s: Store)
    ensures ActionsGrow(s.actions, s.actions) && AttemptsGrow(s.attempts, s.attempts)
            && OutboxGrows(s.outbound, s.outbound)
    ensures LeasesGrow(s.leases, s.leases) && ProcsGrow(s.procEvents, s.procEvents)
  {
  }

  lemma SameSteady(s: Store)
    ensures ActionsSteady(None, s.actions, s.actions) && AttemptsGrow(s.attempts, s.attempts)
            && OutboxSteady(s.outbound, s.outbound)
    ensures LeasesSteady(s.leases, s.leases) && ProcsSteady(s.procEvents, s.procEvents)
  {
  }

  lemma ActionsOnly(x: Option<string>, s: Store, s': Store)
    requires s' == s.(actions := s'.actions) && ActionsSteady(x, s.actions, s'.actions)
    ensures Steady(x, s, s')
  {
    hide ActionsSteady, AttemptsGrow, OutboxSteady, LeasesSteady, ProcsSteady;
    SameSteady(s);
  }

  lemma FinishSteady(s: Store, id: string, token: string, fence: int, status: ActionStatus, due: Option<Instant>,
          class_: Option<string>)
    requires FinishAction(s, id, token, fence, status, due, class_).Success? && !status.Running?
    ensures Steady(None, s, FinishAction(s, id, token, fence, status, due, class_).value)
  {
    ActionsOnly(None, s, FinishAction(s, id, token, fence, status, due, class_).value);
  }

  lemma ForceFinishSteady(s: Store, id: string, status: ActionStatus, due: Option<Instant>, class_: Option<string>)
    requires ForceFinishAction(s, id, status, due, class_).Success? && !status.Running?
    ensures Steady(None, s, ForceFinishAction(s, id, status, due, class_).value)
  {
    hide AttemptsGrow, OutboxSteady, LeasesSteady, ProcsSteady, ActionGrows;
    var s' := ForceFinishAction(s, id, status, due, class_).value;
    ForceFinishedAction(s.actions[id], status, due, class_);
    assert forall a :: ActionGrows(a, a) by { ActionStays(); }
    ActionsOnly(None, s, s');
  }

  lemma ActionStays()
    ensures forall a :: ActionGrows(a, a)
  {
  }

  lemma ForceFinishedAction(a: ScheduledAction, status: ActionStatus, due: Option<Instant>, class_: Option<string>)
    ensures Claimable(a.status) ==>
              ActionGrows(a,
                          a.(status := status, lastError := class_, dueAt := if due.Some? then due.value else a.dueAt,
                             claim := a.claim.Release()))
  {
  }

  lemma ClaimActionSteady(s: Store, id: string, token: string, now: Instant, lease: int)
    requires ClaimAction(s, id, token, now, lease).Success?
    ensures Steady(Some(id), s, ClaimAction(s, id, token, now, lease).value.0)
  {
    hide Blocked;
    ActionsOnly(Some(id), s, ClaimAction(s, id, token, now, lease).value.0);
  }

  lemma EnsureSteady(s: Store, a: ScheduledAction)
    requires a.status.Pending? && a.claim.token.None?
    ensures Steady(None, s, EnsureAction(s, a))
  {
    hide EnsureAction, NoSuchKey;
    EnsureEffect(s, a);
    ActionsOnly(None, s, EnsureAction(s, a));
  }

  lemma AttemptGrown(s: Store, u: ChargeAttempt)
    requires if u.id in s.attempts then AttemptGrows(s.attempts[u.id], u) else NewKey(s, u)
    ensures Steady(None, s, s.(attempts := s.attempts[u.id := u]))
  {
    hide ActionsSteady, OutboxSteady, LeasesSteady, ProcsSteady, AttemptGrows;
    SameSteady(s);
    assert forall t :: AttemptGrows(t, t) by { AttemptStays(); }
    assert UniqueKeys(s.attempts) ==> UniqueKeys(s.attempts[u.id := u]) by { KeysStayUnique(s, u); }
  }

  ghost predicate NewKey(s: Store, u: ChargeAttempt) {
    forall id :: id in s.attempts ==> s.attempts[id].request.idempotencyKey != u.request.idempotencyKey
  }

  lemma KeysStayUnique(s: Store, u: ChargeAttempt)
    requires if u.id in s.attempts then AttemptGrows(s.attempts[u.id], u) else NewKey(s, u)
    ensures UniqueKeys(s.attempts) ==> UniqueKeys(s.attempts[u.id := u])
  {
  }

  lemma AttemptStays()
    ensures forall t :: AttemptGrows(t, t)
  {
  }

  lemma AuditSteady(s: Store, a: Audit)
    ensures Steady(None, s, InsertAudit(s, a))
  {
    hide ActionsSteady, AttemptsGrow, OutboxSteady, LeasesSteady, ProcsSteady;
    SameSteady(s);
  }

  /** Rows of subscriptions and checkouts are spoken of elsewhere. */
  lemma OtherTables(s: Store, s': Store)
    requires s' == s.(subs := s'.subs, checkouts := s'.checkouts)
    ensures Steady(None, s, s')
  {
    hide ActionsSteady, AttemptsGrow, OutboxSteady, LeasesSteady, ProcsSteady;
    SameSteady(s);
  }

  lemma FollowedSteady(s: Store, s': Store, event: EventType, next: Subscription, newId: string)
    requires Followed(s.actions, s'.actions, event, next, newId)
    ensures ActionsSteady(None, s.actions, s'.actions)
  {
    hide StartsRenewal;
  }

  lemma OutboxAdds(m: map<string, OutboundEvent>, id: string, e: OutboundEvent)
    requires id !in m && Fenced(e) && Awaits(e)
    ensures OutboxSteady(m, m[id := e])
  {
  }

  lemma CommitSteady(s: Store, created: bool, next: Subscription, event: EventType, ids: Ids, now: Instant)
    requires CommitChange(s, created, next, event, ids, now).Success?
    ensures hide *; Steady(None, s, CommitChange(s, created, next, event, ids, now).value)
  {
    hide ActionsSteady, AttemptsGrow, OutboxSteady, LeasesSteady, ProcsSteady, FollowUp, BuildCallback,
         ValidateCallback, Followed, Spared, CommitChange;
    CommitEffect(s, created, next, event, ids, now);
    var s' := CommitChange(s, created, next, event, ids, now).value;
    FollowedSteady(s, s', event, next, ids.action);
    OutboxAdds(s.outbound, ids.event, NewEvent(ids.event, event, next, BuildCallback(ids.event, event, next), now));
    SameSteady(s);
  }

  lemma DecisionSteady(s: Store, d: Decision, ids: Ids, now: Instant)
    requires Commit(s, d, ids, now).Success?
    ensures hide *; Steady(None, s, Commit(s, d, ids, now).value)
  {
    hide Steady, CommitChange;
    SteadySame(s);
    if d.Change? { CommitSteady(s, false, d.next, d.event, ids, now); }
  }

  lemma ObserveSteady(s: Store, ref: string, obs: Observation, now: Instant, ids: Ids, txNow: Instant)
    requires Observe(s, ref, obs, now, ids, txNow).Success?
    ensures hide *; Steady(None, s, Observe(s, ref, obs, now, ids, txNow).value)
  {
    hide Steady, Commit, Decide;
    DecisionSteady(s, Decide(s.subs[ref], obs, now).value, ids, txNow);
  }
}
