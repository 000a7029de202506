/**
 * Why a renewal is charged at most once: the invariants of subscriptions, scheduled actions and charge attempts, and
 * the kinds of change that keep them.
 *
 * Some transactions pass through stores in which one action, `x`, is out of step with its attempts or its subscription.
 * The invariants that can be out of step take that action as a parameter and exempt it.
 */
module ChargeSafety {
  import opened Wrappers
  import opened Calendar
  import opened Protocol
  import opened Model
  import opened Transition
  import opened Engine
  import opened Scheduler
  import opened System
  import opened Effects

  // ---------- the invariants ----------

  /** Stored subscriptions are good rows under their own reference; a period that the bridge bills itself ends after the
      zero time, which the code reads as "not given". */
  ghost predicate GoodSubs(s: Store) {
    forall ref :: ref in s.subs ==> s.subs[ref].ref == ref && GoodRow(s.subs[ref]) && Dated(s.subs[ref])
  }

  predicate Dated(sub: Subscription) {
    sub.family == Adyen ==> sub.periodEnd > ZERO_TIME
  }

  /** An action stands under its identifier and its key says what it is; no two actions share a key. */
  ghost predicate GoodActions(s: Store) {
    && (forall id :: id in s.actions ==>
          var a := s.actions[id];
          a.id == id && a.key == KeyOf(a.ref, a.kind, a.target))
    && (forall i, j :: i in s.actions && j in s.actions && s.actions[i].key == s.actions[j].key ==> i == j)
  }

  /** An attempt belongs to a renew action and pays for the month that the action is about. */
  predicate Belongs(t: ChargeAttempt, a: ScheduledAction) {
    && t.actionId == a.id && a.kind.Renew? && t.ref == a.ref && t.periodStart == a.target
    && t.periodEnd == AddCalendarMonths(t.periodStart, 1)
    && t.request.idempotencyKey == ChargeKey(t.request.reference)
  }

  ghost predicate GoodAttempts(s: Store) {
    forall id :: id in s.attempts ==>
      var t := s.attempts[id];
      t.id == id && t.actionId in s.actions && Belongs(t, s.actions[t.actionId])
  }

  predicate Authorises(env: Environment, t: ChargeAttempt) {
    env.authorises(t.request.idempotencyKey)
  }

  /** Recorded outcomes agree with the provider, and only a running attempt is claimed. */
  predicate Truthful(env: Environment, t: ChargeAttempt) {
    && (t.status.Authorized? ==> Authorises(env, t))
    && (t.status.Refused? ==> !Authorises(env, t))
    && (t.claim.token.Some? ==> t.status.Running?)
  }

  ghost predicate TruthfulAttempts(env: Environment, s: Store) {
    forall id :: id in s.attempts ==> Truthful(env, s.attempts[id])
  }

  /** Of two attempts of one action the earlier is one that the provider refuses. */
  ghost predicate RefusedBefore(env: Environment, s: Store) {
    forall i, j :: i in s.attempts && j in s.attempts && i != j && s.attempts[i].actionId == s.attempts[j].actionId ==>
      && s.attempts[i].number != s.attempts[j].number
      && (s.attempts[i].number < s.attempts[j].number ==> !Authorises(env, s.attempts[i]))
  }

  function MaxAttempts(cfg: Config): int {
    if |cfg.retryDelays| > 1 then |cfg.retryDelays| else 1
  }

  /** Attempts of an action are numbered from 1 without gaps, up to the number of configured delays. */
  ghost predicate Numbered(env: Environment, s: Store) {
    forall id :: id in s.attempts ==>
      && s.attempts[id].number <= MaxAttempts(env.cfg)
      && (s.attempts[id].number > 1 ==> exists p :: Precedes(s, p, id))
  }

  ghost predicate Precedes(s: Store, p: string, id: string)
    requires id in s.attempts
  {
    p in s.attempts && s.attempts[p].actionId == s.attempts[id].actionId
    && s.attempts[p].number == s.attempts[id].number - 1
  }

  /** What an action that can still be claimed knows about its attempts: each is open, or refused with dunning to go
      on. */
  predicate Working(cfg: Config, t: ChargeAttempt) {
    && (IsOpen(t.status) || t.status.Refused?)
    && (t.status.Refused? ==> t.number < |cfg.retryDelays|)
    && RetryableCode(t.refusalCode)
  }

  ghost predicate WorkingAttempts(env: Environment, s: Store, x: Option<string>) {
    forall id :: id in s.attempts ==>
      var t := s.attempts[id];
      t.actionId in s.actions && Claimable(s.actions[t.actionId].status) && x != Some(t.actionId) ==>
        Working(env.cfg, t)
  }

  /** A claimable renewal is for the period that follows the current one. */
  ghost predicate OnTarget(s: Store, x: Option<string>) {
    forall id :: id in s.actions ==>
      var a := s.actions[id];
      a.kind.Renew? && Claimable(a.status) && x != Some(id) ==> a.ref in s.subs && a.target == s.subs[a.ref].periodEnd
  }

  /** No renewal, finished or not, is about a later period; renewals exist for Adyen subscriptions only. */
  ghost predicate NotAhead(s: Store) {
    forall id :: id in s.actions ==>
      var a := s.actions[id];
      a.kind.Renew? ==> a.ref in s.subs && s.subs[a.ref].family == Adyen && a.target <= s.subs[a.ref].periodEnd
  }

  ghost predicate RenewalWaiting(s: Store, ref: string, id: string) {
    id in s.actions && s.actions[id].ref == ref && s.actions[id].kind.Renew? && Claimable(s.actions[id].status)
  }

  /** An active Adyen subscription has a renewal that can be claimed. */
  ghost predicate Renewing(s: Store, x: Option<string>) {
    forall ref ::
      ref in s.subs && s.subs[ref].family == Adyen && s.subs[ref].status == Status.Active && !Concerns(s, x, ref) ==>
      exists id :: RenewalWaiting(s, ref, id)
  }

  predicate Concerns(s: Store, x: Option<string>, ref: string) {
    x.Some? && x.value in s.actions && s.actions[x.value].ref == ref
  }

  /** If the period has moved past an authorised attempt, the attempt is recorded as authorised and will not move it
      again. */
  ghost predicate Counted(env: Environment, s: Store) {
    forall id :: id in s.attempts ==>
      var t := s.attempts[id];
      Authorises(env, t) && t.ref in s.subs && t.periodStart < s.subs[t.ref].periodEnd ==> t.status.Authorized?
  }

  /** A request asks for what the plan costs, and its body says what is on record. */
  predicate Matches(r: Request, plan: Plan) {
    && r.merchant == r.body.merchant == plan.merchant && r.amount == r.body.amount == plan.amount
       && r.currency == r.body.currency == plan.currency
    && r.reference == r.body.reference && r.shopper == r.body.shopper
  }

  /** Every attempt charges the configured price of its subscription's plan. */
  ghost predicate Priced(env: Environment, s: Store) {
    forall id :: id in s.attempts ==> PricedFor(env, s, s.attempts[id])
  }

  predicate PricedFor(env: Environment, s: Store, t: ChargeAttempt) {
    && t.ref in s.subs && s.subs[t.ref].planId in env.cfg.plans
    && Matches(t.request, env.cfg.plans[s.subs[t.ref].planId])
    && t.request.endpoint == env.cfg.endpoint && t.request.shopper == ShopperOf(s.subs[t.ref])
  }

  /** Whom a charge bills: the shopper on record, if there is one. */
  function ShopperOf(sub: Subscription): string {
    match sub.shopperRef
    case Some(shopper) => shopper
    case None => ""
  }

  ghost predicate ChargeInv(env: Environment, s: Store, x: Option<string>) {
    && GoodSubs(s) && GoodActions(s) && GoodAttempts(s) && Priced(env, s)
    && TruthfulAttempts(env, s) && RefusedBefore(env, s) && Numbered(env, s)
    && WorkingAttempts(env, s, x) && OnTarget(s, x) && NotAhead(s) && Renewing(s, x) && Counted(env, s)
  }

  // ---------- what follows from them ----------

  /** At most one attempt of an action has a key that the provider authorises. */
  lemma OneChargePerAction(env: Environment, s: Store, i: string, j: string)
    requires RefusedBefore(env, s) && i in s.attempts && j in s.attempts
    requires s.attempts[i].actionId == s.attempts[j].actionId && Authorises(env, s.attempts[i])
             && Authorises(env, s.attempts[j])
    ensures i == j
  {
  }

  /** Attempts for one period of one subscription belong to one action. */
  lemma OneActionPerPeriod(s: Store, i: string, j: string)
    requires GoodActions(s) && GoodAttempts(s) && i in s.attempts && j in s.attempts
    requires s.attempts[i].ref == s.attempts[j].ref && s.attempts[i].periodStart == s.attempts[j].periodStart
    ensures s.attempts[i].actionId == s.attempts[j].actionId
  {
    assert Belongs(s.attempts[i], s.actions[s.attempts[i].actionId])
           && Belongs(s.attempts[j], s.actions[s.attempts[j].actionId]);
  }

  /** An authorised attempt that is not yet recorded as such pays for the period that follows the current one. */
  lemma PaysForNextPeriod(env: Environment, s: Store, x: Option<string>, id: string)
    requires ChargeInv(env, s, x) && id in s.attempts && Authorises(env, s.attempts[id])
             && !s.attempts[id].status.Authorized?
    ensures var t := s.attempts[id];
            t.ref in s.subs && s.subs[t.ref].family == Adyen && t.periodStart == s.subs[t.ref].periodEnd
  {
    var t := s.attempts[id];
    assert Belongs(t, s.actions[t.actionId]);
  }

  // ---------- changes that leave attempts and Adyen periods alone ----------

  /** Actions keep their identity, finished actions stay finished, and only expiries are added. */
  ghost predicate ActionsSettle(s: Store, s': Store) {
    && (forall id :: id in s.actions ==>
          id in s'.actions && SameAction(s.actions[id], s'.actions[id])
          && (Claimable(s'.actions[id].status) ==> Claimable(s.actions[id].status)))
    && (forall id :: id in s'.actions && id !in s.actions ==> s'.actions[id].kind.Expire?)
  }

  /** Subscriptions stay; an Adyen subscription keeps its period and does not become active; new ones are Stripe's. */
  ghost predicate SubsSettle(s: Store, s': Store) {
    && (forall ref :: ref in s.subs ==> ref in s'.subs && SubSettles(s.subs[ref], s'.subs[ref]))
    && (forall ref :: ref in s'.subs && ref !in s.subs ==> s'.subs[ref].family == Stripe)
  }

  predicate SubSettles(a: Subscription, b: Subscription) {
    && b.family == a.family
    && (a.family == Adyen ==>
          b.periodEnd == a.periodEnd && b.planId == a.planId && b.shopperRef == a.shopperRef
          && (b.status == Status.Active ==> a.status == Status.Active))
  }

  /** Waiting renewals go on waiting, unless the subscription is no longer active or the exempted one is meant. */
  ghost predicate RenewalsStay(s: Store, s': Store, x: Option<string>) {
    forall id :: id in s.actions && RenewalWaiting(s, s.actions[id].ref, id) ==>
      || RenewalWaiting(s', s.actions[id].ref, id)
      || s.actions[id].ref !in s'.subs || s'.subs[s.actions[id].ref].status != Status.Active
      || Concerns(s, x, s.actions[id].ref)
  }

  ghost predicate Quiet(s: Store, s': Store, x: Option<string>) {
    && s'.attempts == s.attempts
    && GoodSubs(s') && GoodActions(s')
    && ActionsSettle(s, s') && SubsSettle(s, s') && RenewalsStay(s, s', x)
  }

  lemma QuietAttempts(env: Environment, s: Store, s': Store, x: Option<string>)
    requires GoodAttempts(s) && WorkingAttempts(env, s, x) && s'.attempts == s.attempts && ActionsSettle(s, s')
    ensures GoodAttempts(s') && WorkingAttempts(env, s', x)
  {
    forall id | id in s'.attempts
      ensures s'.attempts[id].actionId in s'.actions && Belongs(s'.attempts[id], s'.actions[s'.attempts[id].actionId])
    {
      assert Belongs(s.attempts[id], s.actions[s.attempts[id].actionId]);
    }
  }

  lemma QuietTargets(s: Store, s': Store, x: Option<string>)
    requires OnTarget(s, x) && NotAhead(s) && ActionsSettle(s, s') && SubsSettle(s, s')
    ensures OnTarget(s', x) && NotAhead(s')
  {
    forall id | id in s'.actions && s'.actions[id].kind.Renew?
      ensures id in s.actions && SameAction(s.actions[id], s'.actions[id])
    {
    }
  }

  lemma QuietRenewing(s: Store, s': Store, x: Option<string>)
    requires Renewing(s, x) && ActionsSettle(s, s') && SubsSettle(s, s') && RenewalsStay(s, s', x)
    ensures Renewing(s', x)
  {
    forall ref | ref in s'.subs && s'.subs[ref].family == Adyen && s'.subs[ref].status == Status.Active && !Concerns(s',
        x, ref)
      ensures exists id :: RenewalWaiting(s', ref, id)
    {
      assert ref in s.subs && SubSettles(s.subs[ref], s'.subs[ref]);
      assert !Concerns(s, x, ref);
      var id :| RenewalWaiting(s, ref, id);
      assert RenewalWaiting(s', ref, id);
    }
  }

  lemma QuietPriced(env: Environment, s: Store, s': Store)
    requires Priced(env, s) && GoodAttempts(s) && NotAhead(s) && s'.attempts == s.attempts && SubsSettle(s, s')
    ensures Priced(env, s')
  {
    hide Matches;
    forall id | id in s.attempts
      ensures s.attempts[id].ref in s.subs && s.subs[s.attempts[id].ref].family == Adyen
    {
      assert Belongs(s.attempts[id], s.actions[s.attempts[id].actionId]);
    }
  }

  lemma QuietCounted(env: Environment, s: Store, s': Store)
    requires Counted(env, s) && GoodAttempts(s) && NotAhead(s) && s'.attempts == s.attempts && SubsSettle(s, s')
    ensures Counted(env, s')
  {
    forall id | id in s.attempts
      ensures s.attempts[id].ref in s.subs && s.subs[s.attempts[id].ref].family == Adyen
    {
      assert Belongs(s.attempts[id], s.actions[s.attempts[id].actionId]);
    }
  }

  lemma QuietNumbered(env: Environment, s: Store, s': Store)
    requires Numbered(env, s) && s'.attempts == s.attempts
    ensures Numbered(env, s')
  {
    forall id | id in s'.attempts && s'.attempts[id].number > 1 ensures exists p :: Precedes(s', p, id) {
      var p :| Precedes(s, p, id);
      assert Precedes(s', p, id);
    }
  }

  /** What is said of the list of attempts alone. */
  lemma SameAttemptLists(env: Environment, s: Store, s': Store)
    requires RefusedBefore(env, s) && Numbered(env, s) && TruthfulAttempts(env, s) && s'.attempts == s.attempts
    ensures RefusedBefore(env, s') && Numbered(env, s') && TruthfulAttempts(env, s')
  {
    hide Numbered, Truthful, Authorises;
    QuietNumbered(env, s, s');
  }

  lemma QuietKeeps(env: Environment, s: Store, s': Store, x: Option<string>)
    requires ChargeInv(env, s, x) && Quiet(s, s', x)
    ensures ChargeInv(env, s', x)
  {
    hide GoodSubs, GoodActions, GoodAttempts, TruthfulAttempts, RefusedBefore, Numbered, WorkingAttempts, OnTarget,
         NotAhead, Renewing, Counted, Priced, ActionsSettle, SubsSettle, RenewalsStay;
    QuietPriced(env, s, s');
    QuietAttempts(env, s, s', x);
    QuietTargets(s, s', x);
    QuietRenewing(s, s', x);
    QuietCounted(env, s, s');
    SameAttemptLists(env, s, s');
  }

  /** The exemption can be granted at any time ... */
  lemma Exempt(env: Environment, s: Store, x: string)
    requires ChargeInv(env, s, None)
    ensures ChargeInv(env, s, Some(x))
  {
    hide GoodSubs, GoodActions, GoodAttempts, TruthfulAttempts, RefusedBefore, Numbered, NotAhead, Counted, Priced,
         RenewalWaiting, Working;
  }

  /** ... and lifted when the action is finished and its subscription is inactive or has another renewal waiting. */
  lemma LiftExemption(env: Environment, s: Store, x: string)
    requires ChargeInv(env, s, Some(x)) && x in s.actions && !Claimable(s.actions[x].status)
    requires var ref := s.actions[x].ref;
             ref in s.subs && s.subs[ref].status == Status.Active ==> exists id :: RenewalWaiting(s, ref, id)
    ensures ChargeInv(env, s, None)
  {
    hide GoodSubs, GoodActions, GoodAttempts, TruthfulAttempts, RefusedBefore, Numbered, NotAhead, Counted, Priced,
         RenewalWaiting, Working;
  }

  // ---------- changes of one attempt ----------

  /** What is fixed when an attempt is prepared. */
  predicate SameAttempt(t: ChargeAttempt, u: ChargeAttempt) {
    && t.id == u.id && t.actionId == u.actionId && t.ref == u.ref && t.periodStart == u.periodStart
       && t.periodEnd == u.periodEnd
    && t.number == u.number && t.request == u.request
  }

  /** An attempt may change its status if the provider agrees, if its action can live with it, and if it is not
      un-authorised. */
  ghost predicate AttemptMoves(env: Environment, s: Store, u: ChargeAttempt, x: Option<string>) {
    && u.id in s.attempts && SameAttempt(s.attempts[u.id], u) && Truthful(env, u)
    && u.actionId in s.actions
    && (x == Some(u.actionId) || !Claimable(s.actions[u.actionId].status) || Working(env.cfg, u))
    && (s.attempts[u.id].status.Authorized? ==> u.status.Authorized?)
  }

  lemma AttemptKeeps(env: Environment, s: Store, u: ChargeAttempt, x: Option<string>)
    requires ChargeInv(env, s, x) && AttemptMoves(env, s, u, x)
    ensures ChargeInv(env, s.(attempts := s.attempts[u.id := u]), x)
  {
    hide GoodSubs, GoodActions, GoodAttempts, TruthfulAttempts, RefusedBefore, WorkingAttempts, OnTarget, NotAhead,
         Counted, Renewing, Numbered, Priced, AttemptMoves;
    var s' := s.(attempts := s.attempts[u.id := u]);
    AttemptKeepsTruth(env, s, u, x);
    AttemptKeepsOrder(env, s, u, x);
    AttemptKeepsWorking(env, s, u, x);
    AttemptKeepsCounted(env, s, u, x);
    AttemptKeepsNumbered(env, s, u, x);
    AttemptKeepsRenewing(s, s', x);
    AttemptKeepsPriced(env, s, u, x);
    SameRows(s, s', x);
  }

  lemma SameRows(s: Store, s': Store, x: Option<string>)
    requires GoodSubs(s) && GoodActions(s) && OnTarget(s, x) && NotAhead(s) && s'.subs == s.subs
             && s'.actions == s.actions
    ensures GoodSubs(s') && GoodActions(s') && OnTarget(s', x) && NotAhead(s')
  {
  }

  lemma AttemptKeepsRenewing(s: Store, s': Store, x: Option<string>)
    requires Renewing(s, x) && s'.subs == s.subs && s'.actions == s.actions
    ensures Renewing(s', x)
  {
    forall ref, id | RenewalWaiting(s, ref, id) ensures RenewalWaiting(s', ref, id) {
    }
  }

  lemma AttemptKeepsTruth(env: Environment, s: Store, u: ChargeAttempt, x: Option<string>)
    requires GoodAttempts(s) && TruthfulAttempts(env, s) && AttemptMoves(env, s, u, x)
    ensures GoodAttempts(s.(attempts := s.attempts[u.id := u]))
            && TruthfulAttempts(env, s.(attempts := s.attempts[u.id := u]))
  {
    hide Truthful, Working;
    assert Belongs(s.attempts[u.id], s.actions[s.attempts[u.id].actionId]);
  }

  lemma AttemptKeepsPriced(env: Environment, s: Store, u: ChargeAttempt, x: Option<string>)
    requires Priced(env, s) && AttemptMoves(env, s, u, x)
    ensures Priced(env, s.(attempts := s.attempts[u.id := u]))
  {
    hide Truthful, Working, Matches;
  }

  lemma AttemptKeepsOrder(env: Environment, s: Store, u: ChargeAttempt, x: Option<string>)
    requires RefusedBefore(env, s) && AttemptMoves(env, s, u, x)
    ensures RefusedBefore(env, s.(attempts := s.attempts[u.id := u]))
  {
    hide Truthful, Working;
  }

  lemma AttemptKeepsWorking(env: Environment, s: Store, u: ChargeAttempt, x: Option<string>)
    requires WorkingAttempts(env, s, x) && AttemptMoves(env, s, u, x)
    ensures WorkingAttempts(env, s.(attempts := s.attempts[u.id := u]), x)
  {
    hide Truthful, Working;
  }

  lemma AttemptKeepsCounted(env: Environment, s: Store, u: ChargeAttempt, x: Option<string>)
    requires Counted(env, s) && AttemptMoves(env, s, u, x)
    ensures Counted(env, s.(attempts := s.attempts[u.id := u]))
  {
    hide Truthful, Working;
  }

  lemma AttemptKeepsNumbered(env: Environment, s: Store, u: ChargeAttempt, x: Option<string>)
    requires Numbered(env, s) && AttemptMoves(env, s, u, x)
    ensures Numbered(env, s.(attempts := s.attempts[u.id := u]))
  {
    hide Truthful, Working;
    var s' := s.(attempts := s.attempts[u.id := u]);
    forall id | id in s'.attempts && s'.attempts[id].number > 1 ensures exists p :: Precedes(s', p, id) {
      var p :| Precedes(s, p, id);
      assert Precedes(s', p, id);
    }
  }

  // ---------- a new attempt ----------

  /** A new attempt of a claimable renewal may be added once all earlier ones are refused, with the next number. */
  ghost predicate MayPrepare(env: Environment, s: Store, u: ChargeAttempt) {
    && u.id !in s.attempts && u.actionId in s.actions && Belongs(u, s.actions[u.actionId])
    && Claimable(s.actions[u.actionId].status) && u.ref in s.subs && u.periodStart == s.subs[u.ref].periodEnd
    && u.status.Prepared? && u.claim == UNCLAIMED && u.refusalCode.None?
    && NoneWith(s, u.actionId, IsOpen) && NextNumber(s, u.actionId, u.number) && PricedFor(env, s, u)
  }

  lemma PrepareFacts(env: Environment, s: Store, u: ChargeAttempt, id: string)
    requires TruthfulAttempts(env, s) && WorkingAttempts(env, s, None) && MayPrepare(env, s, u)
    requires id in s.attempts && s.attempts[id].actionId == u.actionId
    ensures s.attempts[id].status.Refused? && !Authorises(env, s.attempts[id]) && s.attempts[id].number < u.number
    ensures s.attempts[id].number < |env.cfg.retryDelays| && RetryableCode(s.attempts[id].refusalCode)
  {
    hide Belongs, RetryableCode, Claimable;
    assert Working(env.cfg, s.attempts[id]) && Truthful(env, s.attempts[id]);
  }

  lemma PrepareNumbered(env: Environment, s: Store, u: ChargeAttempt)
    requires Numbered(env, s) && TruthfulAttempts(env, s) && WorkingAttempts(env, s, None) && MayPrepare(env, s, u)
    ensures Numbered(env, s.(attempts := s.attempts[u.id := u]))
  {
    hide TruthfulAttempts, WorkingAttempts, Belongs, Claimable;
    var s' := s.(attempts := s.attempts[u.id := u]);
    forall id | id in s'.attempts && s'.attempts[id].number > 1 ensures exists p :: Precedes(s', p, id) {
      if id == u.id {
        var p :| p in s.attempts && s.attempts[p].actionId == u.actionId && s.attempts[p].number == u.number - 1;
        assert Precedes(s', p, id);
      } else {
        var p :| Precedes(s, p, id);
        assert Precedes(s', p, id);
      }
    }
    if u.number > 1 {
      var p :| p in s.attempts && s.attempts[p].actionId == u.actionId && s.attempts[p].number == u.number - 1;
      PrepareFacts(env, s, u, p);
    }
  }

  lemma PrepareOrder(env: Environment, s: Store, u: ChargeAttempt)
    requires RefusedBefore(env, s) && TruthfulAttempts(env, s) && WorkingAttempts(env, s, None) && MayPrepare(env, s, u)
    ensures RefusedBefore(env, s.(attempts := s.attempts[u.id := u]))
  {
    hide TruthfulAttempts, WorkingAttempts, Belongs, Claimable, NoneWith, NextNumber;
    forall id | id in s.attempts && s.attempts[id].actionId == u.actionId
      ensures !Authorises(env, s.attempts[id]) && s.attempts[id].number < u.number
    {
      PrepareFacts(env, s, u, id);
    }
  }

  lemma PrepareLists(env: Environment, s: Store, u: ChargeAttempt)
    requires GoodAttempts(s) && TruthfulAttempts(env, s) && MayPrepare(env, s, u)
    ensures GoodAttempts(s.(attempts := s.attempts[u.id := u]))
            && TruthfulAttempts(env, s.(attempts := s.attempts[u.id := u]))
  {
    hide Belongs;
  }

  lemma PrepareWorking(env: Environment, s: Store, u: ChargeAttempt)
    requires WorkingAttempts(env, s, None) && Counted(env, s) && MayPrepare(env, s, u)
    ensures WorkingAttempts(env, s.(attempts := s.attempts[u.id := u]), None)
            && Counted(env, s.(attempts := s.attempts[u.id := u]))
  {
    hide Belongs;
  }

  lemma PreparePriced(env: Environment, s: Store, u: ChargeAttempt)
    requires Priced(env, s) && MayPrepare(env, s, u)
    ensures Priced(env, s.(attempts := s.attempts[u.id := u]))
  {
    hide Matches, Belongs;
  }

  lemma PrepareKeeps(env: Environment, s: Store, u: ChargeAttempt)
    requires ChargeInv(env, s, None) && MayPrepare(env, s, u)
    ensures ChargeInv(env, s.(attempts := s.attempts[u.id := u]), None)
  {
    hide GoodSubs, GoodActions, GoodAttempts, TruthfulAttempts, RefusedBefore, WorkingAttempts, OnTarget, NotAhead,
         Counted, Renewing, Numbered, Priced, MayPrepare;
    var s' := s.(attempts := s.attempts[u.id := u]);
    PrepareNumbered(env, s, u);
    PrepareOrder(env, s, u);
    PrepareLists(env, s, u);
    PrepareWorking(env, s, u);
    PreparePriced(env, s, u);
    AttemptKeepsRenewing(s, s', None);
    SameRows(s, s', None);
  }
}
