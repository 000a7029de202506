/** Reads of the processor are linearised: under one processing key, what is committed was fetched after the previous
    commit. */
module Reads {
  import opened Wrappers
  import opened Calendar
  import opened Protocol
  import opened Model
  import opened Engine
  import opened System
  import opened Bindings
  import opened Books
  import opened ChargeSafety
  import opened Growth
  import opened GrowthSteps
  import opened StepSafety

  /** Commits under one key carry rising fences, and each was fetched after the one before was committed. */
  ghost predicate Linear(log: seq<ReadCommit>) {
    && (forall i :: 0 <= i < |log| ==> log[i].fetchedAt < log[i].committedAt)
    && (forall i,
        j :: 0 <= i < j < |log| && log[i].key == log[j].key ==>
          log[i].fence < log[j].fence && log[i].committedAt < log[j].fetchedAt)
  }

  /** The lease of a logged commit has been given back. */
  ghost predicate Settled(sys: System, r: ReadCommit) {
    && r.key in sys.db.leases && r.committedAt < sys.tick
    && (r.fence < sys.db.leases[r.key].claim.fence
        || (r.fence == sys.db.leases[r.key].claim.fence && sys.db.leases[r.key].claim.token.None?))
  }

  /** A worker whose lease is still valid is newer than every commit under its key, and so is what it fetched. */
  ghost predicate Newest(sys: System, key: string, lease: EventLease, fetchedAt: Option<nat>) {
    && key in sys.db.leases && lease.fence <= sys.db.leases[key].claim.fence
    && (fetchedAt.Some? ==> fetchedAt.value < sys.tick)
    && (sys.db.leases[key].claim.Owned(lease.token, lease.fence) ==>
          forall i :: 0 <= i < |sys.readLog| && sys.readLog[i].key == key ==>
            sys.readLog[i].fence < lease.fence && (fetchedAt.Some? ==> sys.readLog[i].committedAt < fetchedAt.value))
  }

  ghost predicate UpToDate(sys: System, k: Worker) {
    match k
    case Leased(ev, lease) => Newest(sys, ProcessingKey(ev), lease, None)
    case Fetched(ev, lease, _, fetchedAt) => Newest(sys, ProcessingKey(ev), lease, Some(fetchedAt))
    case _ => true
  }

  ghost predicate ReadsInv(sys: System) {
    && Linear(sys.readLog)
    && (forall i :: 0 <= i < |sys.readLog| ==> Settled(sys, sys.readLog[i]))
    && (forall w :: w in sys.workers ==> UpToDate(sys, sys.workers[w]))
  }

  // ---------- time passes ----------

  /** What a step may do to leases and to the log. */
  ghost predicate Passes(sys: System, sys': System) {
    && LeasesGrow(sys.db.leases, sys'.db.leases) && sys'.tick == sys.tick + 1
    && (|| sys'.readLog == sys.readLog
        || (|sys'.readLog| == |sys.readLog| + 1 && sys'.readLog[..|sys.readLog|] == sys.readLog && Closes(sys',
            sys'.readLog[|sys.readLog|])))
  }

  ghost predicate Closes(sys': System, r: ReadCommit) {
    r.key in sys'.db.leases && sys'.db.leases[r.key].claim.fence == r.fence && sys'.db.leases[r.key].claim.token.None?
  }

  lemma NewestLater(sys: System, sys': System, key: string, lease: EventLease, fetchedAt: Option<nat>)
    requires Newest(sys, key, lease, fetchedAt) && Passes(sys, sys')
    ensures Newest(sys', key, lease, fetchedAt)
  {
    if sys'.db.leases[key].claim.Owned(lease.token, lease.fence) {
      assert ClaimGrows(sys.db.leases[key].claim, sys'.db.leases[key].claim);
      forall i | 0 <= i < |sys'.readLog| && sys'.readLog[i].key == key
        ensures i < |sys.readLog| && sys'.readLog[i] == sys.readLog[i]
      {
        if i < |sys.readLog| { assert sys'.readLog[..|sys.readLog|][i] == sys.readLog[i]; }
      }
    }
  }

  lemma UpToDateLater(sys: System, sys': System, k: Worker)
    requires UpToDate(sys, k) && Passes(sys, sys')
    ensures UpToDate(sys', k)
  {
    hide Newest, Passes;
    match k
    case Leased(ev, lease) => NewestLater(sys, sys', ProcessingKey(ev), lease, None);
    case Fetched(ev, lease, _, fetchedAt) => NewestLater(sys, sys', ProcessingKey(ev), lease, Some(fetchedAt));
    case _ =>
  }

  lemma SettledLater(sys: System, sys': System, r: ReadCommit)
    requires Settled(sys, r) && Passes(sys, sys')
    ensures Settled(sys', r)
  {
    assert ClaimGrows(sys.db.leases[r.key].claim, sys'.db.leases[r.key].claim);
  }

  // ---------- the steps ----------

  /** A commit succeeds only under the current lease, which it gives back. */
  lemma ClosingReleases(s1: Store, ev: NormalizedEvent, lease: EventLease, state: ProcessingState, ref: Option<string>,
          now: Instant)
    requires CloseEvent(s1, ev, lease, state, ref, now).Success?
    ensures var s', key := CloseEvent(s1, ev, lease, state, ref, now).value, ProcessingKey(ev);
            && key in s1.leases && s1.leases[key].claim.Owned(lease.token, lease.fence)
            && key in s'.leases && s'.leases[key].claim == s1.leases[key].claim.Release()
  {
    hide ProcessingKey;
  }

  lemma CommitCloses(env: Environment, s: Store, ev: NormalizedEvent, lease: EventLease,
          state: Option<SubscriptionState>, hits: Hits, now: Instant, ids: Ids, txNow: Instant)
    requires ChargeInv(env, s, None) && StillOwned(s, ev, lease)
             && CommitEvent(s, env.cfg, ev, lease, state, hits, now, ids, txNow).Success?
    ensures hide *;
            var s', key := CommitEvent(s, env.cfg, ev, lease, state, hits, now, ids, txNow).value, ProcessingKey(ev);
            && key in s'.leases && s'.leases[key].claim.fence == lease.fence && s'.leases[key].claim.token.None?
            && exists s1 :: Grows(s, s1) && key in s1.leases && s1.leases[key].claim.Owned(lease.token, lease.fence)
  {
    hide ChargeInv, ApplyObservation, CloseEvent, StripeSubject, Grows, Steady, ProcessingKey;
    GrowsSame(s);
    match ApplyObservation(s, env.cfg, ev, state, hits, now, ids, txNow)
    case Success((s1, ref)) =>
      ObservationSteady(env, s, ev, state, hits, now, ids, txNow);
      SteadyGrows(None, s, s1);
      ClosingReleases(s1, ev, lease, Processed, ref, now);
      assert Grows(s, s1);
    case Failure(e) =>
      if e == UnknownStripePrice && state.Some? {
        ClosingReleases(s, ev, lease, Quarantined, StripeSubject(ev, state.value, hits), now);
      } else {
        ClosingReleases(s, ev, lease, ProcessingState.ManualReview, None, now);
      }
      assert Grows(s, s);
  }

  /** Whoever owns a lease after others have worked owned it before. */
  lemma OwnedBefore(sys: System, s1: Store, key: string, lease: EventLease, fetchedAt: nat)
    requires Newest(sys, key, lease, Some(fetchedAt)) && Grows(sys.db, s1) && key in s1.leases
             && s1.leases[key].claim.Owned(lease.token, lease.fence)
    ensures sys.db.leases[key].claim.Owned(lease.token, lease.fence)
  {
    hide ActionsGrow, AttemptsGrow, OutboxGrows, ProcsGrow;
    assert ClaimGrows(sys.db.leases[key].claim, s1.leases[key].claim);
  }

  lemma CommitEntry(env: Environment, sys: System, step: Step)
    requires ChargeInv(env, sys.db, None) && ReadsInv(sys) && Enabled(env, sys, step) && Commits(env, sys, step)
    ensures hide *; var k, s' := sys.workers[step.w], DbAfter(env, sys, step); var key := ProcessingKey(k.ev);
            && key in s'.leases && s'.leases[key].claim.fence == k.lease.fence && s'.leases[key].claim.token.None?
            && k.fetchedAt < sys.tick
            && forall i :: 0 <= i < |sys.readLog| && sys.readLog[i].key == key ==>
                 sys.readLog[i].fence < k.lease.fence && sys.readLog[i].committedAt < k.fetchedAt
  {
    hide ChargeInv, CommitEvent, HitsAgree, OwnCheckout, StillOwned, ProcessingKey, Grows, Linear, Settled;
    var k := sys.workers[step.w];
    assert UpToDate(sys, k);
    CommitCloses(env, sys.db, k.ev, k.lease, k.state, step.hits, step.now, step.ids, step.txNow);
    var s1 :| Grows(sys.db, s1) && ProcessingKey(k.ev) in s1.leases
         && s1.leases[ProcessingKey(k.ev)].claim.Owned(k.lease.token, k.lease.fence);
    OwnedBefore(sys, s1, ProcessingKey(k.ev), k.lease, k.fetchedAt);
  }

  lemma LinearPlus(log: seq<ReadCommit>, r: ReadCommit)
    requires Linear(log) && r.fetchedAt < r.committedAt
    requires forall i :: 0 <= i < |log| && log[i].key == r.key ==>
               log[i].fence < r.fence && log[i].committedAt < r.fetchedAt
    ensures Linear(log + [r])
  {
  }

  /** The log after a step. */
  lemma StepLog(env: Environment, sys: System, step: Step)
    requires Safe(env, sys) && ReadsInv(sys) && Enabled(env, sys, step)
    ensures hide *; var sys' := Next(env, sys, step);
            Passes(sys, sys') && Linear(sys'.readLog)
            && (forall i :: 0 <= i < |sys'.readLog| ==> Settled(sys', sys'.readLog[i]))
  {
    hide Enabled, DbAfter, WorkersAfter, SentAfter, ChargeInv, Bound, WorkersAgree, Balanced, ActionsGrow, AttemptsGrow,
         OutboxGrows, ProcsGrow, LeasesGrow, Commits, Linear, Settled, UpToDate, ProcessingKey;
    var sys' := Next(env, sys, step);
    StepProgress(env, sys, step);
    if Commits(env, sys, step) {
      CommitsOnly(env, sys, step);
      CommitEntry(env, sys, step);
      var k := sys.workers[step.w];
      var r := ReadCommit(ProcessingKey(k.ev), k.lease.fence, k.fetchedAt, sys.tick);
      LinearPlus(sys.readLog, r);
      assert sys'.readLog[..|sys.readLog|] == sys.readLog;
      assert Settled(sys', r) by { ClosedSettled(sys', r); }
    }
    forall i | 0 <= i < |sys.readLog| ensures Settled(sys', sys.readLog[i]) {
      SettledLater(sys, sys', sys.readLog[i]);
    }
  }

  lemma ClosedSettled(sys': System, r: ReadCommit)
    requires Closes(sys', r) && r.committedAt < sys'.tick
    ensures Settled(sys', r)
  {
  }

  lemma CommitsOnly(env: Environment, sys: System, step: Step)
    requires hide *; Enabled(env, sys, step) && Commits(env, sys, step)
    ensures step.CommitEventStep? && step.w in sys.workers && sys.workers[step.w].Fetched?
  {
  }

  /** A fresh lease outranks every commit; a fetch happens after every commit so far. */
  lemma ActorUpToDate(env: Environment, sys: System, step: Step)
    requires hide *; ReadsInv(sys) && Enabled(env, sys, step) && (step.LeaseStep? || step.FetchStep?)
    requires Passes(sys, Next(env, sys, step))
    ensures var k := WorkerAfter(env, sys, step); k.Some? ==> UpToDate(Next(env, sys, step), k.value)
  {
    hide ProcessingKey, Linear, Passes;
    var sys' := Next(env, sys, step);
    assert sys'.readLog == sys.readLog;
    assert UpToDate(sys, sys.workers[step.w]);
    if step.FetchStep? {
      FetchUpToDate(sys, sys', ProcessingKey(sys.workers[step.w].ev), sys.workers[step.w].lease);
    } else if WorkerAfter(env, sys, step).Some? {
      var ev := sys.workers[step.w].ev;
      LeaseUpToDate(sys, sys', ev.key, ProcessingKey(ev), step.token, step.now);
    }
  }

  lemma FetchUpToDate(sys: System, sys': System, key: string, lease: EventLease)
    requires Newest(sys, key, lease, None) && sys'.db == sys.db && sys'.readLog == sys.readLog
             && sys'.tick == sys.tick + 1
    requires forall i :: 0 <= i < |sys.readLog| ==> Settled(sys, sys.readLog[i])
    ensures Newest(sys', key, lease, Some(sys.tick))
  {
  }

  lemma LeaseUpToDate(sys: System, sys': System, eventKey: EventKey, key: string, token: string, now: Instant)
    requires ClaimProcessorEvent(sys.db, eventKey, key, token, now, 120).Success?
    requires sys'.db == ClaimProcessorEvent(sys.db, eventKey, key, token, now, 120).value.0
             && sys'.readLog == sys.readLog
    requires forall i :: 0 <= i < |sys.readLog| ==> Settled(sys, sys.readLog[i])
    ensures Newest(sys', key,
                   EventLease(token, ClaimProcessorEvent(sys.db, eventKey, key, token, now, 120).value.1.claim.fence),
                       None)
  {
  }

  lemma OtherUpToDate(env: Environment, sys: System, step: Step)
    requires Enabled(env, sys, step) && !step.LeaseStep? && !step.FetchStep?
    ensures hide *; var k := WorkerAfter(env, sys, step); k.Some? ==> !k.value.Leased? && !k.value.Fetched?
  {
  }

  lemma StepKeepsReads(env: Environment, sys: System, step: Step)
    requires Safe(env, sys) && ReadsInv(sys) && Enabled(env, sys, step)
    ensures hide *; ReadsInv(Next(env, sys, step))
  {
    hide Safe, Enabled, DbAfter, SentAfter, ReadsAfter, Linear, Settled, UpToDate, WorkerAfter, Passes;
    StepLog(env, sys, step);
    var sys' := Next(env, sys, step);
    var k := WorkerAfter(env, sys, step);
    assert k.Some? ==> UpToDate(sys', k.value) by {
      if step.LeaseStep? || step.FetchStep? {
        ActorUpToDate(env, sys, step);
      } else {
        OtherUpToDate(env, sys, step);
        Unconcerned(sys', k);
      }
    }
    forall w | w in sys.workers ensures UpToDate(sys', sys.workers[w]) {
      UpToDateLater(sys, sys', sys.workers[w]);
    }
  }

  lemma Unconcerned(sys': System, k: Option<Worker>)
    requires k.Some? ==> !k.value.Leased? && !k.value.Fetched?
    ensures k.Some? ==> UpToDate(sys', k.value)
  {
  }
}
