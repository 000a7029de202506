/** Months that were served were paid for, and what was sent to the provider stays on record. */
module Payments {
  import opened Wrappers
  import opened Protocol
  import opened Model
  import opened Transition
  import opened Engine
  import opened System
  import opened Bindings
  import opened Books
  import opened Ledger
  import opened ChargeSafety
  import opened Growth
  import opened StepSafety
  import T = Timestamps

  // ---------- every renewal was paid for ----------

  /** Attempt `id` is recorded as authorised and is for the month that the callback speaks of. */
  ghost predicate PaysMonth(s: Store, id: string, ref: string, c: Callback) {
    && id in s.attempts && s.attempts[id].ref == ref && s.attempts[id].status.Authorized?
    && c.periodStart == T.FormatUTC(s.attempts[id].periodStart) && c.periodEnd == T.FormatUTC(s.attempts[id].periodEnd)
  }

  ghost predicate PaidFor(s: Store, ref: string, c: Callback) {
    exists id :: PaysMonth(s, id, ref, c)
  }

  predicate NeedsPayment(s: Store, e: OutboundEvent) {
    e.eventType == Renewed && e.ref in s.subs && s.subs[e.ref].family == Adyen
  }

  ghost predicate RenewalsPaid(s: Store) {
    forall id :: id in s.outbound && NeedsPayment(s, s.outbound[id]) ==>
      PaidFor(s, s.outbound[id].ref, s.outbound[id].payload)
  }

  lemma PaidLater(s: Store, s': Store, ref: string, c: Callback)
    requires PaidFor(s, ref, c) && AttemptsGrow(s.attempts, s'.attempts)
    ensures PaidFor(s', ref, c)
  {
    var id :| PaysMonth(s, id, ref, c);
    assert AttemptGrows(s.attempts[id], s'.attempts[id]);
    assert PaysMonth(s', id, ref, c);
  }

  /** A row keeps its processor. */
  lemma SameFamily(s: Store, s': Store, w: Written, ref: string)
    requires Booked(s, s', w) && ref in s.subs
    ensures ref in s'.subs && s'.subs[ref].family == s.subs[ref].family
  {
    hide OneEvent, EventsKept, CheckoutsKept, GoodRow, ContentOf, Tiles;
  }

  lemma KeptEvent(s: Store, s': Store, w: Written, id: string)
    requires Booked(s, s', w) && id in s'.outbound
    ensures id in s.outbound ==> SameEvent(s.outbound[id], s'.outbound[id])
    ensures id !in s.outbound ==>
              w.Event?
              && SameEvent(s'.outbound[id], NewEvent(w.id, w.event, w.next, BuildCallback(w.id, w.event, w.next), 0))
  {
    hide OneRow, RowsKept, CheckoutsKept, Creates, Updates, BuildCallback, ValidateCallback, SameEvent;
  }

  lemma NewEventPaid(s: Store, s': Store, id: string, event: EventType, next: Subscription)
    requires Booked(s, s', Event(id, event, next)) && event == Renewed && next.family == Adyen
    ensures PaidFor(s', next.ref, BuildCallback(id, event, next))
  {
    hide OneEvent, OneRow, Creates, Updates, T.FormatUTC;
    var t :| Books.Pays(s'.attempts, t, next);
    assert PaysMonth(s', t, next.ref, BuildCallback(id, event, next));
  }

  lemma ProgressKeepsPaid(s: Store, s': Store)
    requires RenewalsPaid(s) && GoodOutbox(s) && Progress(s, s')
    ensures RenewalsPaid(s')
  {
    hide Booked, GoodOutbox, AttemptsGrow, ActionsGrow, OutboxGrows, LeasesGrow, ProcsGrow, PaidFor, BuildCallback;
    var w :| Booked(s, s', w);
    forall id | id in s'.outbound && NeedsPayment(s', s'.outbound[id])
      ensures PaidFor(s', s'.outbound[id].ref, s'.outbound[id].payload)
    {
      KeptEvent(s, s', w, id);
      var e := s'.outbound[id];
      if id in s.outbound {
        EventSubject(s, id);
        SameFamily(s, s', w, e.ref);
        PaidLater(s, s', e.ref, e.payload);
      } else {
        WrittenFamily(s, s', w);
        NewEventPaid(s, s', w.id, w.event, w.next);
      }
    }
  }

  lemma WrittenFamily(s: Store, s': Store, w: Written)
    requires Booked(s, s', w) && w.Event?
    ensures w.next.ref in s'.subs && s'.subs[w.next.ref].family == w.next.family
  {
    hide OneEvent, EventsKept, CheckoutsKept, GoodRow, ContentOf, Tiles, Creates, Updates, RowsKept;
  }

  lemma EventSubject(s: Store, id: string)
    requires GoodOutbox(s) && id in s.outbound
    ensures s.outbound[id].ref in s.subs
  {
    assert GoodEvent(s, id);
  }

  // ---------- what was sent ----------

  /** Submission number `i` was the request of attempt `id`. */
  ghost predicate SentBy(sys: System, i: nat, id: string) {
    && i < |sys.sent| && id in sys.db.attempts && sys.sent[i] == SubmissionOf(sys.db.attempts[id].request)
    && sys.db.attempts[id].firstSubmittedAt.Some?
  }

  ghost predicate OnRecord(sys: System, i: nat) {
    exists id :: SentBy(sys, i, id)
  }

  ghost predicate SentInv(sys: System) {
    forall i: nat :: i < |sys.sent| ==> OnRecord(sys, i)
  }

  lemma OnRecordLater(sys: System, sys': System, i: nat)
    requires OnRecord(sys, i) && AttemptsGrow(sys.db.attempts, sys'.db.attempts) && sys.sent <= sys'.sent
    ensures OnRecord(sys', i)
  {
    var id :| SentBy(sys, i, id);
    assert AttemptGrows(sys.db.attempts[id], sys'.db.attempts[id]);
    assert SentBy(sys', i, id);
  }

  lemma SendOnRecord(env: Environment, sys: System, step: Step)
    requires WorkersAgree(env, sys) && Enabled(env, sys, step) && step.SendStep?
    ensures var k := sys.workers[step.w];
            k.attempt.id in sys.db.attempts && sys.db.attempts[k.attempt.id].request == k.attempt.request
            && sys.db.attempts[k.attempt.id].firstSubmittedAt.Some? && DbAfter(env, sys, step) == sys.db
  {
    hide TruthfulReply;
    assert Remembers(env, sys.db, sys.workers[step.w]);
  }

  /** A step sends at most one request: the one that its worker holds. */
  lemma SentGrows(env: Environment, sys: System, step: Step)
    requires Enabled(env, sys, step)
    ensures hide *; var sent' := SentAfter(env, sys, step);
            sent' == sys.sent || (step.SendStep? && step.w in sys.workers && sys.workers[step.w].Charging?
                                  && sent' == sys.sent + [SubmissionOf(sys.workers[step.w].attempt.request)])
  {
  }

  lemma StepKeepsSent(env: Environment, sys: System, step: Step)
    requires Safe(env, sys) && SentInv(sys) && Enabled(env, sys, step)
    ensures hide *; SentInv(Next(env, sys, step))
  {
    hide Enabled, DbAfter, WorkersAfter, ReadsAfter, SentAfter, ChargeInv, Bound, LedgerInv, WorkersAgree, Balanced,
         OnRecord, ActionsGrow, AttemptsGrow, OutboxGrows, LeasesGrow, ProcsGrow;
    StepProgress(env, sys, step);
    var sys' := Next(env, sys, step);
    SentGrows(env, sys, step);
    forall i: nat | i < |sys'.sent| ensures OnRecord(sys', i) {
      if i < |sys.sent| {
        OnRecordLater(sys, sys', i);
      } else {
        SendOnRecord(env, sys, step);
        LastOnRecord(sys', i, sys.workers[step.w].attempt.id);
      }
    }
  }

  lemma LastOnRecord(sys': System, i: nat, id: string)
    requires SentBy(sys', i, id)
    ensures OnRecord(sys', i)
  {
  }
}
