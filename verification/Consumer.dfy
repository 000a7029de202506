/** A consumer that keeps the highest version it has seen ends up where the bridge is. */
module Consumer {
  import opened Wrappers
  import opened Protocol
  import opened Model
  import opened Engine
  import opened System
  import opened Bindings
  import opened Ledger
  import opened ChargeSafety
  import opened Payments
  import opened Runs

  /** A callback is applied only when its version is greater than the stored one. */
  function Apply(view: Option<Snapshot>, c: Callback): Option<Snapshot> {
    if view.None? || c.stateVersion > view.value.stateVersion then Some(SnapshotFromCallback(c)) else view
  }

  function ApplyAll(view: Option<Snapshot>, deliveries: seq<Callback>): Option<Snapshot>
    decreases |deliveries|
  {
    if deliveries == [] then view else ApplyAll(Apply(view, deliveries[0]), deliveries[1..])
  }

  /** Nothing that is delivered is newer than `latest`, and what is as new says the same. */
  ghost predicate UpTo(latest: Snapshot, s: Snapshot) {
    s.stateVersion <= latest.stateVersion && (s.stateVersion == latest.stateVersion ==> s == latest)
  }

  lemma {:induction false} Converges(view: Option<Snapshot>, deliveries: seq<Callback>, latest: Snapshot)
    requires view.Some? ==> UpTo(latest, view.value)
    requires forall c :: c in deliveries ==> UpTo(latest, SnapshotFromCallback(c))
    requires view == Some(latest) || exists c :: c in deliveries && SnapshotFromCallback(c) == latest
    ensures ApplyAll(view, deliveries) == Some(latest)
    decreases |deliveries|
  {
    if deliveries != [] {
      var c := deliveries[0];
      assert UpTo(latest, SnapshotFromCallback(c));
      forall d | d in deliveries[1..] ensures d in deliveries {
      }
      if Apply(view, c) != Some(latest) {
        var d :| d in deliveries && SnapshotFromCallback(d) == latest;
        assert d in deliveries[1..];
      }
      Converges(Apply(view, c), deliveries[1..], latest);
    }
  }

  /** Deliveries for one subscription: any of its callbacks, in any order, any number of times. */
  ghost predicate Delivered(s: Store, ref: string, c: Callback) {
    exists id :: id in s.outbound && s.outbound[id].ref == ref && s.outbound[id].payload == c
  }

  lemma DeliveredUpTo(s: Store, ref: string, c: Callback)
    requires GoodOutbox(s) && UpToDate(s) && ref in s.subs && Delivered(s, ref, c)
    ensures UpTo(SnapshotOf(s.subs[ref]), SnapshotFromCallback(c))
    ensures c.stateVersion == s.subs[ref].version ==> SnapshotFromCallback(c) == SnapshotOf(s.subs[ref])
  {
    hide Protocol.ValidateCallback;
    var id :| id in s.outbound && s.outbound[id].ref == ref && s.outbound[id].payload == c;
    assert GoodEvent(s, id);
    assert IsVersion(s, ref, c.stateVersion, id);
  }

  /** After any deliveries that include the latest callback, however reordered, repeated or incomplete, the consumer's
      view is the snapshot that reconciliation would answer. */
  lemma ConsumerConverges(env: Environment, states: seq<System>, steps: seq<Step>, n: nat, ref: string,
          deliveries: seq<Callback>)
    requires hide *; Run(env, states, steps) && n < |states| && ref in states[n].db.subs
    requires forall c :: c in deliveries ==> Delivered(states[n].db, ref, c)
    requires exists c :: c in deliveries && c.stateVersion == states[n].db.subs[ref].version
    ensures ApplyAll(None, deliveries) == Some(SnapshotOf(states[n].db.subs[ref]))
  {
    hide Run, Bound, ChargeInv, RenewalsPaid, GoodOutbox, Complete, Unique, UpToDate, Story, SnapshotOf,
         SnapshotFromCallback, Delivered;
    RunLedger(env, states, steps, n);
    var latest := SnapshotOf(states[n].db.subs[ref]);
    forall c | c in deliveries
      ensures UpTo(latest, SnapshotFromCallback(c))
      ensures c.stateVersion == states[n].db.subs[ref].version ==> SnapshotFromCallback(c) == latest
    {
      DeliveredUpTo(states[n].db, ref, c);
    }
    Converges(None, deliveries, latest);
  }
}
