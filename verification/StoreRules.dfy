/**
 * What keeps the tables of the store free of duplicates: a row is accepted if and only if the table stays free of them
 * with it.
 */
module StoreRules {
  import opened Wrappers
  import opened Protocol
  import opened Model

  ghost predicate UniqueCheckouts(m: map<string, Checkout>) {
    && (forall id :: id in m ==> m[id].id == id)
    && forall i, j :: i in m && j in m && m[i].idempotencyKey == m[j].idempotencyKey ==> i == j
  }

  ghost predicate UniqueSubscriptions(m: map<string, Subscription>) {
    && (forall ref :: ref in m ==> m[ref].ref == ref)
    && forall r, q :: r in m && q in m && m[r].checkoutId == m[q].checkoutId ==> r == q
  }

  ghost predicate UniqueEvents(m: map<string, OutboundEvent>) {
    && (forall id :: id in m ==> m[id].id == id)
    && forall i, j :: i in m && j in m && m[i].ref == m[j].ref && m[i].version == m[j].version ==> i == j
  }

  ghost predicate UniqueActions(m: map<string, ScheduledAction>) {
    && (forall id :: id in m ==> m[id].id == id)
    && forall i, j :: i in m && j in m && m[i].key == m[j].key ==> i == j
  }

  /** Two attempts that must not both be stored. */
  predicate Clash(t: ChargeAttempt, u: ChargeAttempt) {
    || t.request.reference == u.request.reference || t.request.idempotencyKey == u.request.idempotencyKey
    || (t.ref == u.ref && t.periodStart == u.periodStart && t.number == u.number)
  }

  ghost predicate UniqueAttempts(m: map<string, ChargeAttempt>) {
    && (forall id :: id in m ==> m[id].id == id)
    && forall i, j :: i in m && j in m && Clash(m[i], m[j]) ==> i == j
  }

  lemma CheckoutAccepted(s: Store, c: Checkout)
    requires UniqueCheckouts(s.checkouts)
    ensures InsertCheckout(s, c).Success? <==> c.id !in s.checkouts && UniqueCheckouts(s.checkouts[c.id := c])
    ensures InsertCheckout(s, c).Success? ==> InsertCheckout(s, c).value == s.(checkouts := s.checkouts[c.id := c])
  {
    var m := s.checkouts[c.id := c];
    if c.id !in s.checkouts && UniqueCheckouts(m) {
      forall id | id in s.checkouts ensures s.checkouts[id].idempotencyKey != c.idempotencyKey {
        assert m[id].idempotencyKey == m[c.id].idempotencyKey ==> id == c.id;
      }
    }
  }

  lemma SubscriptionAccepted(s: Store, sub: Subscription)
    requires UniqueSubscriptions(s.subs)
    ensures InsertSubscription(s, sub).Success? <==> sub.ref !in s.subs && UniqueSubscriptions(s.subs[sub.ref := sub])
    ensures InsertSubscription(s, sub).Success? ==>
              InsertSubscription(s, sub).value == s.(subs := s.subs[sub.ref := sub])
  {
    var m := s.subs[sub.ref := sub];
    if sub.ref !in s.subs && UniqueSubscriptions(m) {
      forall r | r in s.subs ensures s.subs[r].checkoutId != sub.checkoutId {
        assert m[r].checkoutId == m[sub.ref].checkoutId ==> r == sub.ref;
      }
    }
  }

  lemma EventAccepted(s: Store, e: OutboundEvent)
    requires UniqueEvents(s.outbound)
    ensures InsertOutbound(s, e).Success? <==> e.id !in s.outbound && UniqueEvents(s.outbound[e.id := e])
    ensures InsertOutbound(s, e).Success? ==> InsertOutbound(s, e).value == s.(outbound := s.outbound[e.id := e])
  {
    var m := s.outbound[e.id := e];
    if e.id !in s.outbound && UniqueEvents(m) {
      forall id | id in s.outbound ensures s.outbound[id].ref != e.ref || s.outbound[id].version != e.version {
        assert m[id].ref == m[e.id].ref && m[id].version == m[e.id].version ==> id == e.id;
      }
    }
  }

  lemma ActionAccepted(s: Store, a: ScheduledAction)
    requires UniqueActions(s.actions)
    ensures InsertAction(s, a).Success? <==> a.id !in s.actions && UniqueActions(s.actions[a.id := a])
    ensures InsertAction(s, a).Success? ==> InsertAction(s, a).value == s.(actions := s.actions[a.id := a])
  {
    var m := s.actions[a.id := a];
    if a.id !in s.actions && UniqueActions(m) {
      forall id | id in s.actions ensures s.actions[id].key != a.key {
        assert m[id].key == m[a.id].key ==> id == a.id;
      }
    }
  }

  lemma AttemptAccepted(s: Store, t: ChargeAttempt)
    requires UniqueAttempts(s.attempts)
    ensures InsertAttempt(s, t).Success? <==> t.id !in s.attempts && UniqueAttempts(s.attempts[t.id := t])
    ensures InsertAttempt(s, t).Success? ==> InsertAttempt(s, t).value == s.(attempts := s.attempts[t.id := t])
  {
    var m := s.attempts[t.id := t];
    if t.id !in s.attempts && UniqueAttempts(m) {
      forall id | id in s.attempts ensures !Clash(s.attempts[id], t) {
        assert Clash(m[id], m[t.id]) ==> id == t.id;
      }
    }
  }
}
