/** Checkouts and subscriptions name each other. */
module Bindings {
  import opened Wrappers
  import opened Model

  /** Every subscription is named by its checkout, of the same processor, and a checkout names a subscription that
      carries it. */
  ghost predicate Bound(s: Store) {
    && (forall ref :: ref in s.subs ==> Names(s, s.subs[ref].checkoutId, ref))
    && (forall id :: id in s.checkouts ==>
          s.checkouts[id].id == id
          && (s.checkouts[id].subscriptionRef.Some? ==> Carries(s, s.checkouts[id].subscriptionRef.value, id)))
  }

  ghost predicate Names(s: Store, id: string, ref: string)
    requires ref in s.subs
  {
    id in s.checkouts && s.checkouts[id].subscriptionRef == Some(ref) && s.checkouts[id].family == s.subs[ref].family
  }

  ghost predicate Carries(s: Store, ref: string, id: string) {
    ref in s.subs && s.subs[ref].checkoutId == id
  }

  /** The correspondence is one to one. */
  lemma OneToOne(s: Store, ref: string, id: string)
    requires Bound(s) && ref in s.subs && id in s.checkouts
    ensures s.subs[ref].checkoutId == id <==> s.checkouts[id].subscriptionRef == Some(ref)
    ensures forall other :: other in s.subs && other != ref ==> s.subs[other].checkoutId != s.subs[ref].checkoutId
  {
    forall other | other in s.subs && s.subs[other].checkoutId == s.subs[ref].checkoutId ensures other == ref {
      assert Names(s, s.subs[ref].checkoutId, ref) && Names(s, s.subs[other].checkoutId, other);
    }
  }
}
