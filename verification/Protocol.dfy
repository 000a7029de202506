/**
 * The consumer-visible protocol: identifiers (internal/protocol/identifiers.go), statuses, event types,
 * callbacks and snapshots with their validators (internal/protocol/types.go:182-348).
 */
module Protocol {
  import opened Wrappers
  import opened Calendar
  import T = Timestamps

  const NAME := "subscription-bridge"
  const VERSION := 1
  const CHECKOUT_PREFIX := "subchk_"
  const SUBSCRIPTION_PREFIX := "sub_"
  const EVENT_PREFIX := "evt_"
  const MAX_IDENTIFIER_LENGTH := 160
  const MAX_PLAN_ID_BYTES := 128

  /** Why a protocol object, a transition or a store operation fails. */
  datatype Error =
    | InvalidIdentifier | InvalidPlanId | InvalidVersion | InvalidTimestamp | UnorderedPeriod | InvalidProtocol
    | InvalidStatus | CancelFlagMismatch | InvalidEventStatus | InvalidEventType
    | NotFound | Conflict | NotOwned | ChargeBlocked | UnknownPlan
    | UnknownStripePrice | ManualReview | CheckoutConflict | CheckoutTerminal | WrongAttemptStatus

  /** A subscription status; Other stands for every text that is not one of the five, the empty text included. */
  datatype Status = Active | Trialing | PastDue | Canceled | Expired | Other(text: string)

  datatype EventType = Activated | Renewed | WentPastDue | WasCanceled | WasExpired | PlanChanged | Sync

  // ---------- identifiers ----------

  predicate IdentifierChar(c: char) {
    'A' <= c <= 'Z' || 'a' <= c <= 'z' || '0' <= c <= '9' || c == '_' || c == '-'
  }

  predicate ValidOpaqueId(value: string, prefix: string) {
    && prefix <= value
    && |prefix| < |value| <= MAX_IDENTIFIER_LENGTH
    && forall c :: c in value[|prefix|..] ==> IdentifierChar(c)
  }

  /** Bytes of a character in UTF-8 (section 3 of RFC 3629). */
  function Utf8Width(c: char): nat {
    if c as int < 0x80 then 1 else if c as int < 0x800 then 2 else if c as int < 0x10000 then 3 else 4
  }

  function Utf8Length(s: string): nat {
    if s == "" then 0 else Utf8Width(s[0]) + Utf8Length(s[1..])
  }

  /** White space as Go's unicode package defines it. */
  predicate IsSpace(c: char) {
    var n := c as int;
    || 0x09 <= n <= 0x0D || n == 0x20 || n == 0x85 || n == 0xA0 || n == 0x1680 || 0x2000 <= n <= 0x200A
    || n == 0x2028 || n == 0x2029 || n == 0x202F || n == 0x205F || n == 0x3000
  }

  predicate ValidPlanId(id: string) {
    (exists c :: c in id && !IsSpace(c)) && Utf8Length(id) <= MAX_PLAN_ID_BYTES
  }

  /** An identifier is its prefix and, up to 160 characters in all, letters, digits, underscores and hyphens. */
  lemma OpaqueIdExactly(prefix: string, rest: string)
    ensures ValidOpaqueId(prefix + rest, prefix) <==>
            && 1 <= |rest| && |prefix| + |rest| <= 160
            && forall k :: 0 <= k < |rest| ==>
                 'A' <= rest[k] <= 'Z' || 'a' <= rest[k] <= 'z' || '0' <= rest[k] <= '9' || rest[k] in {'_', '-'}
  {
    var value := prefix + rest;
    assert value[|prefix|..] == rest;
    if ValidOpaqueId(value, prefix) {
      forall k | 0 <= k < |rest|
        ensures 'A' <= rest[k] <= 'Z' || 'a' <= rest[k] <= 'z' || '0' <= rest[k] <= '9' || rest[k] in {'_', '-'}
      {
        assert rest[k] in value[|prefix|..];
      }
    }
  }

  /** A plan of up to 128 ASCII characters that are not all white is valid, and no longer one is. */
  lemma PlanIdExactly(id: string)
    ensures ValidPlanId(id) ==> |id| <= 128 && exists k :: 0 <= k < |id| && !IsSpace(id[k])
    ensures (forall k :: 0 <= k < |id| ==> id[k] as int < 0x80) ==>
              (ValidPlanId(id) <==> |id| <= 128 && exists k :: 0 <= k < |id| && !IsSpace(id[k]))
  {
    Utf8Bounds(id);
    if exists k :: 0 <= k < |id| && !IsSpace(id[k]) {
      var k :| 0 <= k < |id| && !IsSpace(id[k]);
      assert id[k] in id;
    }
  }

  lemma {:induction false} Utf8Bounds(id: string)
    ensures |id| <= Utf8Length(id)
    ensures (forall k :: 0 <= k < |id| ==> id[k] as int < 0x80) ==> Utf8Length(id) == |id|
  {
    if id != "" { Utf8Bounds(id[1..]); }
  }

  // ---------- status rules ----------

  /** The cancel flag belongs to the canceled status and to no other. */
  function ValidateStatusFlags(status: Status, cancelAtPeriodEnd: bool): Option<Error> {
    match status
    case Other(_) => Some(InvalidStatus)
    case Canceled => if cancelAtPeriodEnd then None else Some(CancelFlagMismatch)
    case _ => if cancelAtPeriodEnd then Some(CancelFlagMismatch) else None
  }

  function ValidateEventStatus(event: EventType, status: Status, cancelAtPeriodEnd: bool): Option<Error> {
    var flags := ValidateStatusFlags(status, cancelAtPeriodEnd);
    if flags.Some? then flags else
      match event
      case Activated => if status.Active? || status.Trialing? then None else Some(InvalidEventStatus)
      case Renewed => if status.Active? then None else Some(InvalidEventStatus)
      case WentPastDue => if status.PastDue? then None else Some(InvalidEventStatus)
      case WasCanceled => if status.Canceled? then None else Some(InvalidEventStatus)
      case WasExpired => if status.Expired? then None else Some(InvalidEventStatus)
      case PlanChanged => if status.Active? then None else Some(InvalidEventStatus)
      case Sync => Some(InvalidEventStatus)
  }

  // ---------- callbacks and snapshots ----------

  datatype Snapshot = Snapshot(
    protocol: string,
    version: int,
    checkoutId: string,
    subscriptionRef: string,
    planId: string,
    stateVersion: int,
    status: Status,
    periodStart: string,
    periodEnd: string,
    cancelAtPeriodEnd: bool,
    stateChangedAt: string)

  /** A callback is an event about a snapshot. */
  datatype Callback = Callback(
    protocol: string,
    version: int,
    eventId: string,
    eventType: EventType,
    checkoutId: string,
    subscriptionRef: string,
    planId: string,
    stateVersion: int,
    status: Status,
    periodStart: string,
    periodEnd: string,
    cancelAtPeriodEnd: bool,
    stateChangedAt: string)

  function SnapshotFromCallback(c: Callback): Snapshot {
    Snapshot(c.protocol, c.version, c.checkoutId, c.subscriptionRef, c.planId, c.stateVersion, c.status,
             c.periodStart, c.periodEnd, c.cancelAtPeriodEnd, c.stateChangedAt)
  }

  function ParseTime(text: string): Result<Instant, Error> {
    match T.ParseUTC(text)
    case Success(t) => Success(t)
    case Failure(_) => Failure(InvalidTimestamp)
  }

  /** Both validators check these fields, in this order. */
  function ValidateBody(checkoutId: string, subscriptionRef: string, planId: string, stateVersion: int,
                        periodStart: string, periodEnd: string, stateChangedAt: string): Result<(), Error> {
    if !(ValidOpaqueId(checkoutId, CHECKOUT_PREFIX)) then Failure(InvalidIdentifier) else
    :- Need(ValidOpaqueId(subscriptionRef, SUBSCRIPTION_PREFIX), InvalidIdentifier);
    :- Need(ValidPlanId(planId), InvalidPlanId);
    :- Need(stateVersion >= 1, InvalidVersion);
    var start :- ParseTime(periodStart);
    var end :- ParseTime(periodEnd);
    :- Need(end > start, UnorderedPeriod);
    var changed :- ParseTime(stateChangedAt);
    Success(())
  }

  function ValidateCallback(c: Callback): Result<(), Error> {
    if c.protocol != NAME then Failure(InvalidProtocol) else
    :- Need(c.version == VERSION, InvalidProtocol);
    :- Need(ValidOpaqueId(c.eventId, EVENT_PREFIX), InvalidIdentifier);
    var body :- ValidateBody(c.checkoutId, c.subscriptionRef, c.planId, c.stateVersion, c.periodStart, c.periodEnd,
                             c.stateChangedAt);
    match ValidateEventStatus(c.eventType, c.status, c.cancelAtPeriodEnd)
    case Some(e) => Failure(e)
    case None => Success(())
  }

  function ValidateSnapshot(s: Snapshot): Result<(), Error> {
    if s.protocol != NAME then Failure(InvalidProtocol) else
    :- Need(s.version == VERSION, InvalidProtocol);
    var body :- ValidateBody(s.checkoutId, s.subscriptionRef, s.planId, s.stateVersion, s.periodStart, s.periodEnd,
                             s.stateChangedAt);
    match ValidateStatusFlags(s.status, s.cancelAtPeriodEnd)
    case Some(e) => Failure(e)
    case None => Success(())
  }

  /** What a valid callback says is a valid snapshot. */
  lemma CallbackSnapshotValid(c: Callback)
    requires ValidateCallback(c).Success?
    ensures ValidateSnapshot(SnapshotFromCallback(c)).Success?
  {
    hide ValidateBody;
  }
}
