/**
 The coordinator's value model (`app/coordinator/service.py`): one pending wake per channel, the
 limits, and the guards every operation shares. Times are seconds as real numbers; tokens are
 opaque strings handed in by the caller.
 */
module Wakes {
  import opened Prelude
  import Text

  const MODEL_ACK_MAX_ATTEMPTS := 5
  const JOB_WAKE_DEBOUNCE := 5.0
  const MAX_BATCH_DEBOUNCE_WINDOW := 15.0
  const MIN_WEB_TURN_INTERVAL := 30.0
  const MAX_CHANNELS := 64
  const MAX_MESSAGE_CHARS := 4000
  const MAX_BATCH_MESSAGE_CHARS := 32000
  const MAX_VISIBLE_REASON_CHARS := 500
  const MAX_BATCH_EVENTS := 128
  const MAX_ESCALATION_CHARS := 3500
  const MAX_TRANSPORT_NAME_CHARS := 128
  const MAX_TRANSPORT_DETAIL_CHARS := 1000
  const BATCH_SEPARATOR: string := "\n--- bridge-batch ---\n"
  const MAX_DELAY := 300.0
  const LEASE_SECONDS := 20.0
  const BROWSER_PREFLIGHT_TTL := 15.0
  const X_LISTENER_TTL := 15.0
  const X_DIRECT_GRACE := 20.0
  const MAX_UNDELIVERED_AGE := 1800.0

  datatype Mode = X | Direct
  datatype Disposition = Delivered | NotSubmitted | Uncertain | OwnerInputRequired

  datatype Wake = Wake(
    message: string,
    availableAt: real,
    createdAt: real,
    claimId: Option<string>,
    leaseExpiresAt: Option<real>,
    continuationId: Option<string>,
    modelAckRequired: bool,
    modelAcknowledged: bool,
    attempts: int,
    maxAttempts: int,
    retryDelays: seq<real>,
    escalationDelay: real,
    escalationMessage: Option<string>,
    escalationAt: Option<real>,
    escalationNotifiedAt: Option<real>,
    delivered: bool,
    deliveredAt: Option<real>,
    transportName: Option<string>,
    disposition: Option<Disposition>,
    detail: Option<string>,
    ownerInputRequired: bool,
    preflightAuthorizedAt: Option<real>,
    queued: seq<string>,
    queuedEscalations: seq<string>)

  /** The physical chat that owns a channel's X endpoint; only what the guards read. */
  datatype Lease = Lease(leaseId: string, refreshedAt: real)

  datatype Disk = Disk(
    pending: map<string, Wake>,
    cooldownUntil: map<string, real>,
    globalCooldownUntil: real,
    leases: map<string, Lease>)

  datatype State = State(
    pending: map<string, Wake>,
    cooldownUntil: map<string, real>,
    globalCooldownUntil: real,
    leases: map<string, Lease>,
    startedAt: real,
    preflightRequired: bool,
    disk: Disk)

  // ---------------------------------------------------------------- batches

  /** `_batch_parts`. */
  function Parts(message: string): seq<string> {
    Text.Split(message, BATCH_SEPARATOR)
  }

  function Batch(parts: seq<string>): string {
    Text.Join(parts, BATCH_SEPARATOR)
  }

  /** A message that can be batched: the separator does not occur in it followed by a newline. */
  ghost predicate Clean(message: string) {
    !Text.Contains(message + "\n", BATCH_SEPARATOR)
  }

  // ---------------------------------------------------------------- guards

  predicate LeaseActive(w: Wake, now: real) {
    w.claimId.Some? && w.leaseExpiresAt.GetOr(0.0) > now
  }

  predicate DeliveryBlocked(w: Wake) {
    w.disposition == Some(Uncertain) || w.disposition == Some(OwnerInputRequired)
  }

  predicate UndeliveredExpired(w: Wake, now: real) {
    && w.continuationId.Some?
    && !w.delivered
    && !w.modelAcknowledged
    && w.createdAt + MAX_UNDELIVERED_AGE <= now
  }

  predicate Exhausted(w: Wake) {
    w.modelAckRequired && w.attempts >= w.maxAttempts
  }

  predicate PreflightAuthorized(required: bool, w: Wake, now: real) {
    || !required
    || !w.modelAckRequired
    || (w.preflightAuthorizedAt.Some? && w.preflightAuthorizedAt.value + BROWSER_PREFLIGHT_TTL > now)
  }

  /** X gets a short exclusive window before direct transport may claim. */
  predicate ListenerBlocksDirect(w: Wake, now: real, listening: bool) {
    && listening
    && !UndeliveredExpired(w, now)
    && now < w.availableAt + X_DIRECT_GRACE
  }

  function WebCooldown(s: State, channel: string): real {
    Max(s.globalCooldownUntil, if channel in s.cooldownUntil then s.cooldownUntil[channel] else 0.0)
  }

  /** Some other channel holds an unexpired claim. */
  ghost predicate OtherClaimActive(pending: map<string, Wake>, channel: string, now: real) {
    exists c | c in pending :: c != channel && LeaseActive(pending[c], now)
  }

  predicate LeaseIsCurrent(s: State, channel: string, lease: Option<string>) {
    channel in s.leases && lease == Some(s.leases[channel].leaseId)
  }

  predicate LeaseMatches(s: State, channel: string, lease: Option<string>, mode: Mode) {
    || mode.Direct?
    || (if channel in s.leases then LeaseIsCurrent(s, channel, lease) else lease.None?)
  }

  predicate ListenerActive(s: State, channel: string, now: real) {
    && channel in s.leases
    && Max(s.leases[channel].refreshedAt, s.startedAt) + X_LISTENER_TTL >= now
  }

  // ---------------------------------------------------------------- validation

  predicate IsIdChar(c: char) {
    || 'a' <= c <= 'z' || 'A' <= c <= 'Z' || '0' <= c <= '9' || c == '-' || c == '_'
  }

  predicate ValidChannel(channel: string) {
    1 <= |channel| <= 64 && forall i | 0 <= i < |channel| :: IsIdChar(channel[i])
  }

  predicate ValidContinuation(id: string) {
    && 10 <= |id| <= 80
    && id[..5] == "cont_"
    && forall i | 0 <= i < |id| :: IsIdChar(id[i])
  }

  predicate ValidMessage(message: string) {
    1 <= |message| <= MAX_MESSAGE_CHARS
  }

  predicate ValidDelay(d: real) {
    0.0 <= d <= MAX_DELAY
  }

  predicate ValidTransportName(name: string) {
    1 <= |name| <= MAX_TRANSPORT_NAME_CHARS
  }

  function BoundedDetail(detail: Option<string>): Option<string> {
    if detail.Some? && |detail.value| > MAX_TRANSPORT_DETAIL_CHARS
    then Some(detail.value[..MAX_TRANSPORT_DETAIL_CHARS])
    else detail
  }

  // ---------------------------------------------------------------- escalation text

  function StrippedNonEmpty(parts: seq<string>): seq<string> {
    if parts == [] then []
    else (if Strip(parts[0]) == "" then [] else [Strip(parts[0])]) + StrippedNonEmpty(parts[1..])
  }

  const ESCALATION_SEPARATOR: string := "\n\n--- additional terminal group ---\n"
  const ESCALATION_SUFFIX: string := "\n\U{2026} additional terminal groups omitted; inspect Bridge state."

  /** `_bounded_escalation`; a missing part is the empty string. */
  function BoundedEscalation(parts: seq<string>): Option<string> {
    var values := StrippedNonEmpty(parts);
    var combined := Text.Join(values, ESCALATION_SEPARATOR);
    if values == [] then None
    else if |combined| <= MAX_ESCALATION_CHARS then Some(combined)
    else Some(combined[..MAX_ESCALATION_CHARS - |ESCALATION_SUFFIX|] + ESCALATION_SUFFIX)
  }
}
