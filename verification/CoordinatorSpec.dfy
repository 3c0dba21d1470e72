/**
 What each coordinator operation does, as a function of the whole state. Every function stands for
 one body executed under the coordinator's lock; saving copies the state to `disk`.
 */
module CoordinatorSpec {
  import opened Prelude
  import opened Wakes

  datatype Error = InvalidArgument | PolicyViolation | IndexError

  datatype WakeStatus =
    | Idle | StandbyStatus | ClaimedStatus | TransportUncertain | OwnerInput | EscalationDue
    | WaitingModelAck | WebBackoff | WebCooldownStatus | XListenerActive | BrowserPreflight | PendingStatus

  datatype Response =
    | Failed(error: Error)
    | Armed(coalesced: bool, deduplicated: bool, continuation: Option<string>)
    | StatusOf(status: WakeStatus, ready: bool)
    | NotClaimed
    | Claimed(claimId: string, message: string, continuation: Option<string>)
    | NotAccepted
    | Accepted(continuation: Option<string>, finished: bool, next: Option<string>)
    | ModelAcked(channel: string, batched: seq<string>)
    | Flag(value: bool)

  datatype Conflict = Coalesce | Reject

  datatype ArmRequest = ArmRequest(
    channel: string,
    message: string,
    delay: real,
    conflict: Conflict,
    modelAckRequired: bool,
    maxAttempts: int,
    retryDelays: seq<real>,
    escalationDelay: real,
    escalationMessage: Option<string>)

  // ---------------------------------------------------------------- persistence

  function LiveCooldowns(m: map<string, real>, now: real): map<string, real> {
    map k | k in m && m[k] > now :: m[k]
  }

  function LiveGlobal(until: real, now: real): real {
    if until <= now then 0.0 else until
  }

  /** `_save_state`: drop expired cooldowns, then write everything out. */
  function Save(s: State, now: real): State {
    var c := LiveCooldowns(s.cooldownUntil, now);
    var g := LiveGlobal(s.globalCooldownUntil, now);
    s.(cooldownUntil := c, globalCooldownUntil := g, disk := Disk(s.pending, c, g, s.leases))
  }

  predicate Loadable(channel: string, w: Wake) {
    ValidChannel(channel) && 1 <= |w.message| <= MAX_BATCH_MESSAGE_CHARS
  }

  /** The first `MAX_CHANNELS` entries of a file; which ones a longer file keeps is left open. */
  ghost function FirstChannels<T>(m: map<string, T>): map<string, T> {
    if |m| <= MAX_CHANNELS then m
    else
      var keys: set<string> := Subset(m.Keys, MAX_CHANNELS);
      map k | k in keys :: m[k]
  }

  ghost function Subset(s: set<string>, n: nat): (r: set<string>)
    requires |s| >= n
    ensures r <= s && |r| == n
  {
    if |s| == n then s else
      var x :| x in s;
      Subset(s - {x}, n)
  }

  function LoadedWakes(stored: map<string, Wake>): map<string, Wake> {
    map c | c in stored && Loadable(c, stored[c]) :: stored[c]
  }

  function LoadedCooldowns(stored: map<string, real>, now: real): map<string, real> {
    map c | c in stored && ValidChannel(c) && stored[c] > now :: stored[c]
  }

  function LoadedLeases(stored: map<string, Lease>): map<string, Lease> {
    map c | c in stored && ValidChannel(c) && 10 <= |stored[c].leaseId| <= 128 :: stored[c]
  }

  /** `_load_state` in a fresh process at time `now`. */
  ghost function Load(disk: Disk, preflightRequired: bool, now: real): State {
    State(
      LoadedWakes(FirstChannels(disk.pending)),
      LoadedCooldowns(FirstChannels(disk.cooldownUntil), now),
      LiveGlobal(disk.globalCooldownUntil, now),
      LoadedLeases(FirstChannels(disk.leases)),
      now, preflightRequired, disk)
  }

  // ---------------------------------------------------------------- batching

  /** What the promotion loop has sorted after some queue entries. */
  datatype Packing = Packing(
    active: seq<string>, activeEscalations: seq<string>,
    remaining: seq<string>, remainingEscalations: seq<string>)

  predicate Fits(active: seq<string>, message: string) {
    active == [] || |Batch(active + [message])| <= MAX_BATCH_MESSAGE_CHARS
  }

  function PackOne(p: Packing, message: string, escalation: string): Packing {
    if Fits(p.active, message) then
      p.(active := p.active + [message], activeEscalations := p.activeEscalations + [escalation])
    else
      p.(remaining := p.remaining + [message], remainingEscalations := p.remainingEscalations + [escalation])
  }

  /** The loop of `_promote_queued_locked` after `n` entries of the zipped queues. */
  function Pack(queued: seq<string>, escalations: seq<string>, n: nat): Packing
    requires n <= |queued| && n <= |escalations|
  {
    if n == 0 then Packing([], [], [], [])
    else PackOne(Pack(queued, escalations, n - 1), queued[n - 1], escalations[n - 1])
  }

  function ZipLength(w: Wake): nat {
    if |w.queued| <= |w.queuedEscalations| then |w.queued| else |w.queuedEscalations|
  }

  function FreshWake(message: string, availableAt: real, createdAt: real): Wake {
    Wake(message, availableAt, createdAt, None, None, None, false, false, 0, 1, [], 0.0, None, None, None,
         false, None, None, None, None, false, None, [], [])
  }

  function Promoted(s: State, channel: string, w: Wake, now: real, token: string): Wake {
    var p := Pack(w.queued, w.queuedEscalations, ZipLength(w));
    FreshWake(Batch(p.active), Max(now + JOB_WAKE_DEBOUNCE, WebCooldown(s, channel)), now).(
      continuationId := Some(token),
      modelAckRequired := true,
      maxAttempts := w.maxAttempts,
      retryDelays := w.retryDelays,
      escalationDelay := w.escalationDelay,
      escalationMessage := BoundedEscalation(p.activeEscalations),
      queued := p.remaining,
      queuedEscalations := p.remainingEscalations)
  }

  function PromotedId(w: Wake, token: string): Option<string> {
    if w.queued == [] then None else Some(token)
  }

  /** `_promote_queued_locked`: drop a finished wake, or start the next one from its queue. */
  function Promote(s: State, channel: string, w: Wake, now: real, token: string): State {
    if w.queued == [] then s.(pending := s.pending - {channel})
    else s.(pending := s.pending[channel := Promoted(s, channel, w, now, token)])
  }

  // ---------------------------------------------------------------- arm

  predicate ValidArm(r: ArmRequest) {
    && ValidChannel(r.channel)
    && ValidMessage(r.message)
    && ValidDelay(r.delay)
    && 1 <= r.maxAttempts <= MODEL_ACK_MAX_ATTEMPTS
    && (forall i | 0 <= i < |r.retryDelays| :: ValidDelay(r.retryDelays[i]))
    && (r.modelAckRequired ==> |r.retryDelays| == r.maxAttempts - 1)
    && (!r.modelAckRequired ==> r.retryDelays == [])
    && ValidDelay(r.escalationDelay)
    && (r.escalationMessage.Some? ==> 1 <= |Strip(r.escalationMessage.value)| <= MAX_ESCALATION_CHARS)
  }

  function Stripped(m: Option<string>): Option<string> {
    if m.Some? then Some(Strip(m.value)) else None
  }

  predicate Duplicate(w: Wake, message: string) {
    message in Parts(w.message) || message in w.queued
  }

  predicate BatchFull(w: Wake) {
    |Parts(w.message)| + |w.queued| >= MAX_BATCH_EVENTS
  }

  predicate MergesIntoCurrent(w: Wake, message: string) {
    && w.attempts == 0
    && w.claimId.None?
    && !w.modelAcknowledged
    && |Batch(Parts(w.message) + [message])| <= MAX_VISIBLE_REASON_CHARS
  }

  function MergedAvailableAt(w: Wake, delay: real, now: real, cooldown: real): real {
    if delay > 0.0 then Max(Max(w.availableAt, Min(w.createdAt + MAX_BATCH_DEBOUNCE_WINDOW, now + delay)), cooldown)
    else w.availableAt
  }

  /** The wake after one more message was merged into its batch or queued behind it. */
  function CoalescedWith(w: Wake, message: string, escalation: string, delay: real, now: real, cooldown: real): Wake {
    if MergesIntoCurrent(w, message) then
      w.(message := Batch(Parts(w.message) + [message]),
         preflightAuthorizedAt := None,
         escalationMessage := BoundedEscalation([w.escalationMessage.GetOr(""), escalation]),
         availableAt := MergedAvailableAt(w, delay, now, cooldown))
    else
      w.(queued := w.queued + [message], queuedEscalations := w.queuedEscalations + [escalation])
  }

  function Coalesced(s: State, r: ArmRequest, w: Wake, now: real): Wake {
    CoalescedWith(w, r.message, Stripped(r.escalationMessage).GetOr(""), r.delay, now, WebCooldown(s, r.channel))
  }

  function ArmedWake(s: State, r: ArmRequest, now: real, token: string): Wake {
    FreshWake(r.message, Max(now + r.delay, WebCooldown(s, r.channel)), now).(
      continuationId := if r.modelAckRequired then Some(token) else None,
      modelAckRequired := r.modelAckRequired,
      maxAttempts := r.maxAttempts,
      retryDelays := r.retryDelays,
      escalationDelay := r.escalationDelay,
      escalationMessage := Stripped(r.escalationMessage))
  }

  predicate Coalesces(s: State, r: ArmRequest) {
    r.channel in s.pending && r.conflict.Coalesce? && s.pending[r.channel].modelAckRequired
  }

  /** `arm`, with `_coalesce_resilient_locked` inlined. */
  function Arm(s: State, r: ArmRequest, now: real, token: string): (State, Response) {
    if !ValidArm(r) then (s, Failed(InvalidArgument))
    else if Coalesces(s, r) then
      var w := s.pending[r.channel];
      if Duplicate(w, r.message) then (Save(s, now), Armed(true, true, w.continuationId))
      else if BatchFull(w) then (s, Failed(PolicyViolation))
      else (Save(s.(pending := s.pending[r.channel := Coalesced(s, r, w, now)]), now), Armed(true, false, w.continuationId))
    else if r.channel in s.pending && LeaseActive(s.pending[r.channel], now) then (s, Failed(PolicyViolation))
    else if r.channel in s.pending && r.conflict.Reject? then (s, Failed(PolicyViolation))
    else if r.channel !in s.pending && |s.pending| >= MAX_CHANNELS then (s, Failed(PolicyViolation))
    else
      var w := ArmedWake(s, r, now, token);
      (Save(s.(pending := s.pending[r.channel := w]), now), Armed(r.channel in s.pending, false, w.continuationId))
  }

  // ---------------------------------------------------------------- status and claim

  function Touch(s: State, channel: string, lease: Option<string>, now: real): State {
    if LeaseIsCurrent(s, channel, lease)
    then s.(leases := s.leases[channel := s.leases[channel].(refreshedAt := now)])
    else s
  }

  /** The heartbeat of an X poll; direct polls leave the lease alone. */
  function TouchX(s: State, channel: string, lease: Option<string>, mode: Mode, now: real): State {
    if mode.X? then Touch(s, channel, lease, now) else s
  }

  /** What one reading of the guards sees; `backoff` is the time stored in the web-backoff file, 0 without one. */
  datatype Reading = Reading(
    claimed: bool, exhausted: bool, expired: bool, webBlocked: bool, cooldownBlocked: bool,
    listenerBlocked: bool, preflightBlocked: bool)

  ghost function Read(s: State, channel: string, w: Wake, lease: Option<string>, mode: Mode, now: real, backoff: real): Reading {
    var claimed := LeaseActive(w, now);
    var exhausted := Exhausted(w);
    var expired := mode.X? && UndeliveredExpired(w, now);
    var webBlocked := !w.delivered && backoff > now;
    var cooldownBlocked := !w.delivered && (WebCooldown(s, channel) > now || OtherClaimActive(s.pending, channel, now));
    var listenerBlocked := mode.Direct? && ListenerBlocksDirect(w, now, ListenerActive(s, channel, now));
    var preflightBlocked :=
      && mode.X? && !w.delivered && !claimed && !exhausted && !expired && !webBlocked && !cooldownBlocked
      && now >= w.availableAt
      && !(PreflightAuthorized(s.preflightRequired, w, now) || LeaseIsCurrent(s, channel, lease));
    Reading(claimed, exhausted, expired, webBlocked, cooldownBlocked, listenerBlocked, preflightBlocked)
  }

  predicate Ready(w: Wake, r: Reading, now: real) {
    && !r.claimed
    && !DeliveryBlocked(w)
    && !r.exhausted
    && !r.expired
    && !w.delivered
    && !r.webBlocked
    && !r.cooldownBlocked
    && !r.listenerBlocked
    && !r.preflightBlocked
    && now >= w.availableAt
  }

  /** `(escalation_at or inf) <= now`: an absent or zero time is never due. */
  predicate EscalationIsDue(w: Wake, now: real) {
    w.escalationAt.Some? && w.escalationAt.value != 0.0 && w.escalationAt.value <= now
  }

  function Describe(w: Wake, r: Reading, now: real): WakeStatus {
    if r.claimed then ClaimedStatus
    else if w.disposition == Some(Uncertain) then TransportUncertain
    else if w.ownerInputRequired then OwnerInput
    else if r.expired then EscalationDue
    else if w.delivered || r.exhausted then (if EscalationIsDue(w, now) then EscalationDue else WaitingModelAck)
    else if r.webBlocked then WebBackoff
    else if r.cooldownBlocked then WebCooldownStatus
    else if r.listenerBlocked then XListenerActive
    else if r.preflightBlocked then BrowserPreflight
    else if w.modelAckRequired && w.attempts > 0 && !Ready(w, r, now) then WaitingModelAck
    else PendingStatus
  }

  /** The state a status poll reads: touched, and an acknowledged wake promoted. */
  function StatusState(s: State, channel: string, lease: Option<string>, mode: Mode, now: real, token: string): State {
    if !LeaseMatches(s, channel, lease, mode) then s
    else
      var t := TouchX(s, channel, lease, mode, now);
      if channel in t.pending && t.pending[channel].modelAcknowledged && !LeaseActive(t.pending[channel], now)
      then Save(Promote(t, channel, t.pending[channel], now, token), now)
      else t
  }

  ghost function Status(s: State, channel: string, lease: Option<string>, mode: Mode, now: real, backoff: real, token: string)
    : (State, Response)
  {
    if !ValidChannel(channel) then (s, Failed(InvalidArgument))
    else if !LeaseMatches(s, channel, lease, mode) then (s, StatusOf(StandbyStatus, false))
    else
      var t := StatusState(s, channel, lease, mode, now, token);
      if channel !in t.pending then (t, StatusOf(Idle, false))
      else
        var w := t.pending[channel];
        var r := Read(t, channel, w, lease, mode, now, backoff);
        (t, StatusOf(Describe(w, r, now), Ready(w, r, now)))
  }

  ghost predicate CanClaim(s: State, channel: string, lease: Option<string>, mode: Mode, now: real, backoff: real) {
    && channel in s.pending
    && var w := s.pending[channel];
    && now >= w.availableAt
    && backoff <= now
    && WebCooldown(s, channel) <= now
    && !OtherClaimActive(s.pending, channel, now)
    && !(mode.Direct? && ListenerBlocksDirect(w, now, ListenerActive(s, channel, now)))
    && !LeaseActive(w, now)
    && !w.delivered
    && !w.modelAcknowledged
    && !DeliveryBlocked(w)
    && (mode.Direct? || !UndeliveredExpired(w, now))
    && (mode.X? ==> LeaseIsCurrent(s, channel, lease) || PreflightAuthorized(s.preflightRequired, w, now))
    && !Exhausted(w)
  }

  /** The indexing of `retry_delays_seconds` below needs one delay per gap between attempts. */
  predicate RetriesCover(w: Wake) {
    w.modelAckRequired && !Exhausted(w) ==> 0 <= w.attempts && |w.retryDelays| >= w.maxAttempts - 1
  }

  function ClaimedWake(w: Wake, now: real, token: string): Wake
    requires RetriesCover(w) && !Exhausted(w)
  {
    var expires := now + LEASE_SECONDS;
    var base := w.(claimId := Some(token), leaseExpiresAt := Some(expires), preflightAuthorizedAt := None);
    if !w.modelAckRequired then base
    else if w.attempts + 1 < w.maxAttempts then
      base.(attempts := w.attempts + 1, availableAt := expires + w.retryDelays[w.attempts])
    else
      base.(attempts := w.attempts + 1, availableAt := expires, escalationAt := Some(expires + w.escalationDelay))
  }

  ghost function Claim(s: State, channel: string, lease: Option<string>, mode: Mode, now: real, backoff: real, token: string)
    : (State, Response)
  {
    if !ValidChannel(channel) then (s, Failed(InvalidArgument))
    else if !LeaseMatches(s, channel, lease, mode) then (s, NotClaimed)
    else
      var t := TouchX(s, channel, lease, mode, now);
      if !CanClaim(t, channel, lease, mode, now, backoff) then (t, NotClaimed)
      else if !RetriesCover(t.pending[channel]) then (t, Failed(IndexError))
      else
        var w := t.pending[channel];
        (Save(t.(pending := t.pending[channel := ClaimedWake(w, now, token)]), now),
         Claimed(token, w.message, w.continuationId))
  }

  // ---------------------------------------------------------------- outcomes

  /** A completed web turn holds the lane for `MIN_WEB_TURN_INTERVAL`. */
  function Cool(s: State, channel: string, now: real): State {
    var until := now + MIN_WEB_TURN_INTERVAL;
    var own := if channel in s.cooldownUntil then s.cooldownUntil[channel] else 0.0;
    s.(globalCooldownUntil := Max(s.globalCooldownUntil, until),
       cooldownUntil := s.cooldownUntil[channel := Max(own, until)])
  }

  predicate HoldsClaim(s: State, channel: string, claimId: string) {
    channel in s.pending && s.pending[channel].claimId == Some(claimId)
  }

  function FinalizedWake(w: Wake, name: string, d: Disposition, detail: Option<string>, now: real): Wake {
    var base := w.(
      transportName := Some(name), disposition := Some(d), detail := BoundedDetail(detail),
      ownerInputRequired := d.OwnerInputRequired?, claimId := None, leaseExpiresAt := None);
    if d.Delivered? then
      base.(delivered := true, deliveredAt := Some(now),
            availableAt := if w.modelAcknowledged then w.availableAt else now,
            escalationAt := if w.modelAcknowledged then w.escalationAt else Some(now + w.escalationDelay))
    else if d.NotSubmitted? then base
    else base.(escalationAt := Some(now))
  }

  /** `finalize_transport`: the result of one direct delivery of a claimed continuation. */
  function Finalize(s: State, channel: string, claimId: string, name: string, d: Disposition, detail: Option<string>,
                    now: real, token: string): (State, Response)
  {
    if !ValidChannel(channel) || !ValidTransportName(name) then (s, Failed(InvalidArgument))
    else if !HoldsClaim(s, channel, claimId) || s.pending[channel].continuationId.None? then (s, NotAccepted)
    else
      var w := s.pending[channel];
      var f := FinalizedWake(w, name, d, detail, now);
      var t := s.(pending := s.pending[channel := f]);
      if !d.Delivered? then (Save(t, now), Accepted(w.continuationId, false, None))
      else
        var u := Cool(t, channel, now);
        if w.modelAcknowledged
        then (Save(Promote(u, channel, f, now, token), now), Accepted(w.continuationId, true, PromotedId(f, token)))
        else (Save(u, now), Accepted(w.continuationId, false, None))
  }

  function AckedWake(w: Wake, now: real): Wake {
    w.(claimId := None, leaseExpiresAt := None, delivered := true, deliveredAt := Some(now),
       availableAt := now, escalationAt := Some(now + w.escalationDelay))
  }

  /** `ack`: the X iframe reports that the claimed turn was submitted. */
  function Ack(s: State, channel: string, claimId: string, lease: Option<string>, now: real, token: string)
    : (State, Response)
  {
    if !ValidChannel(channel) then (s, Failed(InvalidArgument))
    else if !LeaseMatches(s, channel, lease, X) then (s, NotAccepted)
    else
      var t := Touch(s, channel, lease, now);
      if !HoldsClaim(t, channel, claimId) then (t, NotAccepted)
      else
        var w := t.pending[channel];
        var u := Cool(t, channel, now);
        if w.modelAckRequired && w.modelAcknowledged
        then (Save(Promote(u, channel, w, now, token), now), Accepted(w.continuationId, true, PromotedId(w, token)))
        else if !w.modelAckRequired
        then (Save(u.(pending := u.pending - {channel}), now), Accepted(w.continuationId, true, None))
        else (Save(u.(pending := u.pending[channel := AckedWake(w, now)]), now), Accepted(w.continuationId, false, None))
  }

  predicate Holds(s: State, channel: string, continuation: string) {
    channel in s.pending && s.pending[channel].continuationId == Some(continuation)
  }

  /** No two wakes carry the same continuation. */
  ghost predicate UniqueContinuations(s: State) {
    forall c, d | c in s.pending && d in s.pending && s.pending[c].continuationId.Some?
                  && s.pending[c].continuationId == s.pending[d].continuationId :: c == d
  }

  /** The channel whose wake carries the continuation; scans of `_pending` stop at the first one. */
  ghost function ChannelOf(s: State, continuation: string): (r: Option<string>)
    ensures r.Some? ==> Holds(s, r.value, continuation)
    ensures r.None? ==> forall c | c in s.pending :: !Holds(s, c, continuation)
  {
    if exists c :: c in s.pending && Holds(s, c, continuation) then
      var c :| c in s.pending && Holds(s, c, continuation);
      Some(c)
    else None
  }

  /** `model_ack`: the model took the batch; later queued events are handed out in the answer. */
  ghost function ModelAck(s: State, continuation: string, now: real): (State, Response) {
    if !ValidContinuation(continuation) then (s, Failed(InvalidArgument))
    else match ChannelOf(s, continuation)
      case None => (s, Flag(false))
      case Some(channel) =>
        var w := s.pending[channel];
        var emptied := w.(queued := [], queuedEscalations := [], modelAcknowledged := true);
        var t := if LeaseActive(w, now) then s.(pending := s.pending[channel := emptied])
                 else s.(pending := s.pending - {channel});
        (Save(t, now), ModelAcked(channel, w.queued))
  }

  /** `observe_model_turn`: model activity extends the cooldown, nothing else. */
  function Observe(s: State, channel: string, continuation: string, now: real): (State, Response) {
    if !ValidChannel(channel) || !ValidContinuation(continuation) then (s, Failed(InvalidArgument))
    else if !Holds(s, channel, continuation) || !s.pending[channel].delivered || s.pending[channel].modelAcknowledged
    then (s, Flag(false))
    else (Save(Cool(s, channel, now), now), Flag(true))
  }

  // ---------------------------------------------------------------- pre-claim authentication

  function AuthDetail(detail: Option<string>): string {
    var text := "auth_preflight: " + BoundedDetail(detail).GetOr("");
    if |text| > MAX_TRANSPORT_DETAIL_CHARS then text[..MAX_TRANSPORT_DETAIL_CHARS] else text
  }

  function BlockedWake(w: Wake, name: string, detail: Option<string>, now: real): Wake {
    w.(ownerInputRequired := true, transportName := Some(name), disposition := Some(OwnerInputRequired),
       detail := Some(AuthDetail(detail)), escalationAt := Some(now))
  }

  function MarkPreclaim(s: State, channel: string, continuation: string, name: string, detail: Option<string>, now: real)
    : (State, Response)
  {
    if !ValidChannel(channel) || !ValidContinuation(continuation) || !ValidTransportName(name)
    then (s, Failed(InvalidArgument))
    else if !Holds(s, channel, continuation) || s.pending[channel].claimId.Some? || s.pending[channel].delivered
         || s.pending[channel].modelAcknowledged || DeliveryBlocked(s.pending[channel])
    then (s, Flag(false))
    else
      var w := BlockedWake(s.pending[channel], name, detail, now);
      (Save(s.(pending := s.pending[channel := w]), now), Flag(true))
  }

  predicate StartsWith(s: string, prefix: string) {
    |prefix| <= |s| && s[..|prefix|] == prefix
  }

  predicate LegacyAuthMarker(detail: string) {
    || StartsWith(detail, "Probe failed") || StartsWith(detail, "Probe process")
    || StartsWith(detail, "Target ChatGPT page requires login")
  }

  predicate Releasable(w: Wake, name: string) {
    && w.ownerInputRequired
    && w.disposition == Some(OwnerInputRequired)
    && w.transportName == Some(name)
    && (StartsWith(w.detail.GetOr(""), "auth_preflight:") || LegacyAuthMarker(w.detail.GetOr("")))
    && !w.delivered && !w.modelAcknowledged && w.claimId.None?
  }

  function ReleasedWake(w: Wake, now: real): Wake {
    w.(attempts := if LegacyAuthMarker(w.detail.GetOr("")) && w.attempts > 0 then w.attempts - 1 else w.attempts,
       ownerInputRequired := false, transportName := None, disposition := None, detail := None,
       escalationAt := None, escalationNotifiedAt := None, availableAt := Min(w.availableAt, now))
  }

  function ClearPreclaim(s: State, channel: string, continuation: string, name: string, now: real): (State, Response) {
    if !ValidChannel(channel) || !ValidContinuation(continuation) || !ValidTransportName(name)
    then (s, Failed(InvalidArgument))
    else if !Holds(s, channel, continuation) || !Releasable(s.pending[channel], name) then (s, Flag(false))
    else (Save(s.(pending := s.pending[channel := ReleasedWake(s.pending[channel], now)]), now), Flag(true))
  }

  function AuthorizePreflight(s: State, channel: string, continuation: string, now: real): (State, Response) {
    if !ValidChannel(channel) || !ValidContinuation(continuation) then (s, Failed(InvalidArgument))
    else if !Holds(s, channel, continuation) || !s.pending[channel].modelAckRequired || s.pending[channel].delivered
         || s.pending[channel].modelAcknowledged || DeliveryBlocked(s.pending[channel])
         || UndeliveredExpired(s.pending[channel], now) || LeaseActive(s.pending[channel], now)
    then (s, Flag(false))
    else
      var w := s.pending[channel].(preflightAuthorizedAt := Some(now));
      (Save(s.(pending := s.pending[channel := w]), now), Flag(true))
  }

  // ---------------------------------------------------------------- escalation, cancellation, leases

  ghost function MarkEscalation(s: State, continuation: string, now: real): (State, Response) {
    if !ValidContinuation(continuation) then (s, Failed(InvalidArgument))
    else match ChannelOf(s, continuation)
      case None => (s, Flag(false))
      case Some(channel) =>
        var w := s.pending[channel];
        if w.escalationNotifiedAt.Some? then (s, Flag(true))
        else (Save(s.(pending := s.pending[channel := w.(escalationNotifiedAt := Some(now))]), now), Flag(true))
  }

  /** Why a wake is reported to the owner. */
  datatype Notice = UndeliveredTimeout | UncertainDelivery | OwnerNeeded | DeliveryExhausted

  /** `escalations_due` for one wake. */
  function NoticeFor(w: Wake, now: real): Option<Notice> {
    if w.continuationId.None? || w.modelAcknowledged || w.escalationNotifiedAt.Some? then None
    else if UndeliveredExpired(w, now) then Some(UndeliveredTimeout)
    else if w.disposition == Some(Uncertain) then Some(UncertainDelivery)
    else if w.disposition == Some(OwnerInputRequired) then Some(OwnerNeeded)
    else if w.escalationAt.Some? && w.escalationAt.value <= now && (w.delivered || w.attempts >= w.maxAttempts)
    then Some(DeliveryExhausted)
    else None
  }

  ghost function Resolve(s: State, continuation: string, now: real): (State, Response) {
    if !ValidContinuation(continuation) then (s, Failed(InvalidArgument))
    else match ChannelOf(s, continuation)
      case None => (s, Flag(false))
      case Some(channel) => (Save(s.(pending := s.pending - {channel}), now), Flag(true))
  }

  /** `cancel_pending` fails closed on anything claimed, submitted or uncertain. */
  function Cancel(s: State, channel: string, now: real): (State, Response) {
    if !ValidChannel(channel) then (s, Failed(InvalidArgument))
    else if channel !in s.pending then (s, Flag(false))
    else if s.pending[channel].claimId.Some? || s.pending[channel].delivered || DeliveryBlocked(s.pending[channel])
    then (s, Failed(PolicyViolation))
    else (Save(s.(pending := s.pending - {channel}), now), Flag(true))
  }

  /** Any lease that `issue_delivery_lease` may install. */
  function InstallLease(s: State, channel: string, lease: Lease, now: real): (State, Response) {
    if !ValidChannel(channel) then (s, Failed(InvalidArgument))
    else (Save(s.(leases := s.leases[channel := lease]), now), Flag(true))
  }
}
