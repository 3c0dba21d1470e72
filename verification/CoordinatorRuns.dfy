/**
 Whole runs of the coordinator: any sequence of operations and restarts under a non-decreasing
 clock, every new token fresh. The world keeps the history the safety statements talk about.
 */
module CoordinatorRuns {
  import opened Prelude
  import opened Wakes
  import opened CoordinatorSpec

  datatype Event =
    | EArm(request: ArmRequest)
    | EStatus(channel: string, lease: Option<string>, mode: Mode, backoff: real)
    | EClaim(channel: string, lease: Option<string>, mode: Mode, backoff: real)
    | EFinalize(channel: string, claimId: string, name: string, outcome: Disposition, detail: Option<string>)
    | EAck(channel: string, claimId: string, lease: Option<string>)
    | EModelAck(continuation: string)
    | EObserve(channel: string, continuation: string)
    | EMarkPreclaim(channel: string, continuation: string, name: string, detail: Option<string>)
    | EClearPreclaim(channel: string, continuation: string, name: string)
    | EAuthorize(channel: string, continuation: string)
    | EMarkEscalation(continuation: string)
    | EResolve(continuation: string)
    | ECancel(channel: string)
    | EInstall(channel: string, installed: Lease)
    | ERestart

  /** One event at a time, with the token the operation would draw. */
  datatype Moment = Moment(event: Event, now: real, token: string)

  ghost function React(s: State, m: Moment): (State, Response) {
    match m.event
    case EArm(r) => Arm(s, r, m.now, m.token)
    case EStatus(c, l, mode, b) => Status(s, c, l, mode, m.now, b, m.token)
    case EClaim(c, l, mode, b) => Claim(s, c, l, mode, m.now, b, m.token)
    case EFinalize(c, id, n, d, t) => Finalize(s, c, id, n, d, t, m.now, m.token)
    case EAck(c, id, l) => Ack(s, c, id, l, m.now, m.token)
    case EModelAck(k) => ModelAck(s, k, m.now)
    case EObserve(c, k) => Observe(s, c, k, m.now)
    case EMarkPreclaim(c, k, n, d) => MarkPreclaim(s, c, k, n, d, m.now)
    case EClearPreclaim(c, k, n) => ClearPreclaim(s, c, k, n, m.now)
    case EAuthorize(c, k) => AuthorizePreflight(s, c, k, m.now)
    case EMarkEscalation(k) => MarkEscalation(s, k, m.now)
    case EResolve(k) => Resolve(s, k, m.now)
    case ECancel(c) => Cancel(s, c, m.now)
    case EInstall(c, l) => InstallLease(s, c, l, m.now)
    case ERestart => (Load(s.disk, s.preflightRequired, m.now), Flag(true))
  }

  /**
   `issued`: tokens drawn so far. `spent`: claim ids an ack or finalize accepted.
   `settled`: continuations recorded as delivered or uncertain. `lastDelivery`: latest delivery
   or observed model activity.
   */
  datatype World = World(
    s: State, now: real, issued: set<string>, spent: set<string>, settled: set<string>, lastDelivery: Option<real>)

  ghost predicate Enabled(w: World, m: Moment) {
    m.now >= w.now && m.token !in w.issued
  }

  function IdSet(id: Option<string>): set<string> {
    if id.Some? then {id.value} else {}
  }

  /** The claim id an accepted outcome used up. */
  function SpentBy(e: Event, r: Response): set<string> {
    if !r.Accepted? then {} else if e.EFinalize? || e.EAck? then {e.claimId} else {}
  }

  predicate SettlesDelivery(e: Event, r: Response) {
    r.Accepted? && ((e.EFinalize? && e.outcome.Delivered?) || e.EAck?)
  }

  /** A delivery, or model activity after one, that keeps the lane. */
  predicate HoldsLane(e: Event, r: Response) {
    SettlesDelivery(e, r) || (e.EObserve? && r == Flag(true))
  }

  /** The continuation an accepted outcome marked delivered or uncertain. */
  function SettledBy(e: Event, r: Response): set<string> {
    if SettlesDelivery(e, r) || (r.Accepted? && e.EFinalize? && e.outcome.Uncertain?) then IdSet(r.continuation) else {}
  }

  /** The history after an event was answered. */
  function Advance(w: World, m: Moment, out: (State, Response)): World {
    World(out.0, m.now, w.issued + {m.token},
          w.spent + SpentBy(m.event, out.1), w.settled + SettledBy(m.event, out.1),
          if HoldsLane(m.event, out.1) then Some(m.now) else w.lastDelivery)
  }

  ghost function Step(w: World, m: Moment): World {
    Advance(w, m, React(w.s, m))
  }

  ghost predicate RunEnabled(w: World, run: seq<Moment>)
    decreases |run|
  {
    |run| == 0 || (Enabled(w, run[0]) && RunEnabled(Step(w, run[0]), run[1..]))
  }

  function Boot(now: real, preflightRequired: bool): State {
    State(map[], map[], 0.0, map[], now, preflightRequired, Disk(map[], map[], 0.0, map[]))
  }

  function Start(now: real, preflightRequired: bool): World {
    World(Boot(now, preflightRequired), now, {}, {}, {}, None)
  }

  // ---------------------------------------------------------------- invariant

  predicate WakeOk(w: Wake) {
    && 1 <= |w.message| <= MAX_BATCH_MESSAGE_CHARS
    && |w.queued| == |w.queuedEscalations|
    && (forall i | 0 <= i < |w.queued| :: ValidMessage(w.queued[i]))
    && 0 <= w.attempts <= w.maxAttempts && 1 <= w.maxAttempts <= MODEL_ACK_MAX_ATTEMPTS
    && (w.continuationId.Some? <==> w.modelAckRequired)
    && (w.modelAckRequired ==> |w.retryDelays| == w.maxAttempts - 1)
    && (w.modelAcknowledged ==> w.modelAckRequired)
    && (!w.modelAckRequired ==> w.queued == [] && !w.delivered && w.disposition.None?)
    && (w.claimId.Some? ==> w.leaseExpiresAt.Some? && !w.delivered && !DeliveryBlocked(w))
    && (w.modelAckRequired && (w.claimId.Some? || w.delivered) ==> w.attempts >= 1)
  }

  /** Ids on a wake were drawn, and no claim id that was already accepted is still on one. */
  predicate IdsDrawn(w: Wake, issued: set<string>, spent: set<string>) {
    && (w.continuationId.Some? ==> w.continuationId.value in issued)
    && (w.claimId.Some? ==> w.claimId.value in issued && w.claimId.value !in spent)
  }

  predicate IdsDiffer(v: Wake, w: Wake) {
    && (v.continuationId.Some? ==> v.continuationId != w.continuationId)
    && (v.claimId.Some? ==> v.claimId != w.claimId)
  }

  ghost predicate TokensOk(pending: map<string, Wake>, issued: set<string>, spent: set<string>) {
    && (forall c | c in pending :: IdsDrawn(pending[c], issued, spent))
    && (forall c, d | c in pending && d in pending && c != d :: IdsDiffer(pending[c], pending[d]))
  }

  /** A wake whose continuation was recorded as delivered or uncertain still says so. */
  predicate SettledIsVisible(w: Wake, settled: set<string>) {
    w.continuationId.Some? && w.continuationId.value in settled ==> w.delivered || w.disposition == Some(Uncertain)
  }

  /** At most one channel holds a claim that is unexpired at `now`. */
  ghost predicate SingleLane(pending: map<string, Wake>, now: real) {
    forall c, d | c in pending && d in pending && c != d :: !LeaseActive(pending[c], now) || !LeaseActive(pending[d], now)
  }

  predicate LaneCooled(s: State, now: real, lastDelivery: Option<real>) {
    lastDelivery.Some? ==> lastDelivery.value + MIN_WEB_TURN_INTERVAL <= Max(s.globalCooldownUntil, now)
  }

  /** The state and its disk image: bounded, loadable, and equal in everything a restart needs. */
  ghost predicate StateOk(s: State, now: real) {
    && |s.pending| <= MAX_CHANNELS
    && (forall c | c in s.pending :: ValidChannel(c) && WakeOk(s.pending[c]))
    && s.disk.pending == s.pending
    && LiveGlobal(s.disk.globalCooldownUntil, now) == LiveGlobal(s.globalCooldownUntil, now)
  }

  ghost predicate Good(w: World) {
    && 0.0 <= w.now
    && StateOk(w.s, w.now)
    && TokensOk(w.s.pending, w.issued, w.spent)
    && w.settled <= w.issued && w.spent <= w.issued
    && (forall c | c in w.s.pending :: SettledIsVisible(w.s.pending[c], w.settled))
    && SingleLane(w.s.pending, w.now)
    && LaneCooled(w.s, w.now, w.lastDelivery)
  }

  lemma StartIsGood(now: real, preflightRequired: bool)
    requires 0.0 <= now
    ensures Good(Start(now, preflightRequired))
  {
  }

  // ---------------------------------------------------------------- one channel changes at a time

  ghost predicate SameElsewhere(p: map<string, Wake>, q: map<string, Wake>, channel: string) {
    forall c | c != channel :: (c in p <==> c in q) && (c in p ==> p[c] == q[c])
  }

  /** The id is absent, newly drawn, or carried over. */
  predicate IdFrom(id: Option<string>, before: Option<string>, token: string) {
    id.None? || id == Some(token) || id == before
  }

  function OldClaim(w: World, channel: string): Option<string> {
    if channel in w.s.pending then w.s.pending[channel].claimId else None
  }

  function OldContinuation(w: World, channel: string): Option<string> {
    if channel in w.s.pending then w.s.pending[channel].continuationId else None
  }

  /** What the wake left on the changed channel has to satisfy. */
  ghost predicate NewWakeOk(w: World, m: Moment, t: State, channel: string, spent: set<string>, settled: set<string>) {
    channel in t.pending ==>
      var n := t.pending[channel];
      && ValidChannel(channel) && WakeOk(n)
      && IdFrom(n.continuationId, OldContinuation(w, channel), m.token)
      && IdFrom(n.claimId, OldClaim(w, channel), m.token)
      && (n.claimId.Some? ==> n.claimId.value !in spent)
      && SettledIsVisible(n, w.settled + settled)
      && (LeaseActive(n, m.now) ==>
            (channel in w.s.pending && LeaseActive(w.s.pending[channel], m.now))
            || !OtherClaimActive(w.s.pending, channel, m.now))
  }

  ghost predicate ComesFrom(w: World, channel: string, spent: set<string>, settled: set<string>) {
    && (forall x | x in spent :: OldClaim(w, channel) == Some(x))
    && (forall x | x in settled :: OldContinuation(w, channel) == Some(x))
  }

  lemma TokensStep(w: World, m: Moment, t: State, channel: string, spent: set<string>, settled: set<string>)
    requires Good(w) && Enabled(w, m)
    requires SameElsewhere(w.s.pending, t.pending, channel) && NewWakeOk(w, m, t, channel, spent, settled)
    requires ComesFrom(w, channel, spent, settled)
    ensures TokensOk(t.pending, w.issued + {m.token}, w.spent + spent)
  {
    var p := w.s.pending;
    forall c | c in t.pending ensures IdsDrawn(t.pending[c], w.issued + {m.token}, w.spent + spent) {
      if c != channel {
        assert t.pending[c] == p[c] && IdsDrawn(p[c], w.issued, w.spent);
        if channel in p {
          assert IdsDiffer(p[c], p[channel]);
        }
      } else if channel in p {
        assert IdsDrawn(p[channel], w.issued, w.spent);
      }
    }
    forall c, d | c in t.pending && d in t.pending && c != d ensures IdsDiffer(t.pending[c], t.pending[d]) {
      if c != channel {
        assert t.pending[c] == p[c] && IdsDrawn(p[c], w.issued, w.spent);
      }
      if d != channel {
        assert t.pending[d] == p[d] && IdsDrawn(p[d], w.issued, w.spent);
      }
      if c in p && d in p {
        assert IdsDiffer(p[c], p[d]);
      }
    }
  }

  lemma LanesStep(w: World, m: Moment, t: State, channel: string, spent: set<string>, settled: set<string>)
    requires Good(w) && Enabled(w, m)
    requires SameElsewhere(w.s.pending, t.pending, channel) && NewWakeOk(w, m, t, channel, spent, settled)
    ensures SingleLane(t.pending, m.now)
  {
    forall c, d | c in t.pending && d in t.pending && c != d
      ensures !LeaseActive(t.pending[c], m.now) || !LeaseActive(t.pending[d], m.now)
    {
      assert c != channel ==> c in w.s.pending && t.pending[c] == w.s.pending[c];
      assert d != channel ==> d in w.s.pending && t.pending[d] == w.s.pending[d];
    }
  }

  lemma SettledStep(w: World, m: Moment, t: State, channel: string, spent: set<string>, settled: set<string>)
    requires Good(w) && Enabled(w, m)
    requires SameElsewhere(w.s.pending, t.pending, channel) && NewWakeOk(w, m, t, channel, spent, settled)
    requires ComesFrom(w, channel, spent, settled)
    ensures forall c | c in t.pending :: SettledIsVisible(t.pending[c], w.settled + settled)
  {
    forall c | c in t.pending ensures SettledIsVisible(t.pending[c], w.settled + settled) {
      if c != channel {
        assert t.pending[c] == w.s.pending[c];
      }
    }
  }

  lemma OneChannelStep(w: World, m: Moment, t: State, channel: string, spent: set<string>, settled: set<string>, last: Option<real>)
    requires Good(w) && Enabled(w, m)
    requires SameElsewhere(w.s.pending, t.pending, channel) && NewWakeOk(w, m, t, channel, spent, settled)
    requires ComesFrom(w, channel, spent, settled)
    requires |t.pending| <= MAX_CHANNELS && t.disk.pending == t.pending
    requires LiveGlobal(t.disk.globalCooldownUntil, m.now) == LiveGlobal(t.globalCooldownUntil, m.now)
    requires LaneCooled(t, m.now, last)
    ensures Good(World(t, m.now, w.issued + {m.token}, w.spent + spent, w.settled + settled, last))
  {
    TokensStep(w, m, t, channel, spent, settled);
    LanesStep(w, m, t, channel, spent, settled);
    SettledStep(w, m, t, channel, spent, settled);
    forall c | c in t.pending ensures ValidChannel(c) && WakeOk(t.pending[c]) {
      if c != channel {
        assert t.pending[c] == w.s.pending[c];
      }
    }
  }

  /** Saving keeps the wakes and the lane, and brings the disk up to date. */
  lemma SaveFacts(s: State, now: real, last: Option<real>)
    requires 0.0 <= now
    ensures Save(s, now).pending == s.pending == Save(s, now).disk.pending
    ensures Save(s, now).disk.globalCooldownUntil == Save(s, now).globalCooldownUntil
    ensures LaneCooled(s, now, last) ==> LaneCooled(Save(s, now), now, last)
  {
  }
}
