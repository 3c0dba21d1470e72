/**
 The retry budget over whole runs: how often one continuation can be claimed. Only a claim uses up an
 attempt, and only releasing a wake that an old sign-in failure had blocked gives one back.
 */
module Retries {
  import opened Prelude
  import opened Wakes
  import opened CoordinatorSpec
  import opened CoordinatorRuns
  import opened CoordinatorSafety
  import opened CoordinatorTheorems

  /** This step hands out continuation `k`. */
  ghost predicate ClaimsNow(s: State, m: Moment, k: string) {
    m.event.EClaim? && React(s, m).1.Claimed? && React(s, m).1.continuation == Some(k)
  }

  /** This step gives back an attempt of continuation `k`. */
  ghost predicate RefundsNow(s: State, m: Moment, k: string) {
    && m.event.EClearPreclaim? && m.event.continuation == k
    && ValidChannel(m.event.channel) && ValidContinuation(k) && ValidTransportName(m.event.name)
    && Holds(s, m.event.channel, k) && Releasable(s.pending[m.event.channel], m.event.name)
    && LegacyAuthMarker(s.pending[m.event.channel].detail.GetOr("")) && s.pending[m.event.channel].attempts > 0
  }

  ghost function Claims(w: World, run: seq<Moment>, i: nat, k: string): nat
    requires i <= |run|
  {
    if i == 0 then 0 else Claims(w, run, i - 1, k) + if ClaimsNow(At(w, run, i - 1).s, run[i - 1], k) then 1 else 0
  }

  ghost function Refunds(w: World, run: seq<Moment>, i: nat, k: string): nat
    requires i <= |run|
  {
    if i == 0 then 0 else Refunds(w, run, i - 1, k) + if RefundsNow(At(w, run, i - 1).s, run[i - 1], k) then 1 else 0
  }

  // ---------------------------------------------------------------- one step

  /** The same continuation goes on: budget and attempts as they were, and it becomes available no earlier. */
  predicate Continues(v: Wake, n: Wake) {
    && n.continuationId == v.continuationId && n.attempts == v.attempts
    && n.retryDelays == v.retryDelays && n.maxAttempts == v.maxAttempts && n.escalationDelay == v.escalationDelay
    && (n.availableAt >= v.availableAt || n.delivered)
    && (v.delivered ==> n.delivered && n.escalationAt == v.escalationAt && n.disposition == v.disposition)
    && (DeliveryBlocked(v) ==> DeliveryBlocked(n))
    && (n.escalationAt == v.escalationAt || n.delivered || DeliveryBlocked(n))
    && (v.escalationNotifiedAt.Some? ==> n.escalationNotifiedAt.Some?)
    && (v.attempts > 0 ==> n.message == v.message)
  }

  /** A wake that starts has the budget of the arm that started it or, after a promotion, of the wake before it. */
  predicate Starts(s: State, c: string, n: Wake, arm: Option<ArmRequest>) {
    n.attempts == 0
    && if arm.Some?
       then arm.value.channel == c && n.retryDelays == arm.value.retryDelays && n.maxAttempts == arm.value.maxAttempts
            && n.escalationDelay == arm.value.escalationDelay
       else c in s.pending && n.retryDelays == s.pending[c].retryDelays && n.maxAttempts == s.pending[c].maxAttempts
            && n.escalationDelay == s.pending[c].escalationDelay
  }

  ghost predicate Sound(s: State) {
    forall c | c in s.pending :: WakeOk(s.pending[c])
  }

  lemma SoundWake(s: State, c: string)
    requires Sound(s) && c in s.pending
    ensures s.pending[c].attempts >= 0
    ensures s.pending[c].claimId.Some? ==> !s.pending[c].delivered && !DeliveryBlocked(s.pending[c])
  {
  }

  lemma GoodIsSound(w: World)
    requires Good(w)
    ensures Sound(w.s)
  {
  }

  function ArmOf(e: Event): Option<ArmRequest> {
    if e.EArm? then Some(e.request) else None
  }

  /** Every wake with a continuation starts now or goes on. */
  ghost predicate Carried(s: State, t: State, token: string, arm: Option<ArmRequest>) {
    forall c | c in t.pending && t.pending[c].continuationId.Some? ::
      || (t.pending[c].continuationId == Some(token) && Starts(s, c, t.pending[c], arm))
      || (c in s.pending && Continues(s.pending[c], t.pending[c]))
  }

  lemma SameIsCarried(s: State, t: State, token: string, arm: Option<ArmRequest>)
    requires forall c | c in t.pending :: c in s.pending && t.pending[c] == s.pending[c]
    ensures Carried(s, t, token, arm)
  {
  }

  /** One wake replaced by one of the allowed kinds. */
  lemma OneEdit(s: State, u: State, c: string, n: Wake, token: string, arm: Option<ArmRequest>)
    requires u.pending == s.pending[c := n]
    requires n.continuationId.Some? ==>
               (n.continuationId == Some(token) && Starts(s, c, n, arm)) || (c in s.pending && Continues(s.pending[c], n))
    ensures Carried(s, u, token, arm)
  {
  }

  lemma PromoteCarries(s: State, u: State, channel: string, w: Wake, now: real, token: string)
    requires Carried(s, u, token, None) && channel in u.pending && channel in s.pending
    requires w.retryDelays == s.pending[channel].retryDelays && w.maxAttempts == s.pending[channel].maxAttempts
    requires w.escalationDelay == s.pending[channel].escalationDelay
    ensures Carried(s, Promote(u, channel, w, now, token), token, None)
  {
    hide BoundedEscalation, Pack, Batch;
  }

  lemma CoalescedAttempts(s: State, r: ArmRequest, w: Wake, now: real)
    requires w.attempts >= 0
    ensures Continues(w, Coalesced(s, r, w, now))
  {
    hide BoundedEscalation, Batch, Parts, WebCooldown;
  }

  lemma ArmCarries(s: State, m: Moment)
    requires m.event.EArm?
    requires Sound(s)
    ensures Carried(s, Arm(s, m.event.request, m.now, m.token).0, m.token, Some(m.event.request))
  {
    hide ValidArm, Duplicate, BatchFull, LeaseActive, LiveCooldowns, LiveGlobal, Coalesced, WebCooldown, Carried;
    var r := m.event.request;
    var (t, a) := Arm(s, r, m.now, m.token);
    if t.pending == s.pending {
      SameIsCarried(s, t, m.token, Some(r));
    } else if Coalesces(s, r) {
      SoundWake(s, r.channel);
      CoalescedAttempts(s, r, s.pending[r.channel], m.now);
      OneEdit(s, t, r.channel, Coalesced(s, r, s.pending[r.channel], m.now), m.token, Some(r));
    } else {
      OneEdit(s, t, r.channel, ArmedWake(s, r, m.now, m.token), m.token, Some(r));
    }
  }

  lemma StatusCarries(s: State, m: Moment)
    requires m.event.EStatus?
    ensures Carried(s, Status(s, m.event.channel, m.event.lease, m.event.mode, m.now, m.event.backoff, m.token).0, m.token, None)
  {
    hide Read, Describe, Ready, Promote, LiveCooldowns, LeaseActive;
    var e := m.event;
    var u := TouchX(s, e.channel, e.lease, e.mode, m.now);
    SameIsCarried(s, u, m.token, None);
    SameIsCarried(s, s, m.token, None);
    if e.channel in u.pending {
      PromoteCarries(s, u, e.channel, u.pending[e.channel], m.now, m.token);
    }
  }

  lemma FinalizeCarries(s: State, m: Moment)
    requires m.event.EFinalize?
    requires Sound(s)
    ensures Carried(s, Finalize(s, m.event.channel, m.event.claimId, m.event.name, m.event.outcome, m.event.detail, m.now, m.token).0, m.token, None)
  {
    hide Promote, LiveCooldowns, BoundedDetail;
    var e := m.event;
    SameIsCarried(s, s, m.token, None);
    if HoldsClaim(s, e.channel, e.claimId) {
      var f := FinalizedWake(s.pending[e.channel], e.name, e.outcome, e.detail, m.now);
      PromoteCarries(s, Cool(s.(pending := s.pending[e.channel := f]), e.channel, m.now), e.channel, f, m.now, m.token);
    }
  }

  lemma AckCarries(s: State, m: Moment)
    requires m.event.EAck?
    requires Sound(s)
    ensures Carried(s, Ack(s, m.event.channel, m.event.claimId, m.event.lease, m.now, m.token).0, m.token, None)
  {
    hide Promote, LiveCooldowns, LiveGlobal, Carried, Sound, ValidChannel, LeaseMatches, Continues, AckedWake;
    var e := m.event;
    var t := Ack(s, e.channel, e.claimId, e.lease, m.now, m.token).0;
    if t.pending == s.pending {
      SameIsCarried(s, t, m.token, None);
    } else {
      var w := s.pending[e.channel];
      var u := Cool(Touch(s, e.channel, e.lease, m.now), e.channel, m.now);
      SoundWake(s, e.channel);
      if w.modelAckRequired && w.modelAcknowledged {
        SameIsCarried(s, u, m.token, None);
        PromoteCarries(s, u, e.channel, w, m.now, m.token);
        SavedCarries(s, Promote(u, e.channel, w, m.now, m.token), m.now, m.token);
      } else if !w.modelAckRequired {
        RemovedCarries(s, t, e.channel, m.token);
      } else {
        AckedContinues(w, m.now);
        OneEdit(s, t, e.channel, AckedWake(w, m.now), m.token, None);
      }
    }
  }

  lemma AckedContinues(w: Wake, now: real)
    requires !w.delivered
    ensures Continues(w, AckedWake(w, now))
  {
  }

  lemma RemovedCarries(s: State, u: State, c: string, token: string)
    requires u.pending == s.pending - {c} || u.pending == s.pending
    ensures Carried(s, u, token, None)
  {
  }

  lemma ModelAckCarries(s: State, k: string, now: real, token: string)
    ensures Carried(s, ModelAck(s, k, now).0, token, None)
  {
    hide Carried, LiveCooldowns, LiveGlobal, LeaseActive, ValidContinuation;
    var (t, r) := ModelAck(s, k, now);
    if !r.ModelAcked? {
      RemovedCarries(s, t, "", token);
    } else if r.channel in t.pending {
      var w := s.pending[r.channel];
      OneEdit(s, t, r.channel, w.(queued := [], queuedEscalations := [], modelAcknowledged := true), token, None);
    } else {
      RemovedCarries(s, t, r.channel, token);
    }
  }

  lemma RemovalsCarry(s: State, k: string, c: string, now: real, token: string)
    ensures Carried(s, Resolve(s, k, now).0, token, None) && Carried(s, Cancel(s, c, now).0, token, None)
  {
    hide Carried, Continues, LiveCooldowns, LiveGlobal, DeliveryBlocked, ValidContinuation, ValidChannel;
    var (t, r) := Resolve(s, k, now);
    RemovedCarries(s, t, if ChannelOf(s, k).Some? then ChannelOf(s, k).value else "", token);
    RemovedCarries(s, Cancel(s, c, now).0, c, token);
  }

  lemma MarksCarry(s: State, c: string, k: string, name: string, detail: Option<string>, now: real, token: string)
    ensures Carried(s, MarkPreclaim(s, c, k, name, detail, now).0, token, None)
    ensures Carried(s, AuthorizePreflight(s, c, k, now).0, token, None)
  {
    hide LiveCooldowns, LiveGlobal, AuthDetail, DeliveryBlocked, UndeliveredExpired, LeaseActive, ValidContinuation, ValidChannel,
         ValidTransportName, Carried;
    SameIsCarried(s, s, token, None);
    if c in s.pending && !s.pending[c].delivered && !DeliveryBlocked(s.pending[c]) {
      var w := s.pending[c].(preflightAuthorizedAt := Some(now));
      BlockedContinues(s.pending[c], name, detail, now);
      OneEdit(s, s.(pending := s.pending[c := BlockedWake(s.pending[c], name, detail, now)]), c,
              BlockedWake(s.pending[c], name, detail, now), token, None);
      OneEdit(s, s.(pending := s.pending[c := w]), c, w, token, None);
      SavedCarries(s, s.(pending := s.pending[c := BlockedWake(s.pending[c], name, detail, now)]), now, token);
      SavedCarries(s, s.(pending := s.pending[c := w]), now, token);
    }
  }

  lemma BlockedContinues(w: Wake, name: string, detail: Option<string>, now: real)
    requires !w.delivered
    ensures Continues(w, BlockedWake(w, name, detail, now))
  {
    hide AuthDetail;
  }

  lemma SavedCarries(s: State, u: State, now: real, token: string)
    requires Carried(s, u, token, None)
    ensures Carried(s, Save(u, now), token, None)
  {
    hide LiveCooldowns, LiveGlobal;
  }

  lemma EscalationCarries(s: State, k: string, now: real, token: string)
    ensures Carried(s, MarkEscalation(s, k, now).0, token, None)
  {
    hide Carried, LiveCooldowns, LiveGlobal, ValidContinuation;
    var t := MarkEscalation(s, k, now).0;
    if t.pending == s.pending {
      RemovedCarries(s, t, "", token);
    } else {
      var c := ChannelOf(s, k).value;
      OneEdit(s, t, c, s.pending[c].(escalationNotifiedAt := Some(now)), token, None);
    }
  }

  lemma LanesCarry(s: State, c: string, k: string, l: Lease, now: real, token: string)
    ensures Carried(s, Observe(s, c, k, now).0, token, None) && Carried(s, InstallLease(s, c, l, now).0, token, None)
  {
    hide LiveCooldowns, LiveGlobal, ValidContinuation, ValidChannel;
  }

  lemma RestartCarries(w: World, m: Moment)
    requires Good(w) && Enabled(w, m) && m.event.ERestart?
    ensures Carried(w.s, React(w.s, m).0, m.token, ArmOf(m.event))
  {
    hide Good, Load;
    RestartLosesNoWake(w, m.now);
  }

  lemma DeliveriesCarry(s: State, m: Moment)
    requires Sound(s) && (m.event.EArm? || m.event.EStatus? || m.event.EFinalize? || m.event.EAck?)
    ensures Carried(s, React(s, m).0, m.token, ArmOf(m.event))
  {
    hide Carried, Sound, Arm, Status, Finalize, Ack;
    match m.event
    case EArm(_) => ArmCarries(s, m);
    case EStatus(_, _, _, _) => StatusCarries(s, m);
    case EFinalize(_, _, _, _, _) => FinalizeCarries(s, m);
    case EAck(_, _, _) => AckCarries(s, m);
  }

  lemma EditsCarry(s: State, m: Moment)
    requires m.event.EModelAck? || m.event.EResolve? || m.event.ECancel? || m.event.EObserve? || m.event.EInstall?
          || m.event.EMarkPreclaim? || m.event.EAuthorize? || m.event.EMarkEscalation?
    ensures Carried(s, React(s, m).0, m.token, ArmOf(m.event))
  {
    hide Carried, ModelAck, Observe, MarkPreclaim, AuthorizePreflight, MarkEscalation, Resolve, Cancel, InstallLease;
    match m.event
    case EModelAck(k) => ModelAckCarries(s, k, m.now, m.token);
    case EResolve(k) => RemovalsCarry(s, k, "", m.now, m.token);
    case ECancel(c) => RemovalsCarry(s, "", c, m.now, m.token);
    case EObserve(c, k) => LanesCarry(s, c, k, Lease("", 0.0), m.now, m.token);
    case EInstall(c, l) => LanesCarry(s, c, "", l, m.now, m.token);
    case EMarkPreclaim(c, k, n, d) => MarksCarry(s, c, k, n, d, m.now, m.token);
    case EAuthorize(c, k) => MarksCarry(s, c, k, "", None, m.now, m.token);
    case EMarkEscalation(k) => EscalationCarries(s, k, m.now, m.token);
  }

  /** All operations but a claim and a release let every wake go on, or start one with the budget it was given. */
  lemma OthersCarry(w: World, m: Moment)
    requires Good(w) && Enabled(w, m) && !m.event.EClaim? && !m.event.EClearPreclaim?
    ensures Carried(w.s, React(w.s, m).0, m.token, ArmOf(m.event))
  {
    GoodIsSound(w);
    hide *;
    if m.event.ERestart? {
      RestartCarries(w, m);
    } else if m.event.EArm? || m.event.EStatus? || m.event.EFinalize? || m.event.EAck? {
      DeliveriesCarry(w.s, m);
    } else {
      EditsCarry(w.s, m);
    }
  }

  /** What a claim does, admitted or not, whatever its guards. */
  lemma ClaimOutcome(s: State, m: Moment)
    requires m.event.EClaim?
    ensures var (t, r) := React(s, m); var c := m.event.channel;
            && (r.Claimed? ==> c in s.pending && !Exhausted(s.pending[c]) && RetriesCover(s.pending[c])
                               && r.continuation == s.pending[c].continuationId
                               && t.pending == s.pending[c := ClaimedWake(s.pending[c], m.now, m.token)])
            && (!r.Claimed? ==> t.pending == s.pending)
  {
    hide LiveCooldowns, LiveGlobal, OtherClaimActive, ListenerBlocksDirect, LeaseMatches, PreflightAuthorized, ClaimedWake;
  }

  /** A claim takes one attempt from the wake it hands out and none from any other. */
  lemma ClaimTakesOne(s: State, m: Moment, c: string)
    requires m.event.EClaim? && c in React(s, m).0.pending && c in s.pending && s.pending[c].continuationId.Some? && s.pending[c].modelAckRequired
    ensures React(s, m).0.pending[c].continuationId == s.pending[c].continuationId
    ensures React(s, m).0.pending[c].attempts
         == s.pending[c].attempts + if c == m.event.channel && React(s, m).1.Claimed? then 1 else 0
    ensures React(s, m).1.Claimed? ==>
              m.event.channel in s.pending && !Exhausted(s.pending[m.event.channel])
              && React(s, m).1.continuation == s.pending[m.event.channel].continuationId
  {
    hide React;
    ClaimOutcome(s, m);
  }

  lemma ClaimAddsNothing(s: State, m: Moment)
    requires m.event.EClaim? || m.event.EClearPreclaim?
    ensures React(s, m).0.pending.Keys == s.pending.Keys
  {
    hide LiveCooldowns, OtherClaimActive, ListenerBlocksDirect, LeaseMatches, PreflightAuthorized, Releasable, ReleasedWake, ClaimedWake;
  }

  /** A release gives back at most one. */
  lemma ReleaseGivesBack(s: State, m: Moment, c: string, k: string)
    requires m.event.EClearPreclaim? && c in s.pending && c in React(s, m).0.pending && s.pending[c].continuationId == Some(k)
    requires forall d | d in s.pending && s.pending[d].continuationId == Some(k) :: d == c
    ensures React(s, m).0.pending[c].continuationId == Some(k)
    ensures React(s, m).0.pending[c].attempts == s.pending[c].attempts - if RefundsNow(s, m, k) then 1 else 0
  {
    hide LiveCooldowns, LegacyAuthMarker, ValidChannel, ValidContinuation, ValidTransportName;
  }

  lemma DrawnBefore(w: World, m: Moment, k: string)
    requires Good(w) && Enabled(w, m) && (ClaimsNow(w.s, m, k) || RefundsNow(w.s, m, k))
    ensures k in w.issued && k != m.token
  {
    hide React, Good, Releasable, ValidContinuation, ValidTransportName, LegacyAuthMarker;
    if ClaimsNow(w.s, m, k) {
      AdmittedPassedTheGuards(w.s, m);
    }
    Known(w, m.event.channel);
  }

  lemma KnownIsResilient(w: World, c: string, k: string)
    requires Good(w) && c in w.s.pending && w.s.pending[c].continuationId == Some(k)
    ensures w.s.pending[c].modelAckRequired && 0 <= w.s.pending[c].attempts <= w.s.pending[c].maxAttempts <= MODEL_ACK_MAX_ATTEMPTS
    ensures forall d | d in w.s.pending && w.s.pending[d].continuationId == Some(k) :: d == c
    ensures k in w.issued
  {
    hide Good;
    Known(w, c);
    GoodHasUniqueContinuations(w);
  }

  /** Only the step's own claim of `k` and refund of `k` change the attempts of the wake that carries it. */
  lemma AttemptsStep(w: World, m: Moment, c: string, k: string)
    requires Good(w) && Enabled(w, m) && c in React(w.s, m).0.pending && React(w.s, m).0.pending[c].continuationId == Some(k)
    ensures var n := React(w.s, m).0.pending[c];
            || (k == m.token && n.attempts == 0)
            || (c in w.s.pending && w.s.pending[c].continuationId == Some(k)
                && n.attempts == w.s.pending[c].attempts + (if ClaimsNow(w.s, m, k) then 1 else 0) - (if RefundsNow(w.s, m, k) then 1 else 0))
  {
    hide React, Good;
    if m.event.EClaim? || m.event.EClearPreclaim? {
      ClaimAddsNothing(w.s, m);
      ClaimOrReleaseStep(w, m, c, k);
    } else {
      OthersCarry(w, m);
    }
  }

  lemma ClaimOrReleaseStep(w: World, m: Moment, c: string, k: string)
    requires Good(w) && Enabled(w, m) && (m.event.EClaim? || m.event.EClearPreclaim?)
    requires c in w.s.pending && c in React(w.s, m).0.pending && React(w.s, m).0.pending[c].continuationId == Some(k)
    ensures w.s.pending[c].continuationId == Some(k)
    ensures React(w.s, m).0.pending[c].attempts
         == w.s.pending[c].attempts + (if ClaimsNow(w.s, m, k) then 1 else 0) - (if RefundsNow(w.s, m, k) then 1 else 0)
  {
    hide React, Good, RefundsNow;
    SameContinuation(w.s, m, c);
    KnownIsResilient(w, c, k);
    if m.event.EClaim? {
      ClaimTakesOne(w.s, m, c);
      NoRefund(w.s, m, k);
    } else {
      ReleaseGivesBack(w.s, m, c, k);
    }
  }

  lemma NoRefund(s: State, m: Moment, k: string)
    requires m.event.EClaim?
    ensures !RefundsNow(s, m, k)
  {
  }

  lemma SameContinuation(s: State, m: Moment, c: string)
    requires (m.event.EClaim? || m.event.EClearPreclaim?) && c in s.pending && c in React(s, m).0.pending
    ensures React(s, m).0.pending[c].continuationId == s.pending[c].continuationId
  {
    if m.event.EClaim? {
      hide React;
      ClaimOutcome(s, m);
    } else {
      hide LiveCooldowns, LiveGlobal, Releasable, LegacyAuthMarker, ValidChannel, ValidContinuation, ValidTransportName;
    }
  }

  // ---------------------------------------------------------------- runs

  lemma StepIssues(w: World, m: Moment)
    ensures Step(w, m).issued == w.issued + {m.token} && Step(w, m).s == React(w.s, m).0
  {
    hide React;
  }

  /** At every point the claims of a continuation are the attempts its wake used up, plus what was given back. */
  lemma {:induction false} ClaimsAreAttempts(w: World, run: seq<Moment>, i: nat, k: string)
    requires Good(w) && RunEnabled(w, run) && i <= |run| && w.s.pending == map[]
    ensures k !in At(w, run, i).issued ==> Claims(w, run, i, k) == 0 && Refunds(w, run, i, k) == 0
    ensures forall c | c in At(w, run, i).s.pending && At(w, run, i).s.pending[c].continuationId == Some(k)
              :: Claims(w, run, i, k) == At(w, run, i).s.pending[c].attempts + Refunds(w, run, i, k)
    decreases i
  {
    hide React, Good, Step, ClaimsNow, RefundsNow, RunEnabled;
    if i > 0 {
      ClaimsAreAttempts(w, run, i - 1, k);
      var v, m := At(w, run, i - 1), run[i - 1];
      GoodAt(w, run, i - 1);
      EnabledAt(w, run, i - 1);
      StepIssues(v, m);
      if ClaimsNow(v.s, m, k) || RefundsNow(v.s, m, k) {
        DrawnBefore(v, m, k);
      }
      forall c | c in Step(v, m).s.pending && Step(v, m).s.pending[c].continuationId == Some(k)
        ensures Claims(w, run, i, k) == Step(v, m).s.pending[c].attempts + Refunds(w, run, i, k)
      {
        AttemptsStep(v, m, c, k);
      }
    }
  }

  lemma ClaimHasBudget(w: World, m: Moment, k: string)
    requires Good(w) && Enabled(w, m) && ClaimsNow(w.s, m, k)
    ensures var c := m.event.channel;
            c in w.s.pending && w.s.pending[c].continuationId == Some(k) && w.s.pending[c].attempts < MODEL_ACK_MAX_ATTEMPTS
  {
    hide React, Good;
    AdmittedPassedTheGuards(w.s, m);
    KnownIsResilient(w, m.event.channel, k);
    ClaimAddsNothing(w.s, m);
    ClaimTakesOne(w.s, m, m.event.channel);
  }

  /** Over a whole run, restarts included, a continuation is claimed at most five times, not counting attempts given back. */
  lemma {:induction false} RetriesAreBounded(now: real, preflightRequired: bool, run: seq<Moment>, i: nat, k: string)
    requires 0.0 <= now && RunEnabled(Start(now, preflightRequired), run) && i <= |run|
    ensures var w := Start(now, preflightRequired);
            Claims(w, run, i, k) <= MODEL_ACK_MAX_ATTEMPTS + Refunds(w, run, i, k)
    decreases i
  {
    hide React, Good, Step, ClaimsNow, RefundsNow, RunEnabled;
    if i > 0 {
      var w := Start(now, preflightRequired);
      RetriesAreBounded(now, preflightRequired, run, i - 1, k);
      if ClaimsNow(At(w, run, i - 1).s, run[i - 1], k) {
        StartIsGood(now, preflightRequired);
        GoodAt(w, run, i - 1);
        EnabledAt(w, run, i - 1);
        ClaimHasBudget(At(w, run, i - 1), run[i - 1], k);
        ClaimsAreAttempts(w, run, i - 1, k);
      }
    }
  }
}
