/**
 Event conservation: on a channel that is armed only with clean messages, every accepted message is in
 exactly one place: the current batch, the queue, a retired batch, a hand-out of `model_ack`, an explicit
 cancellation, or, for a wake that asks for no acknowledgement, replaced by the next one.
 */
module Conservation {
  import opened Prelude
  import opened Wakes
  import opened CoordinatorSpec
  import opened CoordinatorRuns
  import opened CoordinatorSafety
  import opened CoordinatorTheorems
  import opened Batches
  import CoordinatorGuards
  import Text

  datatype Ledger = Ledger(
    accepted: multiset<string>, retired: multiset<string>, handed: multiset<string>, dropped: multiset<string>)

  const NOTHING: Ledger := Ledger(multiset{}, multiset{}, multiset{}, multiset{})

  function Add(a: Ledger, b: Ledger): Ledger {
    Ledger(a.accepted + b.accepted, a.retired + b.retired, a.handed + b.handed, a.dropped + b.dropped)
  }

  function WakeEvents(w: Wake): multiset<string> {
    multiset(Parts(w.message)) + multiset(w.queued)
  }

  /** The messages waiting on a channel. */
  function Live(s: State, channel: string): multiset<string> {
    if channel in s.pending then WakeEvents(s.pending[channel]) else multiset{}
  }

  function BatchOn(s: State, channel: string): multiset<string> {
    if channel in s.pending then multiset(Parts(s.pending[channel].message)) else multiset{}
  }

  /** A poll finds a wake the model acknowledged, with no delivery in flight. */
  predicate PollRetires(s: State, e: Event, now: real) {
    && e.EStatus? && ValidChannel(e.channel) && LeaseMatches(s, e.channel, e.lease, e.mode)
    && e.channel in s.pending && s.pending[e.channel].modelAcknowledged && !LeaseActive(s.pending[e.channel], now)
  }

  /** What an accepted arm that does not coalesce replaces; `OnlyPlainIsReplaced` says it has no queue. */
  function Replaced(s: State, r: ArmRequest): multiset<string> {
    if Coalesces(s, r) then multiset{} else Live(s, r.channel)
  }

  /** What one step books for `channel`, read off its event, its answer and the state before it. */
  function Booked(s: State, m: Moment, r: Response, channel: string): Ledger {
    match m.event
    case EArm(request) =>
      if request.channel == channel && r.Armed? && !r.deduplicated
      then NOTHING.(accepted := multiset{request.message}, dropped := Replaced(s, request)) else NOTHING
    case EStatus(c, _, _, _) =>
      if c == channel && PollRetires(s, m.event, m.now) then NOTHING.(retired := BatchOn(s, channel)) else NOTHING
    case EFinalize(c, _, _, _, _) =>
      if c == channel && r.Accepted? && r.finished then NOTHING.(retired := BatchOn(s, channel)) else NOTHING
    case EAck(c, _, _) =>
      if c == channel && r.Accepted? && r.finished then NOTHING.(retired := BatchOn(s, channel)) else NOTHING
    case EModelAck(_) =>
      if r.ModelAcked? && r.channel == channel then
        NOTHING.(handed := multiset(r.batched),
                 retired := if channel in s.pending && LeaseActive(s.pending[channel], m.now) then multiset{} else BatchOn(s, channel))
      else NOTHING
    case ECancel(c) => if c == channel && r == Flag(true) then NOTHING.(dropped := Live(s, channel)) else NOTHING
    case EResolve(k) =>
      if r == Flag(true) && Holds(s, channel, k) then NOTHING.(dropped := Live(s, channel)) else NOTHING
    case _ => NOTHING
  }

  /** The channel was armed only with clean messages; only a resilient wake has a queue. */
  ghost predicate CleanWake(w: Wake) {
    && (w.queued != [] ==> w.modelAckRequired)
    && (forall p | p in Parts(w.message) :: Clean(p))
    && (forall q | q in w.queued :: Clean(q))
    && |w.queued| == |w.queuedEscalations|
  }

  ghost predicate CleanChannel(s: State, channel: string) {
    channel in s.pending ==> CleanWake(s.pending[channel])
  }

  ghost predicate CleanArm(m: Moment, channel: string) {
    m.event.EArm? && m.event.request.channel == channel ==> Clean(m.event.request.message)
  }

  /** One step moves messages between the accounts without losing or inventing one. */
  ghost predicate Balanced(s: State, t: State, b: Ledger, channel: string) {
    Live(t, channel) + b.retired + b.handed + b.dropped == Live(s, channel) + b.accepted
  }

  // ---------------------------------------------------------------- wake by wake

  lemma CleanPartIsWhole(message: string)
    requires Clean(message)
    ensures Parts(message) == [message]
  {
    CleanBatchRoundTrip([message]);
  }

  lemma MergedKeepsEvents(message: string, added: string)
    requires Clean(added) && forall p | p in Parts(message) :: Clean(p)
    ensures Parts(Batch(Parts(message) + [added])) == Parts(message) + [added]
    ensures multiset(Parts(message) + [added]) == multiset(Parts(message)) + multiset{added}
  {
    hide Clean;
    CleanBatchRoundTrip(Parts(message) + [added]);
  }

  lemma CoalescedKeepsEvents(s: State, r: ArmRequest, w: Wake, now: real)
    requires CleanWake(w) && w.modelAckRequired && Clean(r.message)
    ensures var n := Coalesced(s, r, w, now);
            CleanWake(n) && WakeEvents(n) == WakeEvents(w) + multiset{r.message}
  {
    hide Clean, Parts, Batch, BoundedEscalation, MergedAvailableAt, Stripped, WebCooldown;
    MergedKeepsEvents(w.message, r.message);
    if !MergesIntoCurrent(w, r.message) {
      assert multiset(w.queued + [r.message]) == multiset(w.queued) + multiset{r.message};
    }
  }

  lemma PromotedKeepsQueue(s: State, channel: string, w: Wake, now: real, token: string)
    requires CleanWake(w) && w.queued != []
    ensures var n := Promoted(s, channel, w, now, token);
            CleanWake(n) && WakeEvents(n) == multiset(w.queued)
  {
    hide Clean;
    PackLengths(w.queued, w.queuedEscalations, ZipLength(w));
    PackConserves(w.queued, w.queuedEscalations, ZipLength(w));
    PackMembers(w.queued, w.queuedEscalations, ZipLength(w));
    CleanBatchRoundTrip(Pack(w.queued, w.queuedEscalations, ZipLength(w)).active);
    assert w.queued[..|w.queued|] == w.queued;
  }

  lemma PromoteRetires(s: State, channel: string, w: Wake, now: real, token: string)
    requires CleanWake(w)
    ensures var t := Save(Promote(s, channel, w, now, token), now);
            CleanChannel(t, channel) && Live(t, channel) == multiset(w.queued)
  {
    hide CleanWake, WakeEvents, Promoted, LiveCooldowns;
    if w.queued != [] {
      PromotedKeepsQueue(s, channel, w, now, token);
    }
  }

  // ---------------------------------------------------------------- operation by operation

  /** The channel's wake, if any, carries the same messages. */
  predicate SameMessages(s: State, t: State, channel: string) {
    && (channel in t.pending <==> channel in s.pending)
    && (channel in s.pending ==>
          var v, w := s.pending[channel], t.pending[channel];
          && v.message == w.message && v.queued == w.queued && v.queuedEscalations == w.queuedEscalations
          && v.modelAckRequired == w.modelAckRequired)
  }

  lemma SameMessagesBalance(s: State, t: State, channel: string)
    requires CleanChannel(s, channel) && SameMessages(s, t, channel)
    ensures Balanced(s, t, NOTHING, channel) && CleanChannel(t, channel)
  {
  }

  lemma RetiredBalance(s: State, t: State, channel: string)
    requires channel in s.pending && CleanChannel(t, channel) && Live(t, channel) == multiset(s.pending[channel].queued)
    ensures Balanced(s, t, NOTHING.(retired := BatchOn(s, channel)), channel)
  {
  }

  lemma DroppedBalance(s: State, t: State, channel: string)
    requires channel !in t.pending
    ensures Balanced(s, t, NOTHING.(dropped := Live(s, channel)), channel) && CleanChannel(t, channel)
  {
  }

  lemma AcceptedBalance(s: State, t: State, channel: string, message: string)
    requires Live(t, channel) == Live(s, channel) + multiset{message}
    ensures Balanced(s, t, NOTHING.(accepted := multiset{message}), channel)
  {
  }

  lemma ReplacedBalance(s: State, t: State, channel: string, message: string)
    requires Live(t, channel) == multiset{message}
    ensures Balanced(s, t, NOTHING.(accepted := multiset{message}, dropped := Live(s, channel)), channel)
  {
  }

  lemma CoalesceConserves(s: State, r: ArmRequest, now: real)
    requires Coalesces(s, r) && CleanChannel(s, r.channel) && Clean(r.message)
    ensures var t := Save(s.(pending := s.pending[r.channel := Coalesced(s, r, s.pending[r.channel], now)]), now);
            Balanced(s, t, NOTHING.(accepted := multiset{r.message}), r.channel) && CleanChannel(t, r.channel)
  {
    hide LiveCooldowns, WakeEvents, CleanWake, Coalesced, Clean, Balanced;
    var w := s.pending[r.channel];
    CoalescedKeepsEvents(s, r, w, now);
    var t := Save(s.(pending := s.pending[r.channel := Coalesced(s, r, w, now)]), now);
    AcceptedBalance(s, t, r.channel, r.message);
  }

  lemma NewWakeConserves(s: State, r: ArmRequest, now: real, token: string)
    requires Clean(r.message)
    ensures var t := Save(s.(pending := s.pending[r.channel := ArmedWake(s, r, now, token)]), now);
            && Balanced(s, t, NOTHING.(accepted := multiset{r.message}, dropped := Live(s, r.channel)), r.channel)
            && CleanChannel(t, r.channel)
  {
    hide LiveCooldowns, Balanced, Clean;
    var n := ArmedWake(s, r, now, token);
    CleanPartIsWhole(r.message);
    assert WakeEvents(n) == multiset{r.message};
    var t := Save(s.(pending := s.pending[r.channel := n]), now);
    ReplacedBalance(s, t, r.channel, r.message);
  }

  lemma ArmConserves(s: State, m: Moment, channel: string)
    requires m.event.EArm? && CleanArm(m, channel) && CleanChannel(s, channel)
    ensures var (t, r) := Arm(s, m.event.request, m.now, m.token);
            Balanced(s, t, Booked(s, m, r, channel), channel) && CleanChannel(t, channel)
  {
    hide Balanced, Clean, Coalesced, ArmedWake, LiveCooldowns, LiveGlobal, Parts, ValidArm;
    var q := m.event.request;
    var (t, r) := Arm(s, q, m.now, m.token);
    if q.channel != channel || !r.Armed? || r.deduplicated {
      SameMessagesBalance(s, t, channel);
    } else if Coalesces(s, q) {
      CoalesceConserves(s, q, m.now);
    } else {
      NewWakeConserves(s, q, m.now, m.token);
    }
  }

  lemma PromoteTouchesOne(s: State, c: string, w: Wake, now: real, token: string, channel: string)
    requires c != channel
    ensures SameMessages(s, Save(Promote(s, c, w, now, token), now), channel)
  {
    hide Promoted, LiveCooldowns;
  }

  lemma StatusConserves(s: State, m: Moment, channel: string)
    requires m.event.EStatus? && CleanChannel(s, channel)
    ensures var (t, r) := Status(s, m.event.channel, m.event.lease, m.event.mode, m.now, m.event.backoff, m.token);
            Balanced(s, t, Booked(s, m, r, channel), channel) && CleanChannel(t, channel)
  {
    hide Balanced, CleanWake, Save, Promote, Read, Describe, Ready, BatchOn, Live;
    var e := m.event;
    var t := StatusState(s, e.channel, e.lease, e.mode, m.now, m.token);
    var u := TouchX(s, e.channel, e.lease, e.mode, m.now);
    if !PollRetires(s, e, m.now) {
      SameMessagesBalance(s, Status(s, e.channel, e.lease, e.mode, m.now, e.backoff, m.token).0, channel);
    } else if e.channel != channel {
      PromoteTouchesOne(u, e.channel, u.pending[e.channel], m.now, m.token, channel);
      SameMessagesBalance(s, t, channel);
    } else {
      PromoteRetires(u, channel, u.pending[channel], m.now, m.token);
      RetiredBalance(s, t, channel);
    }
  }

  /** A finished delivery retires the batch of the wake it delivered. */
  lemma FinishedConserves(s: State, u: State, c: string, f: Wake, now: real, token: string, channel: string)
    requires CleanChannel(s, channel) && c in s.pending && u.pending == s.pending[c := f]
    requires SameMessages(s, u, c)
    ensures var t := Save(Promote(u, c, f, now, token), now);
            Balanced(s, t, if c == channel then NOTHING.(retired := BatchOn(s, channel)) else NOTHING, channel)
            && CleanChannel(t, channel)
  {
    hide Balanced, Promote, Parts, Clean, LiveCooldowns, LiveGlobal, Live, BatchOn;
    var t := Save(Promote(u, c, f, now, token), now);
    if c == channel {
      PromoteRetires(u, channel, f, now, token);
      RetiredBalance(s, t, channel);
    } else {
      PromoteTouchesOne(u, c, f, now, token, channel);
      SameMessagesBalance(s, t, channel);
    }
  }

  lemma FinalizeConserves(s: State, m: Moment, channel: string)
    requires m.event.EFinalize? && CleanChannel(s, channel)
    ensures var e := m.event;
            var (t, r) := Finalize(s, e.channel, e.claimId, e.name, e.outcome, e.detail, m.now, m.token);
            Balanced(s, t, Booked(s, m, r, channel), channel) && CleanChannel(t, channel)
  {
    hide Balanced, Promote, CleanChannel, LiveCooldowns, LiveGlobal, Live, BatchOn, BoundedDetail, Save;
    var e := m.event;
    var (t, r) := Finalize(s, e.channel, e.claimId, e.name, e.outcome, e.detail, m.now, m.token);
    if !r.Accepted? || !r.finished {
      assert SameMessages(s, t, channel) by { UnfinishedFinalize(s, m, channel); }
      SameMessagesBalance(s, t, channel);
    } else {
      var f := FinalizedWake(s.pending[e.channel], e.name, e.outcome, e.detail, m.now);
      var u := Cool(s.(pending := s.pending[e.channel := f]), e.channel, m.now);
      FinishedConserves(s, u, e.channel, f, m.now, m.token, channel);
    }
  }

  lemma FinalizedSameMessages(s: State, t: State, c: string, w: Wake, name: string, d: Disposition, detail: Option<string>, now: real,
                              channel: string)
    requires c in s.pending && w == s.pending[c] && t.pending == s.pending[c := FinalizedWake(w, name, d, detail, now)]
    ensures SameMessages(s, t, channel)
  {
    hide BoundedDetail;
  }

  lemma UnfinishedFinalize(s: State, m: Moment, channel: string)
    requires m.event.EFinalize?
    ensures var e := m.event;
            var (t, r) := Finalize(s, e.channel, e.claimId, e.name, e.outcome, e.detail, m.now, m.token);
            !r.Accepted? || !r.finished ==> SameMessages(s, t, channel)
  {
    hide Promote, LiveCooldowns, LiveGlobal, FinalizedWake, ValidChannel, ValidTransportName, SameMessages;
    var e := m.event;
    var (t, r) := Finalize(s, e.channel, e.claimId, e.name, e.outcome, e.detail, m.now, m.token);
    if r.Accepted? && !r.finished {
      FinalizedSameMessages(s, t, e.channel, s.pending[e.channel], e.name, e.outcome, e.detail, m.now, channel);
    } else if !r.Accepted? {
      SelfSameMessages(s, channel);
    }
  }

  lemma SelfSameMessages(s: State, channel: string)
    ensures SameMessages(s, s, channel)
  {
  }

  /** An accepted ack of the channel itself that ends the wake. */
  lemma FinishedAck(s: State, u: State, channel: string, now: real, token: string)
    requires CleanChannel(s, channel) && channel in s.pending && u.pending == s.pending
    ensures var w := s.pending[channel];
            var t := if w.modelAckRequired then Save(Promote(u, channel, w, now, token), now)
                     else Save(u.(pending := u.pending - {channel}), now);
            Balanced(s, t, NOTHING.(retired := BatchOn(s, channel)), channel) && CleanChannel(t, channel)
  {
    hide Balanced, Promote, Parts, Clean, LiveCooldowns, LiveGlobal, Live, BatchOn;
    var w := s.pending[channel];
    if w.modelAckRequired {
      PromoteRetires(u, channel, w, now, token);
      RetiredBalance(s, Save(Promote(u, channel, w, now, token), now), channel);
    } else {
      var t := Save(u.(pending := u.pending - {channel}), now);
      NothingLive(t, channel);
      assert multiset(w.queued) == multiset{};
      RetiredBalance(s, t, channel);
    }
  }

  lemma NothingLive(s: State, channel: string)
    requires channel !in s.pending
    ensures Live(s, channel) == multiset{} && CleanChannel(s, channel)
  {
  }

  lemma AckConserves(s: State, m: Moment, channel: string)
    requires m.event.EAck? && CleanChannel(s, channel)
    ensures var e := m.event;
            var (t, r) := Ack(s, e.channel, e.claimId, e.lease, m.now, m.token);
            Balanced(s, t, Booked(s, m, r, channel), channel) && CleanChannel(t, channel)
  {
    hide Balanced, Promote, CleanWake, LiveCooldowns, LiveGlobal, Live, BatchOn, LeaseMatches;
    var e := m.event;
    var (t, r) := Ack(s, e.channel, e.claimId, e.lease, m.now, m.token);
    var u := Cool(Touch(s, e.channel, e.lease, m.now), e.channel, m.now);
    if !r.Accepted? || !r.finished {
      SameMessagesBalance(s, t, channel);
    } else if e.channel == channel {
      FinishedAck(s, u, channel, m.now, m.token);
    } else {
      PromoteTouchesOne(u, e.channel, s.pending[e.channel], m.now, m.token, channel);
      SameMessagesBalance(s, t, channel);
    }
  }

  /** A hand-out empties the queue; without a delivery in flight it also retires the batch. */
  lemma HandedBalance(s: State, t: State, channel: string, active: bool)
    requires channel in s.pending && CleanChannel(s, channel)
    requires active ==> (channel in t.pending
               && t.pending[channel] == s.pending[channel].(queued := [], queuedEscalations := [], modelAcknowledged := true))
    requires !active ==> channel !in t.pending
    ensures Balanced(s, t, NOTHING.(handed := multiset(s.pending[channel].queued),
                                    retired := if active then multiset{} else BatchOn(s, channel)), channel)
    ensures CleanChannel(t, channel)
  {
  }

  lemma ModelAckConserves(s: State, m: Moment, channel: string)
    requires m.event.EModelAck? && CleanChannel(s, channel)
    ensures var (t, r) := ModelAck(s, m.event.continuation, m.now);
            Balanced(s, t, Booked(s, m, r, channel), channel) && CleanChannel(t, channel)
  {
    hide Balanced, CleanWake, BatchOn, Live, LiveCooldowns, LiveGlobal, ValidContinuation;
    var (t, r) := ModelAck(s, m.event.continuation, m.now);
    if !r.ModelAcked? || r.channel != channel {
      SameMessagesBalance(s, t, channel);
    } else {
      HandedBalance(s, t, channel, LeaseActive(s.pending[channel], m.now));
    }
  }

  lemma ClaimedSameMessages(s: State, u: State, c: string, now: real, token: string, channel: string)
    requires u.pending == s.pending && c in u.pending && RetriesCover(u.pending[c]) && !Exhausted(u.pending[c])
    ensures SameMessages(s, Save(u.(pending := u.pending[c := ClaimedWake(u.pending[c], now, token)]), now), channel)
  {
    hide LiveCooldowns, LiveGlobal;
  }

  lemma ClaimConserves(s: State, m: Moment, channel: string)
    requires m.event.EClaim? && CleanChannel(s, channel)
    ensures var e := m.event;
            var t := Claim(s, e.channel, e.lease, e.mode, m.now, e.backoff, m.token).0;
            Balanced(s, t, NOTHING, channel) && CleanChannel(t, channel)
  {
    hide Balanced, CleanChannel, Save, RetriesCover, ClaimedWake, LeaseMatches, LeaseIsCurrent;
    var e := m.event;
    var u := TouchX(s, e.channel, e.lease, e.mode, m.now);
    var t := Claim(s, e.channel, e.lease, e.mode, m.now, e.backoff, m.token).0;
    if t.pending != s.pending {
      CoordinatorGuards.AdmittedHasWake(u, e.channel, e.lease, e.mode, m.now, e.backoff);
      ClaimedSameMessages(s, u, e.channel, m.now, m.token, channel);
    }
    SameMessagesBalance(s, t, channel);
  }

  lemma ObserveConserves(s: State, m: Moment, channel: string)
    requires m.event.EObserve? && CleanChannel(s, channel)
    ensures var t := Observe(s, m.event.channel, m.event.continuation, m.now).0;
            Balanced(s, t, NOTHING, channel) && CleanChannel(t, channel)
  {
    hide Balanced, CleanChannel, LiveCooldowns, LiveGlobal;
    SameMessagesBalance(s, Observe(s, m.event.channel, m.event.continuation, m.now).0, channel);
  }

  lemma MarkConserves(s: State, m: Moment, channel: string)
    requires m.event.EMarkPreclaim? && CleanChannel(s, channel)
    ensures var t := MarkPreclaim(s, m.event.channel, m.event.continuation, m.event.name, m.event.detail, m.now).0;
            Balanced(s, t, NOTHING, channel) && CleanChannel(t, channel)
  {
    hide Balanced, CleanChannel, LiveCooldowns, LiveGlobal, AuthDetail;
    SameMessagesBalance(s, MarkPreclaim(s, m.event.channel, m.event.continuation, m.event.name, m.event.detail, m.now).0, channel);
  }

  lemma ClearConserves(s: State, m: Moment, channel: string)
    requires m.event.EClearPreclaim? && CleanChannel(s, channel)
    ensures var t := ClearPreclaim(s, m.event.channel, m.event.continuation, m.event.name, m.now).0;
            Balanced(s, t, NOTHING, channel) && CleanChannel(t, channel)
  {
    hide Balanced, CleanChannel, LiveCooldowns, LiveGlobal, Releasable, LegacyAuthMarker;
    SameMessagesBalance(s, ClearPreclaim(s, m.event.channel, m.event.continuation, m.event.name, m.now).0, channel);
  }

  lemma AuthorizeConserves(s: State, m: Moment, channel: string)
    requires m.event.EAuthorize? && CleanChannel(s, channel)
    ensures var t := AuthorizePreflight(s, m.event.channel, m.event.continuation, m.now).0;
            Balanced(s, t, NOTHING, channel) && CleanChannel(t, channel)
  {
    hide Balanced, CleanChannel, LiveCooldowns, LiveGlobal;
    SameMessagesBalance(s, AuthorizePreflight(s, m.event.channel, m.event.continuation, m.now).0, channel);
  }

  lemma MarkEscalationConserves(s: State, m: Moment, channel: string)
    requires m.event.EMarkEscalation? && CleanChannel(s, channel)
    ensures var t := MarkEscalation(s, m.event.continuation, m.now).0;
            Balanced(s, t, NOTHING, channel) && CleanChannel(t, channel)
  {
    hide Balanced, CleanChannel, LiveCooldowns, LiveGlobal;
    SameMessagesBalance(s, MarkEscalation(s, m.event.continuation, m.now).0, channel);
  }

  lemma InstallConserves(s: State, m: Moment, channel: string)
    requires m.event.EInstall? && CleanChannel(s, channel)
    ensures var t := InstallLease(s, m.event.channel, m.event.installed, m.now).0;
            Balanced(s, t, NOTHING, channel) && CleanChannel(t, channel)
  {
    hide Balanced, CleanChannel, LiveCooldowns, LiveGlobal;
    SameMessagesBalance(s, InstallLease(s, m.event.channel, m.event.installed, m.now).0, channel);
  }

  lemma CancelConserves(s: State, m: Moment, channel: string)
    requires m.event.ECancel? && CleanChannel(s, channel)
    ensures var (t, r) := Cancel(s, m.event.channel, m.now);
            Balanced(s, t, Booked(s, m, r, channel), channel) && CleanChannel(t, channel)
  {
    hide Balanced, CleanWake, Live, LiveCooldowns, LiveGlobal;
    var (t, r) := Cancel(s, m.event.channel, m.now);
    if r == Flag(true) && m.event.channel == channel {
      DroppedBalance(s, t, channel);
    } else {
      SameMessagesBalance(s, t, channel);
    }
  }

  lemma ResolveConserves(w: World, m: Moment, channel: string)
    requires Good(w) && m.event.EResolve? && CleanChannel(w.s, channel)
    ensures var (t, r) := Resolve(w.s, m.event.continuation, m.now);
            Balanced(w.s, t, Booked(w.s, m, r, channel), channel) && CleanChannel(t, channel)
  {
    hide Balanced, CleanWake, Live, LiveCooldowns, LiveGlobal, Good, ValidContinuation;
    var k := m.event.continuation;
    var (t, r) := Resolve(w.s, k, m.now);
    if r == Flag(true) && Holds(w.s, channel, k) {
      OneHolder(w, k, ChannelOf(w.s, k).value, channel);
      DroppedBalance(w.s, t, channel);
    } else {
      SameMessagesBalance(w.s, t, channel);
    }
  }

  lemma OneHolder(w: World, k: string, c: string, d: string)
    requires Good(w) && Holds(w.s, c, k) && Holds(w.s, d, k)
    ensures c == d
  {
    assert c != d ==> IdsDiffer(w.s.pending[c], w.s.pending[d]);
  }

  lemma StepConserves(w: World, m: Moment, channel: string)
    requires Good(w) && Enabled(w, m) && CleanArm(m, channel) && CleanChannel(w.s, channel)
    ensures var (t, r) := React(w.s, m);
            Balanced(w.s, t, Booked(w.s, m, r, channel), channel) && CleanChannel(t, channel)
  {
    hide Balanced, CleanChannel, Good, Arm, Status, Claim, Finalize, Ack, ModelAck, Observe, MarkPreclaim, ClearPreclaim,
         AuthorizePreflight, MarkEscalation, Resolve, Cancel, InstallLease, Load;
    match m.event
    case EArm(_) => ArmConserves(w.s, m, channel);
    case EStatus(_, _, _, _) => StatusConserves(w.s, m, channel);
    case EClaim(_, _, _, _) => ClaimConserves(w.s, m, channel);
    case EFinalize(_, _, _, _, _) => FinalizeConserves(w.s, m, channel);
    case EAck(_, _, _) => AckConserves(w.s, m, channel);
    case EModelAck(_) => ModelAckConserves(w.s, m, channel);
    case EObserve(_, _) => ObserveConserves(w.s, m, channel);
    case EMarkPreclaim(_, _, _, _) => MarkConserves(w.s, m, channel);
    case EClearPreclaim(_, _, _) => ClearConserves(w.s, m, channel);
    case EAuthorize(_, _) => AuthorizeConserves(w.s, m, channel);
    case EMarkEscalation(_) => MarkEscalationConserves(w.s, m, channel);
    case EResolve(_) => ResolveConserves(w, m, channel);
    case ECancel(_) => CancelConserves(w.s, m, channel);
    case EInstall(_, _) => InstallConserves(w.s, m, channel);
    case ERestart =>
      RestartLosesNoWake(w, m.now);
      SameMessagesBalance(w.s, Load(w.s.disk, w.s.preflightRequired, m.now), channel);
  }

  /** In every reachable state an arm replaces at most a wake that asks for no acknowledgement, and that has no queue. */
  lemma OnlyPlainIsReplaced(w: World, m: Moment)
    requires Good(w) && m.event.EArm? && React(w.s, m).1.Armed? && !React(w.s, m).1.deduplicated
    ensures var q := m.event.request;
            Replaced(w.s, q) != multiset{} ==>
              && q.channel in w.s.pending && !w.s.pending[q.channel].modelAckRequired
              && Replaced(w.s, q) == multiset(Parts(w.s.pending[q.channel].message))
  {
    hide Parts, LiveCooldowns, LiveGlobal, ValidArm;
    var q := m.event.request;
    if q.channel in w.s.pending {
      Known(w, q.channel);
    }
  }

  /** Everything booked for the channel in the first `i` steps. */
  ghost function Books(w: World, run: seq<Moment>, i: nat, channel: string): Ledger
    requires i <= |run|
  {
    if i == 0 then NOTHING
    else Add(Books(w, run, i - 1, channel), Booked(At(w, run, i - 1).s, run[i - 1], Answer(w, run, i - 1), channel))
  }

  /** Over every run, accepted = waiting + retired + handed out + dropped, message by message. */
  lemma {:induction false} EventsAreConserved(now: real, preflightRequired: bool, run: seq<Moment>, i: nat, channel: string)
    requires 0.0 <= now && RunEnabled(Start(now, preflightRequired), run) && i <= |run|
    requires forall k | 0 <= k < |run| :: CleanArm(run[k], channel)
    ensures var b := Books(Start(now, preflightRequired), run, i, channel);
            var s := At(Start(now, preflightRequired), run, i).s;
            Live(s, channel) + b.retired + b.handed + b.dropped == b.accepted && CleanChannel(s, channel)
    decreases i
  {
    hide Good, React, Step, CleanChannel, Live, Booked;
    var w := Start(now, preflightRequired);
    if i == 0 {
      NothingWaiting(now, preflightRequired, channel);
    } else {
      EventsAreConserved(now, preflightRequired, run, i - 1, channel);
      StartIsGood(now, preflightRequired);
      GoodAt(w, run, i - 1);
      EnabledAt(w, run, i - 1);
      assert CleanArm(run[i - 1], channel);
      StepConserves(At(w, run, i - 1), run[i - 1], channel);
      StepState(At(w, run, i - 1), run[i - 1]);
      BalanceAdds(Live(At(w, run, i - 1).s, channel), Live(At(w, run, i).s, channel), Books(w, run, i - 1, channel),
                  Booked(At(w, run, i - 1).s, run[i - 1], Answer(w, run, i - 1), channel));
    }
  }

  lemma BalanceAdds(before: multiset<string>, after: multiset<string>, a: Ledger, b: Ledger)
    requires before + a.retired + a.handed + a.dropped == a.accepted
    requires after + b.retired + b.handed + b.dropped == before + b.accepted
    ensures var c := Add(a, b); after + c.retired + c.handed + c.dropped == c.accepted
  {
    var c := Add(a, b);
    forall x ensures (after + c.retired + c.handed + c.dropped)[x] == c.accepted[x] {
      assert (before + a.retired + a.handed + a.dropped)[x] == a.accepted[x];
      assert (after + b.retired + b.handed + b.dropped)[x] == (before + b.accepted)[x];
    }
  }

  lemma StepState(w: World, m: Moment)
    ensures Step(w, m).s == React(w.s, m).0
  {
    hide React;
  }

  lemma NothingWaiting(now: real, preflightRequired: bool, channel: string)
    ensures var s := Start(now, preflightRequired).s; Live(s, channel) == multiset{} && CleanChannel(s, channel)
  {
  }
}
