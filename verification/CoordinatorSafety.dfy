/** Every operation keeps the run invariant, and what that means for leases, tokens, deliveries and restarts. */
module CoordinatorSafety {
  import opened Prelude
  import opened Wakes
  import opened CoordinatorSpec
  import opened CoordinatorRuns
  import opened Batches
  import Text

  lemma Known(w: World, channel: string)
    requires Good(w) && channel in w.s.pending
    ensures var v := w.s.pending[channel];
            ValidChannel(channel) && WakeOk(v) && SettledIsVisible(v, w.settled) && IdsDrawn(v, w.issued, w.spent)
  {
  }

  lemma KnownState(w: World)
    requires Good(w)
    ensures StateOk(w.s, w.now) && LaneCooled(w.s, w.now, w.lastDelivery) && 0.0 <= w.now && "" !in w.s.pending
    ensures w.settled <= w.issued && w.spent <= w.issued
  {
    if "" in w.s.pending {
      Known(w, "");
    }
  }

  // ---------------------------------------------------------------- one lemma per operation

  lemma QuietStep(w: World, m: Moment, t: State)
    requires Good(w) && Enabled(w, m)
    requires t.pending == w.s.pending && t.disk == w.s.disk && t.globalCooldownUntil == w.s.globalCooldownUntil
    ensures Good(World(t, m.now, w.issued + {m.token}, w.spent + {}, w.settled + {}, w.lastDelivery))
  {
    hide Good;
    KnownState(w);
    OneChannelStep(w, m, t, "", {}, {}, w.lastDelivery);
  }

  /** Removing a wake and saving. */
  lemma RemovalStep(w: World, m: Moment, u: State, channel: string, spent: set<string>, settled: set<string>, last: Option<real>)
    requires Good(w) && Enabled(w, m)
    requires u.pending == w.s.pending - {channel}
    requires LaneCooled(u, m.now, last)
    requires ComesFrom(w, channel, spent, settled)
    ensures Good(World(Save(u, m.now), m.now, w.issued + {m.token}, w.spent + spent, w.settled + settled, last))
  {
    hide Good;
    KnownState(w);
    SaveFacts(u, m.now, last);
    assert u.pending.Keys <= w.s.pending.Keys;
    CardinalityLe(u.pending.Keys, w.s.pending.Keys);
    OneChannelStep(w, m, Save(u, m.now), channel, spent, settled, last);
  }

  lemma CardinalityLe<T>(a: set<T>, b: set<T>)
    requires a <= b
    ensures |a| <= |b|
  {
    assert b == a + (b - a);
  }

  /** Replacing the wake on an occupied channel and saving. */
  lemma ReplaceStep(w: World, m: Moment, u: State, channel: string, n: Wake, spent: set<string>, settled: set<string>, last: Option<real>)
    requires Good(w) && Enabled(w, m) && channel in w.s.pending
    requires u.pending == w.s.pending[channel := n]
    requires LaneCooled(u, m.now, last)
    requires WakeOk(n)
    requires IdFrom(n.continuationId, w.s.pending[channel].continuationId, m.token)
    requires IdFrom(n.claimId, w.s.pending[channel].claimId, m.token)
    requires n.claimId.Some? ==> n.claimId.value !in spent
    requires SettledIsVisible(n, w.settled + settled)
    requires LeaseActive(n, m.now) ==> LeaseActive(w.s.pending[channel], m.now) || !OtherClaimActive(w.s.pending, channel, m.now)
    requires ComesFrom(w, channel, spent, settled)
    ensures Good(World(Save(u, m.now), m.now, w.issued + {m.token}, w.spent + spent, w.settled + settled, last))
  {
    hide Good;
    KnownState(w);
    Known(w, channel);
    SaveFacts(u, m.now, last);
    assert u.pending.Keys == w.s.pending.Keys;
    OneChannelStep(w, m, Save(u, m.now), channel, spent, settled, last);
  }

  lemma PromotedOk(s: State, channel: string, v: Wake, now: real, token: string)
    requires WakeOk(v) && v.modelAckRequired && v.queued != []
    ensures WakeOk(Promoted(s, channel, v, now, token))
  {
    PackLengths(v.queued, v.queuedEscalations, ZipLength(v));
    PackBounded(v.queued, v.queuedEscalations, ZipLength(v));
    PackMembers(v.queued, v.queuedEscalations, ZipLength(v));
    var p := Pack(v.queued, v.queuedEscalations, ZipLength(v));
    forall i | 0 <= i < |p.remaining| ensures ValidMessage(p.remaining[i]) {
      assert p.remaining[i] in v.queued;
    }
  }

  /** Starting the next wake from the queue of `v`. */
  lemma NextWakeStep(w: World, m: Moment, u: State, channel: string, v: Wake, spent: set<string>, settled: set<string>, last: Option<real>)
    requires Good(w) && Enabled(w, m) && channel in w.s.pending
    requires u.pending == w.s.pending[channel := v] && WakeOk(v) && v.modelAckRequired && v.queued != []
    requires LaneCooled(u, m.now, last)
    requires ComesFrom(w, channel, spent, settled)
    ensures Good(World(Save(Promote(u, channel, v, m.now, m.token), m.now), m.now,
                       w.issued + {m.token}, w.spent + spent, w.settled + settled, last))
  {
    hide Good, WakeOk;
    KnownState(w);
    Known(w, channel);
    PromotedOk(u, channel, v, m.now, m.token);
    var n := Promoted(u, channel, v, m.now, m.token);
    var p := Promote(u, channel, v, m.now, m.token);
    assert p.pending == w.s.pending[channel := n];
    assert m.token !in settled by {
      assert IdsDrawn(w.s.pending[channel], w.issued, w.spent);
    }
    ReplaceStep(w, m, p, channel, n, spent, settled, last);
  }

  /** Promotion of an acknowledged wake `v`, from a state that differs only in leases and cooldowns. */
  lemma PromoteStep(w: World, m: Moment, u: State, channel: string, v: Wake, spent: set<string>, settled: set<string>, last: Option<real>)
    requires Good(w) && Enabled(w, m) && channel in w.s.pending
    requires u.pending == w.s.pending[channel := v] && WakeOk(v) && v.modelAckRequired
    requires LaneCooled(u, m.now, last)
    requires ComesFrom(w, channel, spent, settled)
    ensures Good(World(Save(Promote(u, channel, v, m.now, m.token), m.now), m.now,
                       w.issued + {m.token}, w.spent + spent, w.settled + settled, last))
  {
    hide Good, WakeOk;
    if v.queued == [] {
      var p := Promote(u, channel, v, m.now, m.token);
      assert p.pending == w.s.pending - {channel};
      RemovalStep(w, m, p, channel, spent, settled, last);
    } else {
      NextWakeStep(w, m, u, channel, v, spent, settled, last);
    }
  }

  lemma CoalescedOk(s: State, r: ArmRequest, v: Wake, now: real)
    requires WakeOk(v) && v.modelAckRequired && ValidMessage(r.message)
    ensures WakeOk(Coalesced(s, r, v, now))
  {
    var parts := Parts(v.message);
    Text.JoinExtend(parts, r.message, BATCH_SEPARATOR);
  }

  lemma CoalesceStep(w: World, m: Moment, r: ArmRequest)
    requires Good(w) && Enabled(w, m) && ValidArm(r) && Coalesces(w.s, r)
    ensures var n := Coalesced(w.s, r, w.s.pending[r.channel], m.now);
            Good(World(Save(w.s.(pending := w.s.pending[r.channel := n]), m.now), m.now,
                       w.issued + {m.token}, w.spent + {}, w.settled + {}, w.lastDelivery))
    ensures Good(World(Save(w.s, m.now), m.now, w.issued + {m.token}, w.spent + {}, w.settled + {}, w.lastDelivery))
  {
    hide Good, WakeOk;
    KnownState(w);
    Known(w, r.channel);
    var v := w.s.pending[r.channel];
    CoalescedOk(w.s, r, v, m.now);
    var n := Coalesced(w.s, r, v, m.now);
    assert SettledIsVisible(v, w.settled);
    assert SettledIsVisible(n, w.settled);
    ReplaceStep(w, m, w.s.(pending := w.s.pending[r.channel := n]), r.channel, n, {}, {}, w.lastDelivery);
    assert w.s.pending == w.s.pending[r.channel := v];
    ReplaceStep(w, m, w.s, r.channel, v, {}, {}, w.lastDelivery);
  }

  lemma ArmedOk(s: State, r: ArmRequest, now: real, token: string)
    requires ValidArm(r)
    ensures var n := ArmedWake(s, r, now, token); WakeOk(n) && n.claimId.None? && !LeaseActive(n, now)
  {
  }

  lemma NewWakeStep(w: World, m: Moment, r: ArmRequest)
    requires Good(w) && Enabled(w, m) && ValidArm(r) && (r.channel !in w.s.pending ==> |w.s.pending| < MAX_CHANNELS)
    ensures var u := w.s.(pending := w.s.pending[r.channel := ArmedWake(w.s, r, m.now, m.token)]);
            Good(World(Save(u, m.now), m.now, w.issued + {m.token}, w.spent + {}, w.settled + {}, w.lastDelivery))
  {
    hide Good, WakeOk;
    KnownState(w);
    var n := ArmedWake(w.s, r, m.now, m.token);
    ArmedOk(w.s, r, m.now, m.token);
    var u := w.s.(pending := w.s.pending[r.channel := n]);
    SaveFacts(u, m.now, w.lastDelivery);
    assert u.pending.Keys == w.s.pending.Keys + {r.channel};
    assert |u.pending| <= MAX_CHANNELS;
    assert SettledIsVisible(n, w.settled + {}) by {
      assert m.token !in w.settled;
    }
    assert NewWakeOk(w, m, Save(u, m.now), r.channel, {}, {});
    OneChannelStep(w, m, Save(u, m.now), r.channel, {}, {}, w.lastDelivery);
  }

  lemma ArmStep(w: World, m: Moment)
    requires Good(w) && Enabled(w, m) && m.event.EArm?
    ensures Good(Advance(w, m, Arm(w.s, m.event.request, m.now, m.token)))
  {
    hide Good, WakeOk;
    var r := m.event.request;
    var (t, a) := Arm(w.s, r, m.now, m.token);
    if a.Failed? {
      QuietStep(w, m, t);
    } else if Coalesces(w.s, r) {
      CoalesceStep(w, m, r);
    } else {
      NewWakeStep(w, m, r);
    }
  }

  lemma StatusStep(w: World, m: Moment)
    requires Good(w) && Enabled(w, m) && m.event.EStatus?
    ensures Good(Advance(w, m, Status(w.s, m.event.channel, m.event.lease, m.event.mode, m.now, m.event.backoff, m.token)))
  {
    hide Good;
    KnownState(w);
    if m.event.channel in w.s.pending {
      Known(w, m.event.channel);
    }
    var e := m.event;
    var u := TouchX(w.s, e.channel, e.lease, e.mode, m.now);
    var t := Status(w.s, e.channel, e.lease, e.mode, m.now, e.backoff, m.token).0;
    if t == w.s || t == u {
      QuietStep(w, m, t);
    } else {
      assert u.pending == w.s.pending[e.channel := w.s.pending[e.channel]];
      PromoteStep(w, m, u, e.channel, w.s.pending[e.channel], {}, {}, w.lastDelivery);
    }
  }

  lemma ClaimedOk(v: Wake, now: real, token: string)
    requires WakeOk(v) && !Exhausted(v) && !v.delivered && !DeliveryBlocked(v)
    ensures RetriesCover(v) && WakeOk(ClaimedWake(v, now, token))
  {
  }

  lemma ClaimStep(w: World, m: Moment)
    requires Good(w) && Enabled(w, m) && m.event.EClaim?
    ensures Good(Advance(w, m, Claim(w.s, m.event.channel, m.event.lease, m.event.mode, m.now, m.event.backoff, m.token)))
  {
    hide Good;
    if m.event.channel in w.s.pending {
      Known(w, m.event.channel);
    }
    var e := m.event;
    var u := TouchX(w.s, e.channel, e.lease, e.mode, m.now);
    var (t, a) := Claim(w.s, e.channel, e.lease, e.mode, m.now, e.backoff, m.token);
    if !a.Claimed? {
      QuietStep(w, m, t);
    } else {
      AdmittedClaimStep(w, m, u, e.channel);
    }
  }

  lemma AdmittedClaimStep(w: World, m: Moment, u: State, channel: string)
    requires Good(w) && Enabled(w, m)
    requires u.pending == w.s.pending && u.globalCooldownUntil == w.s.globalCooldownUntil
    requires channel in u.pending && RetriesCover(u.pending[channel])
    requires exists lease, mode, backoff :: CanClaim(u, channel, lease, mode, m.now, backoff)
    ensures var n := ClaimedWake(u.pending[channel], m.now, m.token);
            Good(World(Save(u.(pending := u.pending[channel := n]), m.now), m.now,
                       w.issued + {m.token}, w.spent + {}, w.settled + {}, w.lastDelivery))
  {
    hide Good;
    KnownState(w);
    Known(w, channel);
    var v := u.pending[channel];
    assert !Exhausted(v) && !v.delivered && !DeliveryBlocked(v) && !OtherClaimActive(u.pending, channel, m.now);
    ClaimedOk(v, m.now, m.token);
    var n := ClaimedWake(v, m.now, m.token);
    assert SettledIsVisible(v, w.settled);
    ReplaceStep(w, m, u.(pending := u.pending[channel := n]), channel, n, {}, {}, w.lastDelivery);
  }

  lemma CoolFacts(s: State, channel: string, now: real)
    ensures LaneCooled(Cool(s, channel, now), now, Some(now)) && Cool(s, channel, now).pending == s.pending
    ensures forall last :: LaneCooled(s, now, last) ==> LaneCooled(Cool(s, channel, now), now, last)
  {
  }

  lemma FinalizedOk(v: Wake, e: Event, now: real)
    requires WakeOk(v) && v.modelAckRequired && v.claimId.Some? && e.EFinalize?
    ensures WakeOk(FinalizedWake(v, e.name, e.outcome, e.detail, now))
  {
  }

  lemma AcceptedFinalizeStep(w: World, m: Moment, e: Event)
    requires Good(w) && Enabled(w, m) && e.EFinalize? && HoldsClaim(w.s, e.channel, e.claimId)
    requires w.s.pending[e.channel].continuationId.Some?
    ensures var v := w.s.pending[e.channel];
            var f := FinalizedWake(v, e.name, e.outcome, e.detail, m.now);
            var s := w.s.(pending := w.s.pending[e.channel := f]);
            var u := Cool(s, e.channel, m.now);
            var settled := if e.outcome.Delivered? || e.outcome.Uncertain? then {v.continuationId.value} else {};
            var next := if !e.outcome.Delivered? then s else if v.modelAcknowledged then Promote(u, e.channel, f, m.now, m.token) else u;
            Good(World(Save(next, m.now), m.now, w.issued + {m.token}, w.spent + {e.claimId}, w.settled + settled,
                       if e.outcome.Delivered? then Some(m.now) else w.lastDelivery))
  {
    hide Good;
    KnownState(w);
    Known(w, e.channel);
    var v := w.s.pending[e.channel];
    var f := FinalizedWake(v, e.name, e.outcome, e.detail, m.now);
    var s := w.s.(pending := w.s.pending[e.channel := f]);
    var settled := if e.outcome.Delivered? || e.outcome.Uncertain? then {v.continuationId.value} else {};
    FinalizedOk(v, e, m.now);
    CoolFacts(s, e.channel, m.now);
    assert SettledIsVisible(v, w.settled);
    if !e.outcome.Delivered? {
      ReplaceStep(w, m, s, e.channel, f, {e.claimId}, settled, w.lastDelivery);
    } else if !v.modelAcknowledged {
      ReplaceStep(w, m, Cool(s, e.channel, m.now), e.channel, f, {e.claimId}, settled, Some(m.now));
    } else {
      PromoteStep(w, m, Cool(s, e.channel, m.now), e.channel, f, {e.claimId}, settled, Some(m.now));
    }
  }

  lemma FinalizeStep(w: World, m: Moment)
    requires Good(w) && Enabled(w, m) && m.event.EFinalize?
    ensures Good(Advance(w, m, Finalize(w.s, m.event.channel, m.event.claimId, m.event.name, m.event.outcome, m.event.detail, m.now, m.token)))
  {
    hide Good, WakeOk;
    var e := m.event;
    var (t, a) := Finalize(w.s, e.channel, e.claimId, e.name, e.outcome, e.detail, m.now, m.token);
    if !a.Accepted? {
      QuietStep(w, m, t);
    } else {
      AcceptedFinalizeStep(w, m, e);
    }
  }

  lemma AcceptedAckStep(w: World, m: Moment, c: State, channel: string, claimId: string)
    requires Good(w) && Enabled(w, m) && HoldsClaim(w.s, channel, claimId)
    requires c.pending == w.s.pending && LaneCooled(c, m.now, Some(m.now))
    ensures var v := w.s.pending[channel];
            var next := if v.modelAckRequired && v.modelAcknowledged then Promote(c, channel, v, m.now, m.token)
                        else if !v.modelAckRequired then c.(pending := c.pending - {channel})
                        else c.(pending := c.pending[channel := AckedWake(v, m.now)]);
            Good(World(Save(next, m.now), m.now, w.issued + {m.token}, w.spent + {claimId},
                       w.settled + IdSet(v.continuationId), Some(m.now)))
  {
    hide Good;
    Known(w, channel);
    var v := w.s.pending[channel];
    var settled := IdSet(v.continuationId);
    assert WakeOk(v);
    if v.modelAckRequired && v.modelAcknowledged {
      assert c.pending == w.s.pending[channel := v];
      PromoteStep(w, m, c, channel, v, {claimId}, settled, Some(m.now));
    } else if !v.modelAckRequired {
      RemovalStep(w, m, c.(pending := c.pending - {channel}), channel, {claimId}, settled, Some(m.now));
    } else {
      ReplaceStep(w, m, c.(pending := c.pending[channel := AckedWake(v, m.now)]), channel, AckedWake(v, m.now),
                  {claimId}, settled, Some(m.now));
    }
  }

  lemma AckStep(w: World, m: Moment)
    requires Good(w) && Enabled(w, m) && m.event.EAck?
    ensures Good(Advance(w, m, Ack(w.s, m.event.channel, m.event.claimId, m.event.lease, m.now, m.token)))
  {
    hide Good, WakeOk;
    var e := m.event;
    var (t, a) := Ack(w.s, e.channel, e.claimId, e.lease, m.now, m.token);
    if !a.Accepted? {
      QuietStep(w, m, t);
    } else {
      var u := Touch(w.s, e.channel, e.lease, m.now);
      CoolFacts(u, e.channel, m.now);
      AcceptedAckStep(w, m, Cool(u, e.channel, m.now), e.channel, e.claimId);
    }
  }

  lemma AcknowledgedStep(w: World, m: Moment, c: string)
    requires Good(w) && Enabled(w, m) && c in w.s.pending && w.s.pending[c].modelAckRequired
    ensures var n := w.s.pending[c].(queued := [], queuedEscalations := [], modelAcknowledged := true);
            Good(World(Save(w.s.(pending := w.s.pending[c := n]), m.now), m.now,
                       w.issued + {m.token}, w.spent + {}, w.settled + {}, w.lastDelivery))
  {
    hide Good;
    Known(w, c);
    EditStep(w, m, c, w.s.pending[c].(queued := [], queuedEscalations := [], modelAcknowledged := true));
  }

  lemma ModelAckStep(w: World, m: Moment)
    requires Good(w) && Enabled(w, m) && m.event.EModelAck?
    ensures Good(Advance(w, m, ModelAck(w.s, m.event.continuation, m.now)))
  {
    hide Good, Save, WakeOk;
    KnownState(w);
    var found := ChannelOf(w.s, m.event.continuation);
    if !ValidContinuation(m.event.continuation) || found.None? {
      QuietStep(w, m, w.s);
    } else {
      ResilientById(w, found.value, m.event.continuation);
      if LeaseActive(w.s.pending[found.value], m.now) {
        AcknowledgedStep(w, m, found.value);
      } else {
        RemovalStep(w, m, w.s.(pending := w.s.pending - {found.value}), found.value, {}, {}, w.lastDelivery);
      }
    }
  }

  lemma ResilientById(w: World, channel: string, continuation: string)
    requires Good(w) && Holds(w.s, channel, continuation)
    ensures w.s.pending[channel].modelAckRequired
  {
    Known(w, channel);
  }

  lemma ObserveStep(w: World, m: Moment)
    requires Good(w) && Enabled(w, m) && m.event.EObserve?
    ensures Good(Advance(w, m, Observe(w.s, m.event.channel, m.event.continuation, m.now)))
  {
    hide Good;
    KnownState(w);
    if m.event.channel in w.s.pending {
      Known(w, m.event.channel);
    }
    var e := m.event;
    var (t, a) := Observe(w.s, e.channel, e.continuation, m.now);
    if a != Flag(true) {
      QuietStep(w, m, t);
    } else {
      CoolFacts(w.s, e.channel, m.now);
      var c := Cool(w.s, e.channel, m.now);
      assert c.pending == w.s.pending[e.channel := w.s.pending[e.channel]];
      ReplaceStep(w, m, c, e.channel, w.s.pending[e.channel], {}, {}, Some(m.now));
    }
  }

  /** Editing one unclaimed wake without touching its ids. */
  lemma EditStep(w: World, m: Moment, channel: string, n: Wake)
    requires Good(w) && Enabled(w, m) && channel in w.s.pending && WakeOk(n)
    requires w.s.pending[channel].claimId == n.claimId && w.s.pending[channel].continuationId == n.continuationId
    requires w.s.pending[channel].leaseExpiresAt == n.leaseExpiresAt
    requires SettledIsVisible(n, w.settled)
    ensures Good(World(Save(w.s.(pending := w.s.pending[channel := n]), m.now), m.now,
                       w.issued + {m.token}, w.spent + {}, w.settled + {}, w.lastDelivery))
  {
    hide Good, WakeOk;
    KnownState(w);
    Known(w, channel);
    ReplaceStep(w, m, w.s.(pending := w.s.pending[channel := n]), channel, n, {}, {}, w.lastDelivery);
  }

  lemma MarkPreclaimStep(w: World, m: Moment)
    requires Good(w) && Enabled(w, m) && m.event.EMarkPreclaim?
    ensures Good(Advance(w, m, MarkPreclaim(w.s, m.event.channel, m.event.continuation, m.event.name, m.event.detail, m.now)))
  {
    hide Good;
    var (t, a) := MarkPreclaim(w.s, m.event.channel, m.event.continuation, m.event.name, m.event.detail, m.now);
    if a != Flag(true) {
      QuietStep(w, m, t);
    } else {
      Known(w, m.event.channel);
      EditStep(w, m, m.event.channel, t.pending[m.event.channel]);
    }
  }

  lemma ClearPreclaimStep(w: World, m: Moment)
    requires Good(w) && Enabled(w, m) && m.event.EClearPreclaim?
    ensures Good(Advance(w, m, ClearPreclaim(w.s, m.event.channel, m.event.continuation, m.event.name, m.now)))
  {
    hide Good;
    var (t, a) := ClearPreclaim(w.s, m.event.channel, m.event.continuation, m.event.name, m.now);
    if a != Flag(true) {
      QuietStep(w, m, t);
    } else {
      Known(w, m.event.channel);
      EditStep(w, m, m.event.channel, t.pending[m.event.channel]);
    }
  }

  lemma AuthorizeStep(w: World, m: Moment)
    requires Good(w) && Enabled(w, m) && m.event.EAuthorize?
    ensures Good(Advance(w, m, AuthorizePreflight(w.s, m.event.channel, m.event.continuation, m.now)))
  {
    hide Good;
    var (t, a) := AuthorizePreflight(w.s, m.event.channel, m.event.continuation, m.now);
    if a != Flag(true) {
      QuietStep(w, m, t);
    } else {
      Known(w, m.event.channel);
      EditStep(w, m, m.event.channel, t.pending[m.event.channel]);
    }
  }

  lemma CancelStep(w: World, m: Moment)
    requires Good(w) && Enabled(w, m) && m.event.ECancel?
    ensures Good(Advance(w, m, Cancel(w.s, m.event.channel, m.now)))
  {
    hide Good, WakeOk;
    KnownState(w);
    var (t, a) := Cancel(w.s, m.event.channel, m.now);
    if a != Flag(true) {
      QuietStep(w, m, t);
    } else {
      RemovalStep(w, m, w.s.(pending := w.s.pending - {m.event.channel}), m.event.channel, {}, {}, w.lastDelivery);
    }
  }

  lemma ResolveStep(w: World, m: Moment)
    requires Good(w) && Enabled(w, m) && m.event.EResolve?
    ensures Good(Advance(w, m, Resolve(w.s, m.event.continuation, m.now)))
  {
    hide Good, WakeOk;
    KnownState(w);
    var (t, a) := Resolve(w.s, m.event.continuation, m.now);
    if a != Flag(true) {
      QuietStep(w, m, t);
    } else {
      var c := ChannelOf(w.s, m.event.continuation).value;
      RemovalStep(w, m, w.s.(pending := w.s.pending - {c}), c, {}, {}, w.lastDelivery);
    }
  }

  lemma MarkEscalationStep(w: World, m: Moment)
    requires Good(w) && Enabled(w, m) && m.event.EMarkEscalation?
    ensures Good(Advance(w, m, MarkEscalation(w.s, m.event.continuation, m.now)))
  {
    hide Good, Save;
    KnownState(w);
    var (t, a) := MarkEscalation(w.s, m.event.continuation, m.now);
    if ChannelOf(w.s, m.event.continuation).None? || a.Failed?
       || w.s.pending[ChannelOf(w.s, m.event.continuation).value].escalationNotifiedAt.Some? {
      QuietStep(w, m, t);
    } else {
      var c := ChannelOf(w.s, m.event.continuation).value;
      Known(w, c);
      EditStep(w, m, c, w.s.pending[c].(escalationNotifiedAt := Some(m.now)));
    }
  }

  lemma InstallStep(w: World, m: Moment)
    requires Good(w) && Enabled(w, m) && m.event.EInstall?
    ensures Good(Advance(w, m, InstallLease(w.s, m.event.channel, m.event.installed, m.now)))
  {
    hide Good, WakeOk;
    KnownState(w);
    var (t, a) := InstallLease(w.s, m.event.channel, m.event.installed, m.now);
    if a.Failed? {
      QuietStep(w, m, t);
    } else {
      var u := w.s.(leases := w.s.leases[m.event.channel := m.event.installed]);
      SaveFacts(u, m.now, w.lastDelivery);
      OneChannelStep(w, m, t, "", {}, {}, w.lastDelivery);
    }
  }

  /** Loading what was saved gives back the same wakes and the same lane. */
  lemma RestartLosesNoWake(w: World, now: real)
    requires Good(w) && now >= w.now
    ensures var t := Load(w.s.disk, w.s.preflightRequired, now);
            && t.pending == w.s.pending
            && Max(t.globalCooldownUntil, now) == Max(w.s.globalCooldownUntil, now)
  {
    var t := Load(w.s.disk, w.s.preflightRequired, now);
    assert forall c | c in w.s.pending :: Loadable(c, w.s.pending[c]) by {
      forall c | c in w.s.pending ensures Loadable(c, w.s.pending[c]) {
        assert WakeOk(w.s.pending[c]);
      }
    }
    assert t.pending == w.s.pending;
  }

  lemma RestartStep(w: World, m: Moment)
    requires Good(w) && Enabled(w, m) && m.event.ERestart?
    ensures Good(Advance(w, m, (Load(w.s.disk, w.s.preflightRequired, m.now), Flag(true))))
  {
    hide Good, WakeOk;
    KnownState(w);
    RestartLosesNoWake(w, m.now);
    var t := Load(w.s.disk, w.s.preflightRequired, m.now);
    OneChannelStep(w, m, t, "", {}, {}, w.lastDelivery);
  }

  lemma StepKeepsGood(w: World, m: Moment)
    requires Good(w) && Enabled(w, m)
    ensures Good(Step(w, m))
  {
    hide Good, Advance, Arm, Status, Claim, Finalize, Ack, ModelAck, Observe, MarkPreclaim, ClearPreclaim, AuthorizePreflight,
         MarkEscalation, Resolve, Cancel, InstallLease, Load;
    match m.event
    case EArm(_) => ArmStep(w, m);
    case EStatus(_, _, _, _) => StatusStep(w, m);
    case EClaim(_, _, _, _) => ClaimStep(w, m);
    case EFinalize(_, _, _, _, _) => FinalizeStep(w, m);
    case EAck(_, _, _) => AckStep(w, m);
    case EModelAck(_) => ModelAckStep(w, m);
    case EObserve(_, _) => ObserveStep(w, m);
    case EMarkPreclaim(_, _, _, _) => MarkPreclaimStep(w, m);
    case EClearPreclaim(_, _, _) => ClearPreclaimStep(w, m);
    case EAuthorize(_, _) => AuthorizeStep(w, m);
    case EMarkEscalation(_) => MarkEscalationStep(w, m);
    case EResolve(_) => ResolveStep(w, m);
    case ECancel(_) => CancelStep(w, m);
    case EInstall(_, _) => InstallStep(w, m);
    case ERestart => RestartStep(w, m);
  }
}
