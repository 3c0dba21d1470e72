/**
 `CoordinatorService` in its own form: wakes are objects updated in place, the service's tables are
 fields. Every method is proved to do what `CoordinatorSpec` says of its operation.
 */
module Coordinator {
  import opened Prelude
  import opened Wakes
  import opened CoordinatorSpec
  import Text

  /** A wake object; its slots are one record, updated in place. */
  class PendingWake {
    var slots: Wake

    constructor (w: Wake)
      ensures slots == w
    {
      slots := w;
    }

    /** The updates of a successful claim. */
    method Take(now: real, token: string)
      requires RetriesCover(slots) && !Exhausted(slots)
      modifies this
      ensures slots == ClaimedWake(old(slots), now, token)
    {
      var expires := now + LEASE_SECONDS;
      slots := slots.(claimId := Some(token));
      slots := slots.(leaseExpiresAt := Some(expires));
      slots := slots.(preflightAuthorizedAt := None);
      if slots.modelAckRequired {
        slots := slots.(attempts := slots.attempts + 1);
        if slots.attempts < slots.maxAttempts {
          slots := slots.(availableAt := expires + slots.retryDelays[slots.attempts - 1]);
        } else {
          slots := slots.(availableAt := expires);
          slots := slots.(escalationAt := Some(expires + slots.escalationDelay));
        }
      }
    }

    /** The updates of `finalize_transport`, whatever the disposition. */
    method Finish(name: string, d: Disposition, text: Option<string>, now: real)
      modifies this
      ensures slots == FinalizedWake(old(slots), name, d, text, now)
    {
      hide BoundedDetail;
      slots := slots.(transportName := Some(name), disposition := Some(d), detail := BoundedDetail(text));
      slots := slots.(ownerInputRequired := d.OwnerInputRequired?);
      slots := slots.(claimId := None, leaseExpiresAt := None);
      if d.Delivered? {
        slots := slots.(delivered := true, deliveredAt := Some(now));
        if !slots.modelAcknowledged {
          slots := slots.(availableAt := now, escalationAt := Some(now + slots.escalationDelay));
        }
      } else if d.Uncertain? || d.OwnerInputRequired? {
        slots := slots.(escalationAt := Some(now));
      }
    }

    /** The updates of an iframe acknowledgement that still waits for the model. */
    method MarkSubmitted(now: real)
      modifies this
      ensures slots == AckedWake(old(slots), now)
    {
      slots := slots.(claimId := None);
      slots := slots.(leaseExpiresAt := None);
      slots := slots.(delivered := true);
      slots := slots.(deliveredAt := Some(now));
      slots := slots.(availableAt := now);
      slots := slots.(escalationAt := Some(now + slots.escalationDelay));
    }

    /** The updates of `_coalesce_resilient_locked` for a message that is not a duplicate. */
    method Absorb(added: string, escalation: string, delay: real, now: real, cooldown: real)
      modifies this
      ensures slots == CoalescedWith(old(slots), added, escalation, delay, now, cooldown)
    {
      var current := Parts(slots.message);
      var combined := Batch(current + [added]);
      if slots.attempts == 0 && slots.claimId.None? && !slots.modelAcknowledged && |combined| <= MAX_VISIBLE_REASON_CHARS {
        slots := slots.(message := combined);
        slots := slots.(preflightAuthorizedAt := None);
        slots := slots.(escalationMessage := BoundedEscalation([slots.escalationMessage.GetOr(""), escalation]));
        if delay > 0.0 {
          var quietUntil := Min(slots.createdAt + MAX_BATCH_DEBOUNCE_WINDOW, now + delay);
          slots := slots.(availableAt := Max(Max(slots.availableAt, quietUntil), cooldown));
        }
      } else {
        slots := slots.(queued := slots.queued + [added]);
        slots := slots.(queuedEscalations := slots.queuedEscalations + [escalation]);
      }
    }

    /** `model_ack` empties the queue into its answer. */
    method HandOut() returns (batched: seq<string>)
      modifies this
      ensures batched == old(slots).queued
      ensures slots == old(slots).(queued := [], queuedEscalations := [])
    {
      batched := slots.queued;
      slots := slots.(queued := []);
      slots := slots.(queuedEscalations := []);
    }

    method BlockOnAuth(name: string, text: Option<string>, now: real)
      modifies this
      ensures slots == BlockedWake(old(slots), name, text, now)
    {
      slots := slots.(ownerInputRequired := true);
      slots := slots.(transportName := Some(name));
      slots := slots.(disposition := Some(OwnerInputRequired));
      slots := slots.(detail := Some(AuthDetail(text)));
      slots := slots.(escalationAt := Some(now));
    }

    method Release(now: real)
      modifies this
      ensures slots == ReleasedWake(old(slots), now)
    {
      if LegacyAuthMarker(slots.detail.GetOr("")) && slots.attempts > 0 {
        slots := slots.(attempts := slots.attempts - 1);
      }
      slots := slots.(ownerInputRequired := false);
      slots := slots.(transportName := None);
      slots := slots.(disposition := None);
      slots := slots.(detail := None);
      slots := slots.(escalationAt := None);
      slots := slots.(escalationNotifiedAt := None);
      slots := slots.(availableAt := Min(slots.availableAt, now));
    }
  }

  class CoordinatorService {
    var pending: map<string, PendingWake>
    var cooldownUntil: map<string, real>
    var globalCooldownUntil: real
    var leases: map<string, Lease>
    var startedAt: real
    var disk: Disk
    const preflightRequired: bool

    /** No two channels share a wake object. */
    ghost predicate Valid()
      reads this
    {
      forall c, d | c in pending && d in pending && pending[c] == pending[d] :: c == d
    }

    function Snaps(): map<string, Wake>
      reads this, pending.Values
    {
      map c | c in pending :: pending[c].slots
    }

    ghost function View(): State
      reads this, pending.Values
    {
      State(Snaps(), cooldownUntil, globalCooldownUntil, leases, startedAt, preflightRequired, disk)
    }

    method Save(now: real)
      requires Valid()
      modifies this
      ensures Valid() && pending == old(pending)
      ensures View() == CoordinatorSpec.Save(old(View()), now)
    {
      hide LiveCooldowns;
      ghost var before := View();
      cooldownUntil := LiveCooldowns(cooldownUntil, now);
      if globalCooldownUntil <= now {
        globalCooldownUntil := 0.0;
      }
      disk := Disk(Snaps(), cooldownUntil, globalCooldownUntil, leases);
      assert Snaps() == before.pending;
    }

    method Touch(channel: string, lease: Option<string>, now: real)
      requires Valid()
      modifies this
      ensures Valid() && pending == old(pending)
      ensures View() == CoordinatorSpec.Touch(old(View()), channel, lease, now)
    {
      if channel in leases && lease == Some(leases[channel].leaseId) {
        leases := leases[channel := leases[channel].(refreshedAt := now)];
      }
    }

    /** The scan of `_other_claim_until`, compared with the clock. */
    method OtherClaimUntil(channel: string, now: real) returns (until: real)
      requires Valid() && now >= 0.0
      ensures until > now <==> OtherClaimActive(View().pending, channel, now)
    {
      until := 0.0;
      var rest := pending.Keys;
      while rest != {}
        invariant rest <= pending.Keys
        invariant until > now <==> exists c | c in pending && c !in rest :: c != channel && LeaseActive(pending[c].slots, now)
        decreases |rest|
      {
        var c :| c in rest;
        var wake := pending[c];
        ghost var before := rest;
        if c != channel && LeaseActive(wake.slots, now) {
          until := Max(until, wake.slots.leaseExpiresAt.GetOr(0.0));
          assert c in pending && c !in rest - {c};
        } else {
          assert forall d | d in pending && d !in rest - {c} && d != c :: d !in rest;
        }
        rest := rest - {c};
      }
      var view := View().pending;
      assert forall c | c in pending :: view[c] == pending[c].slots;
    }

    /** The guard chain of `claim` behind the lease check. */
    method MayClaim(channel: string, lease: Option<string>, mode: Mode, now: real, backoff: real) returns (ok: bool)
      requires Valid() && now >= 0.0
      ensures ok <==> CanClaim(View(), channel, lease, mode, now, backoff)
    {
      if channel !in pending {
        return false;
      }
      var wake := pending[channel];
      var w := wake.slots;
      var current := channel in leases && lease == Some(leases[channel].leaseId);
      var listening := channel in leases && Max(leases[channel].refreshedAt, startedAt) + X_LISTENER_TTL >= now;
      var cooldown := Max(globalCooldownUntil, if channel in cooldownUntil then cooldownUntil[channel] else 0.0);
      var otherUntil := OtherClaimUntil(channel, now);
      hide LeaseActive, UndeliveredExpired, PreflightAuthorized, ListenerBlocksDirect, DeliveryBlocked, OtherClaimActive, Max;
      ok := !(
        || now < wake.slots.availableAt
        || backoff > now
        || cooldown > now
        || otherUntil > now
        || (mode.Direct? && ListenerBlocksDirect(w, now, listening))
        || LeaseActive(w, now)
        || wake.slots.delivered
        || wake.slots.modelAcknowledged
        || DeliveryBlocked(w)
        || (mode.X? && UndeliveredExpired(w, now))
        || (mode.X? && !current && !PreflightAuthorized(preflightRequired, w, now))
        || (wake.slots.modelAckRequired && wake.slots.attempts >= wake.slots.maxAttempts));
      assert View().pending[channel] == w;
    }

    /** `_delivery_lease_matches`. */
    method LeaseFits(channel: string, lease: Option<string>, mode: Mode) returns (ok: bool)
      ensures ok == LeaseMatches(View(), channel, lease, mode)
    {
      if mode.Direct? {
        return true;
      }
      if channel !in leases {
        return lease.None?;
      }
      ok := lease == Some(leases[channel].leaseId);
    }

    /** A wake object was updated; everything is written out. */
    method Commit(channel: string, ghost before: State, now: real)
      requires Valid() && channel in pending && View().(pending := before.pending) == before
      requires before.pending.Keys == pending.Keys
      requires forall c | c in pending && c != channel :: before.pending[c] == pending[c].slots
      modifies this
      ensures Valid() && pending == old(pending)
      ensures View() == CoordinatorSpec.Save(before.(pending := before.pending[channel := pending[channel].slots]), now)
    {
      hide CoordinatorSpec.Save;
      assert Snaps() == before.pending[channel := pending[channel].slots];
      Save(now);
    }

    /** The wake of a channel is gone; everything is written out. */
    method Drop(channel: string, now: real)
      requires Valid() && channel in pending
      modifies this
      ensures Valid() && pending == old(pending) - {channel}
      ensures View() == CoordinatorSpec.Save(old(View()).(pending := old(View()).pending - {channel}), now)
    {
      hide CoordinatorSpec.Save;
      ghost var before := View();
      pending := pending - {channel};
      assert Snaps() == before.pending - {channel};
      Save(now);
    }

    method Claim(channel: string, lease: Option<string>, mode: Mode, now: real, backoff: real, token: string) returns (r: Response)
      requires Valid() && now >= 0.0
      modifies this, pending.Values
      ensures Valid() && pending == old(pending)
      ensures (View(), r) == CoordinatorSpec.Claim(old(View()), channel, lease, mode, now, backoff, token)
    {
      hide CanClaim, CoordinatorSpec.Save, CoordinatorSpec.Touch, ClaimedWake, ValidChannel, LeaseMatches;
      if !ValidChannel(channel) {
        return Failed(InvalidArgument);
      }
      var matches := LeaseFits(channel, lease, mode);
      if !matches {
        return NotClaimed;
      }
      if mode.X? {
        Touch(channel, lease, now);
      }
      var ok := MayClaim(channel, lease, mode, now, backoff);
      if !ok {
        return NotClaimed;
      }
      Admitted(channel, lease, mode, now, backoff);
      var wake := pending[channel];
      if !RetriesCover(wake.slots) {
        return Failed(IndexError);
      }
      ghost var before := View();
      wake.Take(now, token);
      TakenKeepsMessage(before.pending[channel], now, token);
      Commit(channel, before, now);
      r := Claimed(token, wake.slots.message, wake.slots.continuationId);
    }

    lemma TakenKeepsMessage(w: Wake, now: real, token: string)
      requires RetriesCover(w) && !Exhausted(w)
      ensures ClaimedWake(w, now, token).message == w.message && ClaimedWake(w, now, token).continuationId == w.continuationId
    {
    }

    lemma Admitted(channel: string, lease: Option<string>, mode: Mode, now: real, backoff: real)
      requires CanClaim(View(), channel, lease, mode, now, backoff)
      ensures channel in pending && !Exhausted(pending[channel].slots)
    {
    }

    /** `_promote_queued_locked`; the caller saves. */
    method Promote(channel: string, wake: PendingWake, now: real, token: string) returns (next: Option<string>)
      requires Valid() && channel in pending && pending[channel] == wake
      modifies this`pending
      ensures Valid() && (forall c | c in pending :: pending[c] in old(pending).Values || fresh(pending[c]))
      ensures View() == CoordinatorSpec.Promote(old(View()), channel, wake.slots, now, token)
      ensures next == PromotedId(wake.slots, token)
    {
      hide Promoted;
      ghost var before := View();
      if wake.slots.queued == [] {
        pending := pending - {channel};
        assert Snaps() == before.pending - {channel};
        return None;
      }
      var record := NextRecord(channel, wake.slots, now, token);
      Place(channel, record);
      return Some(token);
    }

    /** The next wake built from the queue of `w`. */
    method NextRecord(channel: string, w: Wake, now: real, token: string) returns (record: Wake)
      ensures record == Promoted(View(), channel, w, now, token)
    {
      hide BoundedEscalation, Batch, Pack, Max;
      var packing := PackQueue(w.queued, w.queuedEscalations);
      var cooldown := Cooldown(channel);
      record := FreshWake(Batch(packing.active), Max(now + JOB_WAKE_DEBOUNCE, cooldown), now).(
        continuationId := Some(token),
        modelAckRequired := true,
        maxAttempts := w.maxAttempts,
        retryDelays := w.retryDelays,
        escalationDelay := w.escalationDelay,
        escalationMessage := BoundedEscalation(packing.activeEscalations),
        queued := packing.remaining,
        queuedEscalations := packing.remainingEscalations);
    }

    /** A new wake object for a channel. */
    method Place(channel: string, record: Wake)
      requires Valid()
      modifies this`pending
      ensures Valid() && pending.Keys == old(pending).Keys + {channel}
      ensures fresh(pending[channel]) && forall c | c in pending && c != channel :: pending[c] == old(pending)[c]
      ensures Snaps() == old(Snaps())[channel := record]
    {
      var wake := new PendingWake(record);
      pending := pending[channel := wake];
    }

    /** The loop that fills the next batch in queue order. */
    static method PackQueue(queued: seq<string>, escalations: seq<string>) returns (p: Packing)
      ensures var n := if |queued| <= |escalations| then |queued| else |escalations|; p == Pack(queued, escalations, n)
    {
      hide Batch;
      var active, activeEscalations, remaining, remainingEscalations := [], [], [], [];
      var i := 0;
      while i < |queued| && i < |escalations|
        invariant i <= |queued| && i <= |escalations|
        invariant Packing(active, activeEscalations, remaining, remainingEscalations) == Pack(queued, escalations, i)
      {
        var candidate := Batch(active + [queued[i]]);
        if active != [] && |candidate| > MAX_BATCH_MESSAGE_CHARS {
          remaining := remaining + [queued[i]];
          remainingEscalations := remainingEscalations + [escalations[i]];
        } else {
          active := active + [queued[i]];
          activeEscalations := activeEscalations + [escalations[i]];
        }
        i := i + 1;
      }
      p := Packing(active, activeEscalations, remaining, remainingEscalations);
    }

    method Arm(q: ArmRequest, now: real, token: string) returns (r: Response)
      requires Valid()
      modifies this, pending.Values
      ensures Valid()
      ensures (View(), r) == CoordinatorSpec.Arm(old(View()), q, now, token)
    {
      hide CoordinatorSpec.Save, ValidArm, CoalescedWith, LeaseActive, Parts, FreshWake;
      if !ValidArm(q) {
        return Failed(InvalidArgument);
      }
      ghost var before := View();
      if q.channel in pending && q.conflict.Coalesce? && pending[q.channel].slots.modelAckRequired {
        var wake := pending[q.channel];
        if q.message in Parts(wake.slots.message) || q.message in wake.slots.queued {
          Save(now);
          return Armed(true, true, wake.slots.continuationId);
        }
        if |Parts(wake.slots.message)| + |wake.slots.queued| >= MAX_BATCH_EVENTS {
          return Failed(PolicyViolation);
        }
        var cooldown := Cooldown(q.channel);
        wake.Absorb(q.message, Stripped(q.escalationMessage).GetOr(""), q.delay, now, cooldown);
        AbsorbedKeepsId(before.pending[q.channel], wake.slots, q, now, cooldown);
        Commit(q.channel, before, now);
        return Armed(true, false, wake.slots.continuationId);
      }
      if q.channel in pending && LeaseActive(pending[q.channel].slots, now) {
        return Failed(PolicyViolation);
      }
      if q.channel in pending && q.conflict.Reject? {
        return Failed(PolicyViolation);
      }
      assert before.pending.Keys == pending.Keys;
      assert |before.pending| == |pending|;
      if q.channel !in pending && |pending| >= MAX_CHANNELS {
        return Failed(PolicyViolation);
      }
      r := Replace(q, now, token);
    }

    lemma AbsorbedKeepsId(w: Wake, n: Wake, q: ArmRequest, now: real, cooldown: real)
      requires n == CoalescedWith(w, q.message, Stripped(q.escalationMessage).GetOr(""), q.delay, now, cooldown)
      ensures n.continuationId == w.continuationId
    {
    }

    method Cooldown(channel: string) returns (until: real)
      ensures until == WebCooldown(View(), channel)
    {
      until := Max(globalCooldownUntil, if channel in cooldownUntil then cooldownUntil[channel] else 0.0);
    }

    /** The tail of `arm`: a new wake, whatever was there before. */
    method Replace(q: ArmRequest, now: real, token: string) returns (r: Response)
      requires Valid()
      modifies this
      ensures Valid()
      ensures var w := ArmedWake(old(View()), q, now, token);
              View() == CoordinatorSpec.Save(old(View()).(pending := old(View()).pending[q.channel := w]), now)
              && r == Armed(q.channel in old(pending), false, w.continuationId)
    {
      hide CoordinatorSpec.Save;
      ghost var before := View();
      var coalesced := q.channel in pending;
      var continuation := if q.modelAckRequired then Some(token) else None;
      var cooldown := Cooldown(q.channel);
      var record := FreshWake(q.message, Max(now + q.delay, cooldown), now).(
        continuationId := continuation,
        modelAckRequired := q.modelAckRequired,
        maxAttempts := q.maxAttempts,
        retryDelays := q.retryDelays,
        escalationDelay := q.escalationDelay,
        escalationMessage := Stripped(q.escalationMessage));
      Place(q.channel, record);
      Save(now);
      r := Armed(coalesced, false, continuation);
    }

    method Status(channel: string, lease: Option<string>, mode: Mode, now: real, backoff: real, token: string) returns (r: Response)
      requires Valid() && now >= 0.0
      modifies this
      ensures Valid() && (forall c | c in pending :: pending[c] in old(pending).Values || fresh(pending[c]))
      ensures (View(), r) == CoordinatorSpec.Status(old(View()), channel, lease, mode, now, backoff, token)
    {
      hide CoordinatorSpec.Save, CoordinatorSpec.Promote, CoordinatorSpec.Touch, Read, Describe, Ready, ValidChannel, LeaseMatches, LeaseActive;
      if !ValidChannel(channel) {
        return Failed(InvalidArgument);
      }
      var matches := LeaseFits(channel, lease, mode);
      if !matches {
        return StatusOf(StandbyStatus, false);
      }
      if mode.X? {
        Touch(channel, lease, now);
      }
      if channel in pending && pending[channel].slots.modelAcknowledged && !LeaseActive(pending[channel].slots, now) {
        var _ := Promote(channel, pending[channel], now, token);
        Save(now);
      }
      if channel !in pending {
        return StatusOf(Idle, false);
      }
      r := Report(channel, lease, mode, now, backoff);
    }

    /** The reading of the guards that a poll reports. */
    method Report(channel: string, lease: Option<string>, mode: Mode, now: real, backoff: real) returns (r: Response)
      requires Valid() && now >= 0.0 && channel in pending
      ensures var w := View().pending[channel];
              var reading := Read(View(), channel, w, lease, mode, now, backoff);
              r == StatusOf(Describe(w, reading, now), Ready(w, reading, now))
    {
      hide LeaseActive, UndeliveredExpired, PreflightAuthorized, ListenerBlocksDirect, DeliveryBlocked, OtherClaimActive, Max, Describe;
      var w := pending[channel].slots;
      var current := channel in leases && lease == Some(leases[channel].leaseId);
      var listening := channel in leases && Max(leases[channel].refreshedAt, startedAt) + X_LISTENER_TTL >= now;
      var claimed := LeaseActive(w, now);
      var exhausted := w.modelAckRequired && w.attempts >= w.maxAttempts;
      var expired := mode.X? && UndeliveredExpired(w, now);
      var webCooldown := Cooldown(channel);
      var otherUntil := OtherClaimUntil(channel, now);
      var webBlocked := !w.delivered && backoff > now;
      var cooldownBlocked := !w.delivered && (webCooldown > now || otherUntil > now);
      var authorized := PreflightAuthorized(preflightRequired, w, now) || (mode.X? && current);
      var listenerBlocked := mode.Direct? && ListenerBlocksDirect(w, now, listening);
      var preflightBlocked :=
        && mode.X? && !w.delivered && !claimed && !exhausted && !expired && !webBlocked && !cooldownBlocked
        && now >= w.availableAt && !authorized;
      var ready :=
        && !claimed && !DeliveryBlocked(w) && !exhausted && !expired && !w.delivered && !webBlocked
        && !cooldownBlocked && !listenerBlocked && !preflightBlocked && now >= w.availableAt;
      var reading := Reading(claimed, exhausted, expired, webBlocked, cooldownBlocked, listenerBlocked, preflightBlocked);
      assert View().pending[channel] == w;
      r := StatusOf(Describe(w, reading, now), ready);
    }

    /** A delivery at `now` holds the lane. */
    method Cool(channel: string, now: real)
      requires Valid()
      modifies this`globalCooldownUntil, this`cooldownUntil
      ensures View() == CoordinatorSpec.Cool(old(View()), channel, now)
    {
      var until := now + MIN_WEB_TURN_INTERVAL;
      globalCooldownUntil := Max(globalCooldownUntil, until);
      cooldownUntil := cooldownUntil[channel := Max(if channel in cooldownUntil then cooldownUntil[channel] else 0.0, until)];
    }

    method Finalize(channel: string, claimId: string, name: string, d: Disposition, detail: Option<string>, now: real, token: string)
      returns (r: Response)
      requires Valid()
      modifies this, pending.Values
      ensures Valid()
      ensures (View(), r) == CoordinatorSpec.Finalize(old(View()), channel, claimId, name, d, detail, now, token)
    {
      hide CoordinatorSpec.Save, CoordinatorSpec.Promote, CoordinatorSpec.Cool, FinalizedWake, ValidChannel, ValidTransportName, BoundedDetail;
      if !ValidChannel(channel) || !ValidTransportName(name) {
        return Failed(InvalidArgument);
      }
      if channel !in pending || pending[channel].slots.claimId != Some(claimId) || pending[channel].slots.continuationId.None? {
        return NotAccepted;
      }
      ghost var before := View();
      var wake := pending[channel];
      var w := wake.slots;
      wake.Finish(name, d, detail, now);
      FinishedKeeps(w, name, d, detail, now);
      assert View() == before.(pending := before.pending[channel := wake.slots]);
      var finished, next := false, None;
      if d.Delivered? {
        Cool(channel, now);
        if wake.slots.modelAcknowledged {
          finished := true;
          next := Promote(channel, wake, now, token);
        }
      }
      Save(now);
      r := Accepted(w.continuationId, finished, next);
    }

    lemma FinishedKeeps(w: Wake, name: string, d: Disposition, detail: Option<string>, now: real)
      ensures FinalizedWake(w, name, d, detail, now).modelAcknowledged == w.modelAcknowledged
      ensures FinalizedWake(w, name, d, detail, now).queued == w.queued
    {
    }

    method Ack(channel: string, claimId: string, lease: Option<string>, now: real, token: string) returns (r: Response)
      requires Valid()
      modifies this, pending.Values
      ensures Valid()
      ensures (View(), r) == CoordinatorSpec.Ack(old(View()), channel, claimId, lease, now, token)
    {
      hide CoordinatorSpec.Save, CoordinatorSpec.Promote, CoordinatorSpec.Cool, CoordinatorSpec.Touch, AckedWake, ValidChannel, LeaseMatches;
      if !ValidChannel(channel) {
        return Failed(InvalidArgument);
      }
      var matches := LeaseFits(channel, lease, X);
      if !matches {
        return NotAccepted;
      }
      ghost var first := View();
      Touch(channel, lease, now);
      TouchKeepsWakes(first, channel, lease, now);
      if channel !in pending || pending[channel].slots.claimId != Some(claimId) {
        return NotAccepted;
      }
      var wake := pending[channel];
      var w := wake.slots;
      Cool(channel, now);
      CoolKeepsWakes(CoordinatorSpec.Touch(first, channel, lease, now), channel, now);
      if w.modelAckRequired && w.modelAcknowledged {
        var next := Promote(channel, wake, now, token);
        Save(now);
        return Accepted(w.continuationId, true, next);
      }
      if !w.modelAckRequired {
        Drop(channel, now);
        return Accepted(w.continuationId, true, None);
      }
      ghost var before := View();
      wake.MarkSubmitted(now);
      Commit(channel, before, now);
      r := Accepted(w.continuationId, false, None);
    }

    lemma TouchKeepsWakes(s: State, channel: string, lease: Option<string>, now: real)
      ensures CoordinatorSpec.Touch(s, channel, lease, now).pending == s.pending
    {
    }

    lemma CoolKeepsWakes(s: State, channel: string, now: real)
      ensures CoordinatorSpec.Cool(s, channel, now).pending == s.pending
    {
    }

    /** The scan over `_pending` for one continuation. */
    method FindContinuation(continuation: string) returns (found: Option<string>)
      requires Valid() && UniqueContinuations(View())
      ensures found == ChannelOf(View(), continuation)
    {
      var rest := pending.Keys;
      found := None;
      while rest != {} && found.None?
        invariant rest <= pending.Keys
        invariant found.Some? ==> found.value in pending && pending[found.value].slots.continuationId == Some(continuation)
        invariant found.None? ==> forall c | c in pending && c !in rest :: pending[c].slots.continuationId != Some(continuation)
        decreases |rest|
      {
        var c :| c in rest;
        if pending[c].slots.continuationId == Some(continuation) {
          found := Some(c);
        }
        rest := rest - {c};
      }
      ghost var view := View();
      assert forall c | c in pending :: view.pending[c] == pending[c].slots;
      if found.Some? {
        assert Holds(view, found.value, continuation);
      }
    }

    method ModelAck(continuation: string, now: real) returns (r: Response)
      requires Valid() && UniqueContinuations(View())
      modifies this, pending.Values
      ensures Valid()
      ensures (View(), r) == CoordinatorSpec.ModelAck(old(View()), continuation, now)
    {
      hide CoordinatorSpec.Save, ValidContinuation, LeaseActive;
      if !ValidContinuation(continuation) {
        return Failed(InvalidArgument);
      }
      var found := FindContinuation(continuation);
      if found.None? {
        return Flag(false);
      }
      var channel := found.value;
      ghost var before := View();
      var wake := pending[channel];
      if LeaseActive(wake.slots, now) {
        var batched := wake.HandOut();
        wake.slots := wake.slots.(modelAcknowledged := true);
        Commit(channel, before, now);
        return ModelAcked(channel, batched);
      }
      var batched := wake.HandOut();
      assert Snaps() == before.pending[channel := wake.slots];
      assert Snaps() - {channel} == before.pending - {channel};
      Drop(channel, now);
      r := ModelAcked(channel, batched);
    }

    method Observe(channel: string, continuation: string, now: real) returns (r: Response)
      requires Valid()
      modifies this
      ensures Valid()
      ensures (View(), r) == CoordinatorSpec.Observe(old(View()), channel, continuation, now)
    {
      hide CoordinatorSpec.Save, CoordinatorSpec.Cool, ValidContinuation, ValidChannel;
      if !ValidChannel(channel) || !ValidContinuation(continuation) {
        return Failed(InvalidArgument);
      }
      if channel !in pending || pending[channel].slots.continuationId != Some(continuation)
         || !pending[channel].slots.delivered || pending[channel].slots.modelAcknowledged {
        return Flag(false);
      }
      Cool(channel, now);
      Save(now);
      r := Flag(true);
    }

    method MarkPreclaim(channel: string, continuation: string, name: string, detail: Option<string>, now: real) returns (r: Response)
      requires Valid()
      modifies this, pending.Values
      ensures Valid()
      ensures (View(), r) == CoordinatorSpec.MarkPreclaim(old(View()), channel, continuation, name, detail, now)
    {
      hide CoordinatorSpec.Save, ValidContinuation, ValidChannel, BlockedWake;
      if !ValidChannel(channel) || !ValidContinuation(continuation) || !ValidTransportName(name) {
        return Failed(InvalidArgument);
      }
      if channel !in pending || pending[channel].slots.continuationId != Some(continuation)
         || pending[channel].slots.claimId.Some? || pending[channel].slots.delivered
         || pending[channel].slots.modelAcknowledged || DeliveryBlocked(pending[channel].slots) {
        return Flag(false);
      }
      ghost var before := View();
      pending[channel].BlockOnAuth(name, detail, now);
      Commit(channel, before, now);
      r := Flag(true);
    }

    method ClearPreclaim(channel: string, continuation: string, name: string, now: real) returns (r: Response)
      requires Valid()
      modifies this, pending.Values
      ensures Valid()
      ensures (View(), r) == CoordinatorSpec.ClearPreclaim(old(View()), channel, continuation, name, now)
    {
      hide CoordinatorSpec.Save, ValidContinuation, ValidChannel, ReleasedWake, Releasable;
      if !ValidChannel(channel) || !ValidContinuation(continuation) || !ValidTransportName(name) {
        return Failed(InvalidArgument);
      }
      if channel !in pending || pending[channel].slots.continuationId != Some(continuation)
         || !Releasable(pending[channel].slots, name) {
        return Flag(false);
      }
      ghost var before := View();
      pending[channel].Release(now);
      Commit(channel, before, now);
      r := Flag(true);
    }

    method AuthorizePreflight(channel: string, continuation: string, now: real) returns (r: Response)
      requires Valid()
      modifies this, pending.Values
      ensures Valid()
      ensures (View(), r) == CoordinatorSpec.AuthorizePreflight(old(View()), channel, continuation, now)
    {
      hide CoordinatorSpec.Save, ValidContinuation, ValidChannel;
      if !ValidChannel(channel) || !ValidContinuation(continuation) {
        return Failed(InvalidArgument);
      }
      if channel !in pending || pending[channel].slots.continuationId != Some(continuation)
         || !pending[channel].slots.modelAckRequired || pending[channel].slots.delivered
         || pending[channel].slots.modelAcknowledged || DeliveryBlocked(pending[channel].slots)
         || UndeliveredExpired(pending[channel].slots, now) || LeaseActive(pending[channel].slots, now) {
        return Flag(false);
      }
      ghost var before := View();
      var wake := pending[channel];
      wake.slots := wake.slots.(preflightAuthorizedAt := Some(now));
      Commit(channel, before, now);
      r := Flag(true);
    }

    method MarkEscalation(continuation: string, now: real) returns (r: Response)
      requires Valid() && UniqueContinuations(View())
      modifies this, pending.Values
      ensures Valid()
      ensures (View(), r) == CoordinatorSpec.MarkEscalation(old(View()), continuation, now)
    {
      hide CoordinatorSpec.Save, ValidContinuation;
      if !ValidContinuation(continuation) {
        return Failed(InvalidArgument);
      }
      var found := FindContinuation(continuation);
      if found.None? {
        return Flag(false);
      }
      var wake := pending[found.value];
      if wake.slots.escalationNotifiedAt.None? {
        ghost var before := View();
        wake.slots := wake.slots.(escalationNotifiedAt := Some(now));
        Commit(found.value, before, now);
      }
      r := Flag(true);
    }

    /** `escalations_due`: the channels whose wake the owner is to be told about, and why. */
    method EscalationsDue(now: real) returns (due: map<string, Notice>)
      requires Valid()
      ensures forall c :: c in due <==> c in View().pending && NoticeFor(View().pending[c], now).Some?
      ensures forall c | c in due :: Some(due[c]) == NoticeFor(View().pending[c], now)
    {
      hide NoticeFor;
      due := map[];
      var rest := pending.Keys;
      while rest != {}
        invariant rest <= pending.Keys
        invariant forall c :: c in due <==> c in pending && c !in rest && NoticeFor(pending[c].slots, now).Some?
        invariant forall c | c in due :: Some(due[c]) == NoticeFor(pending[c].slots, now)
        decreases |rest|
      {
        var c :| c in rest;
        var notice := NoticeFor(pending[c].slots, now);
        if notice.Some? {
          due := due[c := notice.value];
        }
        rest := rest - {c};
      }
    }

    method Resolve(continuation: string, now: real) returns (r: Response)
      requires Valid() && UniqueContinuations(View())
      modifies this
      ensures Valid()
      ensures (View(), r) == CoordinatorSpec.Resolve(old(View()), continuation, now)
    {
      hide CoordinatorSpec.Save, ValidContinuation;
      if !ValidContinuation(continuation) {
        return Failed(InvalidArgument);
      }
      var found := FindContinuation(continuation);
      if found.None? {
        return Flag(false);
      }
      Drop(found.value, now);
      r := Flag(true);
    }

    method Cancel(channel: string, now: real) returns (r: Response)
      requires Valid()
      modifies this
      ensures Valid()
      ensures (View(), r) == CoordinatorSpec.Cancel(old(View()), channel, now)
    {
      hide CoordinatorSpec.Save, ValidChannel;
      if !ValidChannel(channel) {
        return Failed(InvalidArgument);
      }
      if channel !in pending {
        return Flag(false);
      }
      var w := pending[channel].slots;
      if w.claimId.Some? || w.delivered || DeliveryBlocked(w) {
        return Failed(PolicyViolation);
      }
      Drop(channel, now);
      r := Flag(true);
    }

    method InstallLease(channel: string, lease: Lease, now: real) returns (r: Response)
      requires Valid()
      modifies this
      ensures Valid()
      ensures (View(), r) == CoordinatorSpec.InstallLease(old(View()), channel, lease, now)
    {
      hide CoordinatorSpec.Save, ValidChannel;
      if !ValidChannel(channel) {
        return Failed(InvalidArgument);
      }
      ghost var before := View();
      leases := leases[channel := lease];
      assert Snaps() == before.pending;
      Save(now);
      r := Flag(true);
    }

    /** A new process on the saved file. */
    constructor (stored: Disk, preflightRequired: bool, now: real)
      requires |stored.pending| <= MAX_CHANNELS && |stored.cooldownUntil| <= MAX_CHANNELS && |stored.leases| <= MAX_CHANNELS
      ensures Valid()
      ensures View() == Load(stored, preflightRequired, now)
    {
      hide LoadedWakes, LoadedCooldowns, LoadedLeases;
      pending := map[];
      globalCooldownUntil := if stored.globalCooldownUntil > now then stored.globalCooldownUntil else 0.0;
      cooldownUntil := LoadedCooldowns(stored.cooldownUntil, now);
      leases := LoadedLeases(stored.leases);
      startedAt := now;
      disk := stored;
      this.preflightRequired := preflightRequired;
      new;
      LoadWakes(stored.pending);
    }

    method LoadWakes(stored: map<string, Wake>)
      requires pending == map[]
      modifies this`pending
      ensures Valid() && Snaps() == LoadedWakes(stored)
    {
      hide LoadedFrom, LoadedWakes;
      var rest := stored.Keys;
      LoadedNothing(stored);
      while rest != {}
        invariant rest <= stored.Keys
        invariant Valid() && Snaps() == LoadedFrom(stored, stored.Keys - rest)
        decreases |rest|
      {
        var c :| c in rest;
        LoadedOneMore(stored, stored.Keys - rest, c);
        if Loadable(c, stored[c]) {
          Place(c, stored[c]);
        }
        assert stored.Keys - (rest - {c}) == stored.Keys - rest + {c};
        rest := rest - {c};
      }
      LoadedEverything(stored);
    }
  }

  /** The entries of a saved file, among the channels read so far, that load. */
  ghost function LoadedFrom(stored: map<string, Wake>, done: set<string>): map<string, Wake> {
    map c | c in stored && c in done && Loadable(c, stored[c]) :: stored[c]
  }

  lemma LoadedNothing(stored: map<string, Wake>)
    ensures LoadedFrom(stored, stored.Keys - stored.Keys) == map[]
  {
  }

  lemma LoadedEverything(stored: map<string, Wake>)
    ensures LoadedFrom(stored, stored.Keys - {}) == LoadedWakes(stored)
  {
  }

  lemma LoadedOneMore(stored: map<string, Wake>, done: set<string>, c: string)
    requires c in stored && c !in done
    ensures LoadedFrom(stored, done + {c}) ==
            if Loadable(c, stored[c]) then LoadedFrom(stored, done)[c := stored[c]] else LoadedFrom(stored, done)
  {
  }
}
