/**
 `status` and `claim` evaluate the same guards in two differently written chains. They agree in
 every state, reachable or not, and a poll never changes what the next claim answers.
 */
module CoordinatorGuards {
  import opened Prelude
  import opened Wakes
  import opened CoordinatorSpec

  lemma PromotedIsNotReady(s: State, channel: string, now: real, token: string)
    requires channel in s.pending && s.pending[channel].queued != []
    ensures var p := Promote(s, channel, s.pending[channel], now, token);
            channel in p.pending && p.pending[channel].availableAt > now
  {
  }

  ghost predicate ClaimSucceeds(s: State, channel: string, lease: Option<string>, mode: Mode, now: real, backoff: real) {
    ValidChannel(channel) && LeaseMatches(s, channel, lease, mode)
    && CanClaim(TouchX(s, channel, lease, mode, now), channel, lease, mode, now, backoff)
  }

  ghost predicate ReportsReady(s: State, channel: string, lease: Option<string>, mode: Mode, now: real, backoff: real, token: string) {
    var (_, r) := Status(s, channel, lease, mode, now, backoff, token);
    r.StatusOf? && r.ready
  }

  /** The claim operation hands out the wake exactly when the guards pass and the retry lookup finds its delay. */
  lemma ClaimedExactlyWhen(s: State, channel: string, lease: Option<string>, mode: Mode, now: real, backoff: real, token: string)
    ensures Claim(s, channel, lease, mode, now, backoff, token).1.Claimed?
       <==> ClaimSucceeds(s, channel, lease, mode, now, backoff) && RetriesCover(s.pending[channel])
    ensures ClaimSucceeds(s, channel, lease, mode, now, backoff) ==> channel in s.pending
  {
    hide CanClaim, ValidChannel, LeaseMatches, RetriesCover, LeaseIsCurrent, Save;
    var t := TouchX(s, channel, lease, mode, now);
    if CanClaim(t, channel, lease, mode, now, backoff) {
      AdmittedHasWake(t, channel, lease, mode, now, backoff);
    }
  }

  lemma AdmittedHasWake(s: State, channel: string, lease: Option<string>, mode: Mode, now: real, backoff: real)
    requires CanClaim(s, channel, lease, mode, now, backoff)
    ensures channel in s.pending
  {
  }

  /** A poll says `ready` exactly when a claim from the same state at the same time is admitted. */
  lemma StatusAgreesWithClaim(s: State, channel: string, lease: Option<string>, mode: Mode, now: real, backoff: real, token: string)
    ensures ReportsReady(s, channel, lease, mode, now, backoff, token)
       <==> ClaimSucceeds(s, channel, lease, mode, now, backoff)
    ensures (channel in s.pending ==> RetriesCover(s.pending[channel])) ==>
              ReportsReady(s, channel, lease, mode, now, backoff, token) == Claim(s, channel, lease, mode, now, backoff, token).1.Claimed?
  {
    hide ReportsReady, Claim, CanClaim, RetriesCover, ValidChannel, LeaseMatches, LeaseIsCurrent;
    ReadyPassesGuards(s, channel, lease, mode, now, backoff, token);
    ClaimedExactlyWhen(s, channel, lease, mode, now, backoff, token);
  }

  lemma ReadyPassesGuards(s: State, channel: string, lease: Option<string>, mode: Mode, now: real, backoff: real, token: string)
    ensures ReportsReady(s, channel, lease, mode, now, backoff, token)
       <==> ClaimSucceeds(s, channel, lease, mode, now, backoff)
  {
    if ValidChannel(channel) && LeaseMatches(s, channel, lease, mode) {
      var t := TouchX(s, channel, lease, mode, now);
      if channel in t.pending && t.pending[channel].modelAcknowledged && !LeaseActive(t.pending[channel], now)
         && t.pending[channel].queued != [] {
        PromotedIsNotReady(t, channel, now, token);
      }
    }
  }

  /** The state a poll leaves behind admits a claim at that instant exactly when it did before. */
  lemma PollingDoesNotChangeClaims(s: State, channel: string, lease: Option<string>, mode: Mode, now: real, backoff: real, token: string)
    ensures ClaimSucceeds(Status(s, channel, lease, mode, now, backoff, token).0, channel, lease, mode, now, backoff)
       <==> ClaimSucceeds(s, channel, lease, mode, now, backoff)
  {
    if ValidChannel(channel) && LeaseMatches(s, channel, lease, mode) {
      var t := TouchX(s, channel, lease, mode, now);
      var u := StatusState(s, channel, lease, mode, now, token);
      assert TouchX(t, channel, lease, mode, now) == t;
      if u != t {
        assert !CanClaim(t, channel, lease, mode, now, backoff);
        if t.pending[channel].queued != [] {
          PromotedIsNotReady(t, channel, now, token);
        }
      }
    }
  }

  /** An idle answer means the channel holds no wake afterwards, and conversely under a matching lease. */
  lemma IdleMeansNoWake(s: State, channel: string, lease: Option<string>, mode: Mode, now: real, backoff: real, token: string)
    ensures var (t, r) := Status(s, channel, lease, mode, now, backoff, token);
            (r.StatusOf? && r.status.Idle?) <==> ValidChannel(channel) && LeaseMatches(s, channel, lease, mode) && channel !in t.pending
  {
  }

  /** An unexpired claim, in plain terms. */
  predicate Taken(w: Wake, now: real) {
    w.claimId.Some? && w.leaseExpiresAt.Some? && w.leaseExpiresAt.value > now
  }

  /** A wake the browser never got, half an hour after it was armed. */
  predicate TooOld(w: Wake, now: real) {
    w.continuationId.Some? && !w.delivered && !w.modelAcknowledged && w.createdAt + 1800.0 <= now
  }

  /** The chat that polled the channel within the last 15 seconds still has the first 20 seconds to itself. */
  predicate ChatComesFirst(s: State, channel: string, w: Wake, now: real) {
    && channel in s.leases && (s.leases[channel].refreshedAt + 15.0 >= now || s.startedAt + 15.0 >= now)
    && now < w.availableAt + 20.0 && !TooOld(w, now)
  }

  /** Everything a claim depends on, for either way of delivery, without the program's own order of tests. */
  lemma ClaimedWhen(s: State, channel: string, lease: Option<string>, mode: Mode, now: real, backoff: real, token: string)
    requires 0.0 <= now
    ensures Claim(s, channel, lease, mode, now, backoff, token).1.Claimed?
       <==> ValidChannel(channel) && channel in s.pending
            && var w := s.pending[channel];
            // the wake itself: due, open, not over its budget
            && w.availableAt <= now && !Taken(w, now) && !w.delivered && !w.modelAcknowledged
            && w.disposition != Some(Uncertain) && w.disposition != Some(OwnerInputRequired)
            && (w.modelAckRequired ==> 0 <= w.attempts < w.maxAttempts <= |w.retryDelays| + 1)
            // the lane: no backoff, no cooldown, nobody else at work
            && backoff <= now && s.globalCooldownUntil <= now && (channel in s.cooldownUntil ==> s.cooldownUntil[channel] <= now)
            && (forall c | c in s.pending && c != channel :: !Taken(s.pending[c], now))
            // who may take it
            && (mode.Direct? ==> !ChatComesFirst(s, channel, w, now))
            && (mode.X? ==> !TooOld(w, now)
                            && if channel in s.leases then lease == Some(s.leases[channel].leaseId)
                               else lease.None?
                                    && (s.preflightRequired && w.modelAckRequired ==>
                                          w.preflightAuthorizedAt.Some? && now < w.preflightAuthorizedAt.value + 15.0))
  {
    hide Save, ClaimedWake, ValidChannel;
  }
}
