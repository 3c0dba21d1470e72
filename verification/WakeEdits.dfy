/**
 What the smaller coordinator operations do to a wake, in plain terms, and which of them undo each other.
 */
module WakeEdits {
  import opened Prelude
  import opened Wakes
  import opened CoordinatorSpec
  import Text

  predicate Blocked(w: Wake) {
    w.disposition == Some(Uncertain) || w.disposition == Some(OwnerInputRequired)
  }

  /** Only wake `c` changed. */
  ghost predicate OnlyWake(s: State, t: State, c: string) {
    c in s.pending && c in t.pending && t.pending - {c} == s.pending - {c} && t.leases == s.leases
  }

  /** Cancelling takes a wake away unless it was handed out, delivered or may have been. */
  lemma CancelWhen(s: State, c: string, now: real)
    requires ValidChannel(c)
    ensures var (t, r) := Cancel(s, c, now);
            && (r == Flag(false) <==> c !in s.pending)
            && (r == Failed(PolicyViolation) <==>
                  c in s.pending && (s.pending[c].claimId.Some? || s.pending[c].delivered || Blocked(s.pending[c])))
            && (r == Flag(true) <==>
                  c in s.pending && s.pending[c].claimId.None? && !s.pending[c].delivered && !Blocked(s.pending[c]))
            && (r == Flag(true) ==> t.pending == s.pending - {c} && t.leases == s.leases)
            && (r != Flag(true) ==> t == s)
  {
    hide ValidChannel, LiveCooldowns, LiveGlobal;
  }

  /** A wake is blocked on its owner's sign-in before anything was sent, and only then. */
  lemma MarkWhen(s: State, c: string, k: string, name: string, detail: Option<string>, now: real)
    requires ValidChannel(c) && ValidContinuation(k) && ValidTransportName(name)
    ensures var (t, r) := MarkPreclaim(s, c, k, name, detail, now);
            && (r == Flag(true) || r == Flag(false)) && (r == Flag(false) ==> t == s)
            && (r == Flag(true) <==>
                  && c in s.pending && s.pending[c].continuationId == Some(k)
                  && s.pending[c].claimId.None? && !s.pending[c].delivered && !s.pending[c].modelAcknowledged && !Blocked(s.pending[c]))
            && (r == Flag(true) ==>
                  && OnlyWake(s, t, c) && Blocked(t.pending[c]) && t.pending[c].disposition == Some(OwnerInputRequired)
                  && t.pending[c].ownerInputRequired && t.pending[c].transportName == Some(name)
                  && t.pending[c].attempts == s.pending[c].attempts && t.pending[c].message == s.pending[c].message)
  {
    hide ValidChannel, ValidContinuation, ValidTransportName, LiveCooldowns, LiveGlobal, AuthDetail;
  }

  /** Signing in again lifts the block: the wake is as it was before it, available at once, with nothing of the block left. */
  lemma MarkThenClear(s: State, c: string, k: string, name: string, detail: Option<string>, now: real, later: real)
    requires MarkPreclaim(s, c, k, name, detail, now).1 == Flag(true)
    requires s.pending[c].transportName.None? && s.pending[c].disposition.None? && s.pending[c].detail.None?
    requires !s.pending[c].ownerInputRequired && s.pending[c].escalationAt.None? && s.pending[c].escalationNotifiedAt.None?
    ensures var (u, r) := ClearPreclaim(MarkPreclaim(s, c, k, name, detail, now).0, c, k, name, later);
            && r == Flag(true)
            && u.pending == s.pending[c := s.pending[c].(availableAt := Min(s.pending[c].availableAt, later))]
  {
    hide ValidChannel, ValidContinuation, ValidTransportName, LiveCooldowns, LiveGlobal, BoundedDetail;
    AuthDetailMarked(detail);
  }

  lemma AuthDetailMarked(detail: Option<string>)
    ensures StartsWith(AuthDetail(detail), "auth_preflight:") && !LegacyAuthMarker(AuthDetail(detail))
  {
    hide BoundedDetail;
    var mark: string := "auth_preflight:";
    var rest := " " + BoundedDetail(detail).GetOr("");
    var text := mark + rest;
    assert "auth_preflight: " == mark + " ";
    assert text == "auth_preflight: " + BoundedDetail(detail).GetOr("");
    assert |mark| == 15 && text[..15] == mark;
    assert AuthDetail(detail)[..15] == text[..15];
    assert AuthDetail(detail)[0] == mark[0] == 'a';
    assert "Probe failed"[0] == 'P' && "Probe process"[0] == 'P' && "Target ChatGPT page requires login"[0] == 'T';
  }

  /** A release needs the block of this very transport, and leaves a wake that can be claimed again. */
  lemma ClearWhen(s: State, c: string, k: string, name: string, now: real)
    requires ValidChannel(c) && ValidContinuation(k) && ValidTransportName(name)
    ensures var (t, r) := ClearPreclaim(s, c, k, name, now);
            && (r == Flag(true) || r == Flag(false)) && (r == Flag(false) ==> t == s)
            && (r == Flag(true) ==>
                  && OnlyWake(s, t, c) && s.pending[c].continuationId == Some(k) && s.pending[c].transportName == Some(name)
                  && s.pending[c].disposition == Some(OwnerInputRequired) && s.pending[c].claimId.None? && !s.pending[c].delivered
                  && var n := t.pending[c];
                  && !Blocked(n) && n.disposition.None? && !n.ownerInputRequired && n.transportName.None? && n.detail.None?
                  && n.escalationAt.None? && n.escalationNotifiedAt.None? && n.availableAt <= now
                  && n.message == s.pending[c].message && n.queued == s.pending[c].queued
                  && s.pending[c].attempts - 1 <= n.attempts <= s.pending[c].attempts)
  {
    hide ValidChannel, ValidContinuation, ValidTransportName, LiveCooldowns, LiveGlobal, LegacyAuthMarker, StartsWith;
  }

  /** A browser preflight is stamped on a wake that can still be delivered and is not handed out. */
  lemma AuthorizeWhen(s: State, c: string, k: string, now: real)
    requires ValidChannel(c) && ValidContinuation(k)
    ensures var (t, r) := AuthorizePreflight(s, c, k, now);
            && (r == Flag(true) || r == Flag(false)) && (r == Flag(false) ==> t == s)
            && (r == Flag(true) <==>
                  && c in s.pending && s.pending[c].continuationId == Some(k) && s.pending[c].modelAckRequired
                  && !s.pending[c].delivered && !s.pending[c].modelAcknowledged && !Blocked(s.pending[c])
                  && s.pending[c].createdAt + 1800.0 > now
                  && !(s.pending[c].claimId.Some? && s.pending[c].leaseExpiresAt.GetOr(0.0) > now))
            && (r == Flag(true) ==> OnlyWake(s, t, c) && t.pending[c] == s.pending[c].(preflightAuthorizedAt := Some(now)))
  {
    hide ValidChannel, ValidContinuation, LiveCooldowns, LiveGlobal;
  }

  /** An outcome is taken exactly for the claim that is held. */
  lemma FinalizeWhen(s: State, c: string, claimId: string, name: string, d: Disposition, detail: Option<string>, now: real, token: string)
    requires ValidChannel(c) && ValidTransportName(name)
    ensures var (t, r) := Finalize(s, c, claimId, name, d, detail, now, token);
            && (r.Accepted? <==> c in s.pending && s.pending[c].claimId == Some(claimId) && s.pending[c].continuationId.Some?)
            && (!r.Accepted? ==> r == NotAccepted && t == s)
            && (r.Accepted? ==>
                  && r.continuation == s.pending[c].continuationId
                  && (r.finished <==> d.Delivered? && s.pending[c].modelAcknowledged)
                  && (r.next.Some? <==> r.finished && s.pending[c].queued != []))
            && (r.Accepted? && !r.finished ==>
                  && OnlyWake(s, t, c)
                  && var v, n := s.pending[c], t.pending[c];
                  && n.claimId.None? && n.leaseExpiresAt.None? && n.disposition == Some(d) && n.transportName == Some(name)
                  && (n.ownerInputRequired <==> d.OwnerInputRequired?) && (n.delivered <==> d.Delivered? || v.delivered)
                  && n.message == v.message && n.queued == v.queued && n.attempts == v.attempts)
  {
    hide ValidChannel, ValidTransportName, LiveCooldowns, LiveGlobal, BoundedDetail, Promote;
  }

  /** The X iframe's report, under the lease that owns the channel. */
  lemma AckWhen(s: State, c: string, claimId: string, lease: Option<string>, now: real, token: string)
    requires ValidChannel(c)
    ensures var (t, r) := Ack(s, c, claimId, lease, now, token);
            && (r.Accepted? <==>
                  && c in s.pending && s.pending[c].claimId == Some(claimId)
                  && (if c in s.leases then lease == Some(s.leases[c].leaseId) else lease.None?))
            && (!r.Accepted? ==> r == NotAccepted && t.pending == s.pending)
            && (r.Accepted? ==>
                  && r.continuation == s.pending[c].continuationId
                  && (r.finished <==> !s.pending[c].modelAckRequired || s.pending[c].modelAcknowledged)
                  && (r.next.Some? <==> s.pending[c].modelAckRequired && s.pending[c].modelAcknowledged && s.pending[c].queued != []))
            && (r.Accepted? && !r.finished ==>
                  && c in t.pending && t.pending - {c} == s.pending - {c}
                  && var v, n := s.pending[c], t.pending[c];
                  && n.delivered && n.claimId.None? && n.leaseExpiresAt.None?
                  && n.message == v.message && n.queued == v.queued && n.attempts == v.attempts)
  {
    hide ValidChannel, LiveCooldowns, LiveGlobal, Promote;
  }

  /** The model's acknowledgement hands out what is queued; the wake stays only as long as a delivery is under way. */
  lemma ModelAckWhen(s: State, k: string, now: real)
    requires ValidContinuation(k)
    ensures var (t, r) := ModelAck(s, k, now);
            && (r == Flag(false) <==> forall c | c in s.pending :: s.pending[c].continuationId != Some(k))
            && (r != Flag(false) ==>
                  && r.ModelAcked? && r.channel in s.pending && s.pending[r.channel].continuationId == Some(k)
                  && r.batched == s.pending[r.channel].queued && t.pending - {r.channel} == s.pending - {r.channel}
                  && var v := s.pending[r.channel];
                  && (r.channel in t.pending <==> v.claimId.Some? && v.leaseExpiresAt.GetOr(0.0) > now)
                  && (r.channel in t.pending ==>
                        t.pending[r.channel] == v.(queued := [], queuedEscalations := [], modelAcknowledged := true)))
            && (r == Flag(false) ==> t == s)
  {
    hide ValidContinuation, LiveCooldowns, LiveGlobal;
  }

  /** A poll of the chat that owns the channel keeps the direct transport away for another 15 seconds. */
  lemma PollIsHeartbeat(s: State, c: string, lease: Option<string>, now: real, backoff: real, token: string)
    requires ValidChannel(c) && c in s.leases && lease == Some(s.leases[c].leaseId)
    ensures var t := Status(s, c, lease, X, now, backoff, token).0;
            c in t.leases && t.leases[c].refreshedAt == now && t.leases[c].leaseId == s.leases[c].leaseId && t.leases - {c} == s.leases - {c}
    ensures var t := Claim(s, c, lease, X, now, backoff, token).0;
            c in t.leases && t.leases[c].refreshedAt == now && t.leases[c].leaseId == s.leases[c].leaseId
  {
    hide ValidChannel, LiveCooldowns, LiveGlobal, Read, Describe, Ready, Promoted, CanClaim, ClaimedWake, LeaseActive, RetriesCover;
  }

  // ---------------------------------------------------------------- polls and restarts

  /** What a poll says about a wake it leaves in place, as far as the owner and the model act on it. */
  lemma StatusSays(s: State, c: string, lease: Option<string>, mode: Mode, now: real, backoff: real, token: string)
    requires ValidChannel(c) && c in s.pending && 0.0 <= now
    ensures var (t, a) := Status(s, c, lease, mode, now, backoff, token);
            var w := s.pending[c];
            var taken := w.claimId.Some? && w.leaseExpiresAt.GetOr(0.0) > now;
            && a.StatusOf?
            && (a.status.StandbyStatus? <==> mode.X? && !(if c in s.leases then lease == Some(s.leases[c].leaseId) else lease.None?))
            && (!a.status.StandbyStatus? && !(w.modelAcknowledged && !taken) ==>
                  && t.pending == s.pending
                  && (a.status.ClaimedStatus? <==> taken)
                  && (!taken ==> (a.status.TransportUncertain? <==> w.disposition == Some(Uncertain)))
                  && (!taken && w.disposition != Some(Uncertain) ==> (a.status.OwnerInput? <==> w.ownerInputRequired))
                  && (!taken && !Blocked(w) && !w.ownerInputRequired && w.delivered && w.escalationAt.Some? && w.escalationAt.value > 0.0 ==>
                        a.status == if w.escalationAt.value <= now then EscalationDue else WaitingModelAck))
  {
    hide ValidChannel, LiveCooldowns, LiveGlobal, Promoted, WebCooldown, ListenerActive, OtherClaimActive, PreflightAuthorized;
  }

  /** A new process finds the stored wakes of a sensible size, the cooldowns that still run, and the leases of a sensible id. */
  lemma LoadFinds(disk: Disk, preflightRequired: bool, now: real, c: string)
    requires |disk.pending| <= 64 && |disk.cooldownUntil| <= 64 && |disk.leases| <= 64
    ensures var s := Load(disk, preflightRequired, now);
            && (c in s.pending <==> c in disk.pending && ValidChannel(c) && 1 <= |disk.pending[c].message| <= 32000)
            && (c in s.pending ==> s.pending[c] == disk.pending[c])
            && (c in s.cooldownUntil <==> c in disk.cooldownUntil && ValidChannel(c) && disk.cooldownUntil[c] > now)
            && (c in s.cooldownUntil ==> s.cooldownUntil[c] == disk.cooldownUntil[c])
            && s.globalCooldownUntil == (if disk.globalCooldownUntil > now then disk.globalCooldownUntil else 0.0)
            && (c in s.leases <==> c in disk.leases && ValidChannel(c) && 10 <= |disk.leases[c].leaseId| <= 128)
            && (c in s.leases ==> s.leases[c] == disk.leases[c])
            && s.startedAt == now && s.preflightRequired == preflightRequired
  {
    hide ValidChannel;
  }

  /** Saving drops the cooldowns that have run out and writes everything down. */
  lemma SaveWrites(s: State, now: real, c: string)
    ensures var t := Save(s, now);
            && t.pending == s.pending == t.disk.pending && t.leases == s.leases == t.disk.leases
            && t.disk.cooldownUntil == t.cooldownUntil && t.disk.globalCooldownUntil == t.globalCooldownUntil
            && (c in t.cooldownUntil <==> c in s.cooldownUntil && s.cooldownUntil[c] > now)
            && (c in t.cooldownUntil ==> t.cooldownUntil[c] == s.cooldownUntil[c])
            && t.globalCooldownUntil == (if s.globalCooldownUntil > now then s.globalCooldownUntil else 0.0)
            && t.startedAt == s.startedAt && t.preflightRequired == s.preflightRequired
  {
  }

  // ---------------------------------------------------------------- escalation text

  /** An escalation text: the parts that say something, in order; cut to 3500 characters, and then it says so. */
  lemma EscalationText(parts: seq<string>) returns (all: string)
    ensures all == Text.Join(Said(parts), ESCALATION_SEPARATOR)
    ensures var e := BoundedEscalation(parts);
            && (e.None? <==> forall i | 0 <= i < |parts| :: Strip(parts[i]) == "")
            && (e.Some? && |all| <= 3500 ==> e.value == all)
            && (e.Some? && |all| > 3500 ==> |e.value| == 3500 && e.value[..3440] == all[..3440] && e.value[3440..] == ESCALATION_SUFFIX)
  {
    SaidIsNonEmpty(parts);
    var values := StrippedNonEmpty(parts);
    all := Text.Join(values, ESCALATION_SEPARATOR);
    assert |ESCALATION_SUFFIX| == 60;
    var e := BoundedEscalation(parts);
    assert e.None? <==> values == [];
    assert e.Some? && |all| > 3500 ==> e.value == all[..3440] + ESCALATION_SUFFIX;
  }

  function Said(parts: seq<string>): seq<string> {
    if parts == [] then []
    else Said(parts[..|parts| - 1]) + if Strip(parts[|parts| - 1]) == "" then [] else [Strip(parts[|parts| - 1])]
  }

  lemma {:induction false} SaidIsNonEmpty(parts: seq<string>)
    ensures StrippedNonEmpty(parts) == Said(parts)
    ensures Said(parts) == [] <==> forall i | 0 <= i < |parts| :: Strip(parts[i]) == ""
  {
    hide Strip;
    if parts != [] {
      SaidIsNonEmpty(parts[..|parts| - 1]);
      StrippedAppend(parts[..|parts| - 1], parts[|parts| - 1]);
      assert parts == parts[..|parts| - 1] + [parts[|parts| - 1]];
    }
  }

  lemma {:induction false} StrippedAppend(parts: seq<string>, last: string)
    ensures StrippedNonEmpty(parts + [last]) == StrippedNonEmpty(parts) + (if Strip(last) == "" then [] else [Strip(last)])
    decreases |parts|
  {
    hide Strip;
    if parts == [] {
      assert ([] + [last])[1..] == [];
    } else {
      assert (parts + [last])[1..] == parts[1..] + [last];
      StrippedAppend(parts[1..], last);
    }
  }
}
