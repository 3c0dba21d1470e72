/** The delivery service (`app/coordinator/wake_delivery.py`): one turn for a route, and the rollover bootstrap when nothing interrupts it. */
module WakeDelivery {
  import opened Prelude
  import opened Wakes
  import opened CoordinatorSpec
  import opened Coordinator
  import opened CoordinatorGuards
  import opened RouteSpec
  import opened Routes
  import Bootstrap
  import ChannelNames

  datatype Result = Invalid | Duplicate | Waiting | Completed

  datatype Probe = NotReady | ProbeReady | OwnerRequired

  /** The blocked wake of an earlier failed sign-in of this transport. */
  predicate AuthRecovery(w: Wake, status: WakeStatus, name: string) {
    && status.OwnerInput? && w.transportName == Some(name)
    && (StartsWith(w.detail.GetOr(""), "auth_preflight:") || LegacyAuthMarker(w.detail.GetOr("")))
  }

  /** The wake after a call of `deliver`: unclaimed, the outcome on it, deliverable again only if it was not submitted. */
  predicate Recorded(w: Wake, continuation: string, answer: Option<Disposition>) {
    && w.continuationId == Some(continuation) && w.claimId.None?
    && w.disposition == Some(answer.GetOr(Disposition.Uncertain))
    && (!w.delivered && !DeliveryBlocked(w) <==> answer == Some(Disposition.NotSubmitted))
  }

  lemma ClaimShape(s: State, channel: string, now: real, backoff: real, claimToken: string)
    ensures var (t, r) := Claim(s, channel, None, Direct, now, backoff, claimToken);
            && t.pending - {channel} == s.pending - {channel}
            && (r.Claimed? ==>
                  && HoldsClaim(t, channel, r.claimId) && channel in s.pending && ValidChannel(channel)
                  && t.pending[channel].continuationId == s.pending[channel].continuationId
                  && !t.pending[channel].delivered && !t.pending[channel].modelAcknowledged)
  {
    hide LiveCooldowns, LiveGlobal, OtherClaimActive, ListenerBlocksDirect;
  }

  /** Finalizing the claim of a wake the model has not acknowledged leaves the outcome on that very wake. */
  lemma FinalizeShape(t: State, channel: string, claimId: string, name: string, answer: Option<Disposition>, detail: Option<string>,
                      later: real, token: string)
    requires HoldsClaim(t, channel, claimId) && ValidChannel(channel) && ValidTransportName(name)
    requires t.pending[channel].continuationId.Some? && !t.pending[channel].modelAcknowledged && !t.pending[channel].delivered
    ensures var u := Finalize(t, channel, claimId, name, answer.GetOr(Disposition.Uncertain), detail, later, token).0;
            && channel in u.pending && u.pending - {channel} == t.pending - {channel}
            && Recorded(u.pending[channel], t.pending[channel].continuationId.value, answer)
  {
    hide LiveCooldowns, LiveGlobal, BoundedDetail, ValidChannel, ValidTransportName;
  }

  lemma PollKeepsOthers(s: State, channel: string, now: real, backoff: real, token: string)
    ensures Status(s, channel, None, Direct, now, backoff, token).0.pending - {channel} == s.pending - {channel}
  {
    hide Read, Describe, Ready, Promoted, LiveCooldowns, LiveGlobal, LeaseActive;
  }

  /** The listed route is still bound, at the same generation and channel. */
  predicate Unchanged(g: Registry, r: string, listed: Route) {
    && r in g.routes && IsBound(g.routes[r])
    && g.routes[r].generation == listed.generation && g.routes[r].channel == listed.channel
  }

  /** A claim would be admitted now, of a wake that has a continuation and no sign-in of this transport to recover from. */
  ghost predicate Deliverable(s: State, channel: string, name: string, now: real, backoff: real, token: string) {
    && Claim(s, channel, None, Direct, now, backoff, token).1.Claimed?
    && channel in s.pending && s.pending[channel].continuationId.Some?
    && !(s.pending[channel].ownerInputRequired && AuthRecovery(s.pending[channel], OwnerInput, name))
  }

  /** What the service leaves when it does not deliver: the polled state, a sign-in block released or recorded. */
  ghost function Undelivered(s: State, channel: string, name: string, probe: Probe, detail: Option<string>, now: real, backoff: real,
                             token: string): State
  {
    var (u, a) := Status(s, channel, None, Direct, now, backoff, token);
    if !a.StatusOf? || channel !in u.pending || u.pending[channel].continuationId.None? then u
    else
      var k := u.pending[channel].continuationId.value;
      if AuthRecovery(u.pending[channel], a.status, name)
      then if probe.ProbeReady? then ClearPreclaim(u, channel, k, name, now).0 else u
      else if a.ready && probe.OwnerRequired? then MarkPreclaim(u, channel, k, name, detail, now).0
      else u
  }

  /** Right after the poll a claim is admitted exactly if it was before it, and then the poll changed nothing. */
  lemma PollThenClaim(s: State, channel: string, now: real, backoff: real, token: string, claimToken: string)
    ensures var (u, a) := Status(s, channel, None, Direct, now, backoff, token);
            var before, after := Claim(s, channel, None, Direct, now, backoff, claimToken).1, Claim(u, channel, None, Direct, now, backoff, claimToken).1;
            && (before.Claimed? <==> after.Claimed?)
            && (before.Claimed? ==> u == s && channel in s.pending && a.StatusOf? && a.ready)
            && (a.StatusOf? && a.ready ==> u == s && (before.Claimed? || before.Failed?))
  {
    hide Claim, CanClaim, RetriesCover, Status, ValidChannel;
    var u := Status(s, channel, None, Direct, now, backoff, token).0;
    StatusAgreesWithClaim(s, channel, None, Direct, now, backoff, token);
    PollingDoesNotChangeClaims(s, channel, None, Direct, now, backoff, token);
    ClaimedExactlyWhen(s, channel, None, Direct, now, backoff, claimToken);
    ClaimedExactlyWhen(u, channel, None, Direct, now, backoff, claimToken);
    ReadyPollChangesNothing(s, channel, now, backoff, token);
    AdmittedClaim(s, channel, now, backoff, claimToken);
  }

  lemma ReadyPollChangesNothing(s: State, channel: string, now: real, backoff: real, token: string)
    ensures var (u, a) := Status(s, channel, None, Direct, now, backoff, token); a.StatusOf? && a.ready ==> u == s
  {
    if channel in s.pending && s.pending[channel].queued != [] {
      PromotedIsNotReady(s, channel, now, token);
    }
  }

  lemma AdmittedClaim(s: State, channel: string, now: real, backoff: real, token: string)
    ensures ClaimSucceeds(s, channel, None, Direct, now, backoff) ==>
              Claim(s, channel, None, Direct, now, backoff, token).1.Claimed? || Claim(s, channel, None, Direct, now, backoff, token).1.Failed?
    ensures !Claim(s, channel, None, Direct, now, backoff, token).1.Claimed? ==> Claim(s, channel, None, Direct, now, backoff, token).0 == s
  {
    hide CanClaim, ValidChannel, RetriesCover;
  }

  /** A ready wake that asks for owner input is reported as such. */
  lemma ReadyOwnerInput(s: State, channel: string, now: real, backoff: real, token: string)
    ensures var (u, a) := Status(s, channel, None, Direct, now, backoff, token);
            a.StatusOf? && a.ready ==> channel in u.pending && (a.status.OwnerInput? <==> u.pending[channel].ownerInputRequired)
  {
  }

  /** The tests the service makes, one by one, are together the condition above. */
  lemma WhenDeliverable(s: State, channel: string, name: string, now: real, backoff: real, token: string, claimToken: string)
    ensures var (u, a) := Status(s, channel, None, Direct, now, backoff, token);
            && (Deliverable(s, channel, name, now, backoff, claimToken)
                <==> a.StatusOf? && channel in u.pending && u.pending[channel].continuationId.Some? && a.ready
                     && !AuthRecovery(u.pending[channel], a.status, name)
                     && Claim(u, channel, None, Direct, now, backoff, claimToken).1.Claimed?)
            && (a.StatusOf? && a.ready ==> u == s)
  {
    hide Claim, Status, StartsWith, LegacyAuthMarker;
    PollThenClaim(s, channel, now, backoff, token, claimToken);
    ReadyOwnerInput(s, channel, now, backoff, token);
  }

  class DeliveryService {
    const routes: RouteRegistry
    const coordinator: CoordinatorService
    /** The transport's name. */
    const name: string

    constructor (routes: RouteRegistry, coordinator: CoordinatorService, name: string)
      requires ValidTransportName(name)
      ensures this.routes == routes && this.coordinator == coordinator && this.name == name
    {
      this.routes, this.coordinator, this.name := routes, coordinator, name;
    }

    /**
     One route of `run_once`, as listed: poll, probe, claim, deliver, finalize. `answer` is what `deliver`
     returns, none if it raises; `sent` tells whether it was called.
     */
    method DeliverRoute(r: string, listed: Route, probe: Probe, answer: Option<Disposition>, detail: Option<string>, observed: bool,
                        now: real, backoff: real, later: real, claimToken: string, token: string) returns (sent: bool)
      requires coordinator.Valid() && now >= 0.0 && ValidTransportName(name)
      modifies coordinator, coordinator.pending.Values
      ensures coordinator.Valid()
      // a turn is sent exactly for an unchanged route with a ready transport and a wake that can be claimed there and then
      ensures sent <==> Unchanged(routes.file, r, listed) && probe.ProbeReady?
                        && Deliverable(old(coordinator.View()), listed.channel, name, now, backoff, claimToken)
      // a call that was made is recorded: no claim is left, and only "not submitted" leaves the wake deliverable
      ensures sent ==> listed.channel in coordinator.View().pending
      ensures sent ==> Recorded(coordinator.View().pending[listed.channel],
                                old(coordinator.View()).pending[listed.channel].continuationId.value, answer)
      ensures !sent && Unchanged(routes.file, r, listed) ==>
                coordinator.View() == Undelivered(old(coordinator.View()), listed.channel, name, probe, detail, now, backoff, token)
      ensures !Unchanged(routes.file, r, listed) ==> coordinator.View() == old(coordinator.View())
      ensures coordinator.View().pending - {listed.channel} == old(coordinator.View()).pending - {listed.channel}
    {
      hide CoordinatorSpec.Status, CoordinatorSpec.ClearPreclaim,
           CoordinatorSpec.MarkPreclaim, CoordinatorSpec.Claim, ValidTransportName, AuthRecovery, Recorded, Deliverable;
      if !Unchanged(routes.file, r, listed) { return false; }
      var channel := listed.channel;
      ghost var s := coordinator.View();
      WhenDeliverable(s, channel, name, now, backoff, token, claimToken);
      PollKeepsOthers(s, channel, now, backoff, token);
      var status := coordinator.Status(channel, None, Direct, now, backoff, token);
      if !status.StatusOf? || channel !in coordinator.pending { return false; }
      assert coordinator.View().pending[channel] == coordinator.pending[channel].slots;
      var wake := coordinator.pending[channel].slots;
      if wake.continuationId.None? { return false; }
      var continuation := wake.continuationId.value;
      var authRecovery := AuthRecovery(wake, status.status, name);
      if !status.ready && !authRecovery { return false; }
      if authRecovery {
        if probe.ProbeReady? {
          OneChannelEdits(coordinator.View(), channel, continuation, name, detail, now);
          var released := coordinator.ClearPreclaim(channel, continuation, name, now);
        }
        return false;
      }
      if probe.NotReady? { return false; }
      if probe.OwnerRequired? {
        OneChannelEdits(coordinator.View(), channel, continuation, name, detail, now);
        var marked := coordinator.MarkPreclaim(channel, continuation, name, detail, now);
        return false;
      }
      sent := DeliverClaimed(channel, continuation, answer, detail, observed, now, backoff, later, claimToken, token);
    }

    /** Claim, deliver, finalize: an exception of `deliver` counts as uncertain. */
    method DeliverClaimed(channel: string, continuation: string, answer: Option<Disposition>, detail: Option<string>, observed: bool,
                          now: real, backoff: real, later: real, claimToken: string, token: string) returns (sent: bool)
      requires coordinator.Valid() && now >= 0.0 && ValidTransportName(name)
      requires channel in coordinator.View().pending && coordinator.View().pending[channel].continuationId == Some(continuation)
      modifies coordinator, coordinator.pending.Values
      ensures coordinator.Valid()
      ensures coordinator.View().pending - {channel} == old(coordinator.View()).pending - {channel}
      ensures sent <==> CoordinatorSpec.Claim(old(coordinator.View()), channel, None, Direct, now, backoff, claimToken).1.Claimed?
      ensures sent ==> channel in coordinator.View().pending && Recorded(coordinator.View().pending[channel], continuation, answer)
      ensures !sent ==> coordinator.View() == old(coordinator.View())
    {
      hide CoordinatorSpec.Claim, CoordinatorSpec.Finalize, CoordinatorSpec.Observe, ValidTransportName, ValidChannel, Recorded;
      ghost var t := coordinator.View();
      ClaimShape(t, channel, now, backoff, claimToken);
      AdmittedClaim(t, channel, now, backoff, claimToken);
      var claim := coordinator.Claim(channel, None, Direct, now, backoff, claimToken);
      if !claim.Claimed? { return false; }
      sent := true;
      var outcome := answer.GetOr(Disposition.Uncertain);
      FinalizeShape(coordinator.View(), channel, claim.claimId, name, answer, detail, later, token);
      var finalized := coordinator.Finalize(channel, claim.claimId, name, outcome, detail, later, token);
      if outcome.Delivered? && observed {
        ObserveKeepsWakes(coordinator.View(), channel, continuation, later);
        var seen := coordinator.Observe(channel, continuation, later);
      }
    }

    /** `transport`: one is configured; `ready`: its probe; `answer`: what `deliver` returns, none if it raises. */
    method CompleteRolloverBootstrap(r: string, token: string, transport: bool, ready: bool, answer: Option<Disposition>)
      returns (result: Result, sent: bool)
      modifies routes
      ensures sent <==> Completable(old(routes.file), r, token) && !Bootstrap.Blocked(old(routes.file).last[r]) && transport && ready
      ensures sent <==> Bootstrap.Sendable(old(routes.file), r, token) && transport && ready
      ensures !sent ==> routes.file == old(routes.file)
      ensures routes.file.(last := map[]) == old(routes.file).(last := map[])
      ensures routes.file.last - {r} == old(routes.file).last - {r}
      // a call that may have arrived can never be made again; one that was not submitted can
      ensures sent ==> Completable(routes.file, r, token)
      ensures sent ==> (Bootstrap.Blocked(routes.file.last[r]) <==> answer != Some(Disposition.NotSubmitted))
      // the answer is on file as it was given; without one the call counts as under way
      ensures sent ==> (routes.file.last[r].bootstrapSent <==> answer == Some(Disposition.Delivered))
      ensures sent ==> (routes.file.last[r].delivery.NotSubmitted? <==> answer == Some(Disposition.NotSubmitted))
      ensures sent ==> (routes.file.last[r].delivery.Uncertain? <==> answer == Some(Disposition.Uncertain))
      ensures sent ==> (routes.file.last[r].delivery.OwnerInputRequired? <==> answer == Some(Disposition.OwnerInputRequired))
      ensures result.Completed? <==> sent && answer == Some(Disposition.Delivered)
      ensures result.Completed? || result.Duplicate? ==> r in routes.file.last && routes.file.last[r].bootstrapSent
      ensures result.Invalid? <==> !Completable(old(routes.file), r, token)
    {
      hide ChannelNames.ValidRoute;
      if !Completable(routes.file, r, token) { return Invalid, false; }
      var record := routes.file.last[r];
      if record.bootstrapSent { return Duplicate, false; }
      if record.delivery.Sending? || record.delivery.Uncertain? || record.delivery.OwnerInputRequired? {
        return Waiting, false;
      }
      if !transport || !ready { return Waiting, false; }
      var persisted := routes.RecordDelivery(r, token, Sending);
      sent := true;
      // deliver
      if answer.None? { return Waiting, true; }
      if !answer.value.Delivered? {
        var state := match answer.value
          case NotSubmitted => BootstrapDelivery.NotSubmitted
          case Uncertain => BootstrapDelivery.Uncertain
          case _ => BootstrapDelivery.OwnerInputRequired;
        var recorded := routes.RecordDelivery(r, token, state);
        return Waiting, true;
      }
      var completed := routes.CompleteRollover(r, token);
      result := Completed;
    }
  }

  lemma OneChannelEdits(s: State, channel: string, continuation: string, name: string, detail: Option<string>, now: real)
    ensures ClearPreclaim(s, channel, continuation, name, now).0.pending - {channel} == s.pending - {channel}
    ensures MarkPreclaim(s, channel, continuation, name, detail, now).0.pending - {channel} == s.pending - {channel}
  {
    hide LiveCooldowns, LiveGlobal, Releasable, ReleasedWake, BlockedWake, ValidChannel, ValidContinuation;
  }

  lemma ObserveKeepsWakes(s: State, channel: string, continuation: string, now: real)
    ensures Observe(s, channel, continuation, now).0.pending == s.pending
  {
    hide LiveCooldowns, LiveGlobal, ValidChannel, ValidContinuation;
  }
}
