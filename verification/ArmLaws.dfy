/**
 What an arm answers and where the message goes, in terms of what waits on the channel: a message is taken for
 a known one exactly while it waits, and a message that was taken does wait.
 */
module ArmLaws {
  import opened Prelude
  import opened Wakes
  import opened CoordinatorSpec
  import opened CoordinatorRuns
  import opened CoordinatorSafety
  import opened CoordinatorTheorems
  import opened Batches
  import opened Conservation
  import Text

  /** The channel holds a wake that asks for an acknowledgement. */
  predicate HoldsResilient(s: State, channel: string) {
    channel in s.pending && s.pending[channel].modelAckRequired
  }

  /**
   Every answer of an arm. A coalescing one finds its message among the waiting ones, finds 128 of them, or adds it;
   any other starts a new wake unless a claim is under way, a wake is there and must not be touched, or no channel is left.
   */
  lemma ArmAnswers(s: State, r: ArmRequest, now: real, token: string)
    requires ValidArm(r)
    ensures var (t, a) := Arm(s, r, now, token);
            var c := r.channel;
            if HoldsResilient(s, c) && r.conflict.Coalesce? then
              a == (if r.message in Live(s, c) then Armed(true, true, s.pending[c].continuationId)
                    else if |Live(s, c)| >= 128 then Failed(PolicyViolation)
                    else Armed(true, false, s.pending[c].continuationId))
            else
              a == (if c in s.pending && (r.conflict.Reject? || (s.pending[c].claimId.Some? && s.pending[c].leaseExpiresAt.GetOr(0.0) > now))
                    then Failed(PolicyViolation)
                    else if c !in s.pending && |s.pending| >= 64 then Failed(PolicyViolation)
                    else Armed(c in s.pending, false, if r.modelAckRequired then Some(token) else None))
  {
    hide Parts, Coalesced, LiveCooldowns, LiveGlobal, ValidArm, ArmedWake;
    if r.channel in s.pending {
      var w := s.pending[r.channel];
      assert r.message in Live(s, r.channel) <==> r.message in Parts(w.message) || r.message in w.queued;
      assert |Live(s, r.channel)| == |Parts(w.message)| + |w.queued|;
    }
    ArmedContinuation(s, r, now, token);
  }

  lemma ArmedContinuation(s: State, r: ArmRequest, now: real, token: string)
    ensures ArmedWake(s, r, now, token).continuationId == if r.modelAckRequired then Some(token) else None
  {
  }

  /** What an accepted message does to the wake it joins: it goes last, into the batch or into the queue. */
  predicate JoinsLast(v: Wake, n: Wake, message: string, escalation: string) {
    || (Parts(n.message) == Parts(v.message) + [message] && n.queued == v.queued && n.queuedEscalations == v.queuedEscalations
        && n.escalationMessage == BoundedEscalation([v.escalationMessage.GetOr(""), escalation]))
    || (n.message == v.message && n.queued == v.queued + [message] && n.queuedEscalations == v.queuedEscalations + [escalation]
        && n.availableAt == v.availableAt && n.escalationMessage == v.escalationMessage)
  }

  /**
   On a clean wake: the message joins the batch exactly if the batch was never claimed, has not been acknowledged and
   stays within 500 characters; a batch waits longer for it, but not past 15 seconds from its first message.
   */
  lemma CoalescedJoinsLast(s: State, r: ArmRequest, now: real)
    requires r.channel in s.pending && CleanWake(s.pending[r.channel]) && Clean(r.message)
    ensures var v := s.pending[r.channel];
            var n := Coalesced(s, r, v, now);
            && JoinsLast(v, n, r.message, if r.escalationMessage.Some? then Strip(r.escalationMessage.value) else "")
            && (n.message != v.message <==>
                  v.attempts == 0 && v.claimId.None? && !v.modelAcknowledged && |v.message| + 22 + |r.message| <= 500)
            && v.availableAt <= n.availableAt <= Max(v.availableAt, Max(v.createdAt + 15.0, WebCooldown(s, r.channel)))
            && (r.delay > 0.0 && n.message != v.message ==> n.availableAt >= Min(now + r.delay, v.createdAt + 15.0))
            && n.continuationId == v.continuationId && n.attempts == v.attempts && n.retryDelays == v.retryDelays
            && n.maxAttempts == v.maxAttempts && n.createdAt == v.createdAt && n.escalationDelay == v.escalationDelay
  {
    hide Clean, Parts, BoundedEscalation, Strip, WebCooldown, Batch;
    var v := s.pending[r.channel];
    MergedKeepsEvents(v.message, r.message);
    JoinedLength(v.message, r.message);
  }

  lemma JoinedLength(message: string, added: string)
    ensures |Batch(Parts(message) + [added])| == |message| + 22 + |added|
    ensures Batch(Parts(message) + [added]) != message
  {
    SeparatorBorder();
    Text.JoinSplit(message, BATCH_SEPARATOR);
    Text.JoinExtend(Parts(message), added, BATCH_SEPARATOR);
  }

  /** A new wake holds its message alone, with the budget asked for, and waits for the delay and the lane. */
  lemma StartsWaiting(s: State, r: ArmRequest, now: real, token: string)
    requires Arm(s, r, now, token).1.Armed? && !(HoldsResilient(s, r.channel) && r.conflict.Coalesce?)
    ensures var t := Arm(s, r, now, token).0;
            && r.channel in t.pending && t.pending - {r.channel} == s.pending - {r.channel}
            && var n := t.pending[r.channel];
            && n.message == r.message && n.queued == [] && n.attempts == 0 && n.claimId.None? && !n.delivered && !n.modelAcknowledged
            && n.disposition.None? && n.createdAt == now && n.availableAt >= now + r.delay && n.availableAt >= WebCooldown(s, r.channel)
            && (n.availableAt == now + r.delay || n.availableAt == WebCooldown(s, r.channel))
            && n.modelAckRequired == r.modelAckRequired && n.maxAttempts == r.maxAttempts && n.retryDelays == r.retryDelays
            && n.escalationDelay == r.escalationDelay
  {
    hide ValidArm, LiveCooldowns, LiveGlobal, WebCooldown, Parts, BoundedEscalation, LeaseActive, Stripped;
  }

  // ---------------------------------------------------------------- over runs

  /** An arm that was answered leaves its message waiting on a clean channel. */
  lemma ArmedIsLive(s: State, m: Moment, channel: string)
    requires m.event.EArm? && m.event.request.channel == channel && CleanArm(m, channel) && CleanChannel(s, channel)
    requires React(s, m).1.Armed?
    ensures m.event.request.message in Live(React(s, m).0, channel)
  {
    hide Clean, Parts, Coalesced, ArmedWake, LiveCooldowns, LiveGlobal, ValidArm, Live, WakeEvents, CleanWake;
    var q := m.event.request;
    var (t, r) := Arm(s, q, m.now, m.token);
    if r.deduplicated {
      ArmedWasValid(s, q, m.now, m.token);
      ArmAnswers(s, q, m.now, m.token);
      SameWakeLive(s, t, channel);
    } else {
      ArmConserves(s, m, channel);
      BalancedHas(s, t, Booked(s, m, r, channel), channel, q.message);
    }
  }

  lemma ArmedWasValid(s: State, r: ArmRequest, now: real, token: string)
    ensures Arm(s, r, now, token).1.Armed? ==> ValidArm(r)
    ensures Arm(s, r, now, token).1.Armed? && Arm(s, r, now, token).1.deduplicated ==> Arm(s, r, now, token).0.pending == s.pending
  {
    hide Coalesced, ArmedWake, LiveCooldowns, LiveGlobal, ValidArm, Duplicate;
  }

  lemma SameWakeLive(s: State, t: State, channel: string)
    requires t.pending == s.pending
    ensures Live(t, channel) == Live(s, channel)
  {
  }

  lemma BalancedHas(s: State, t: State, b: Ledger, channel: string, message: string)
    requires Balanced(s, t, b, channel) && b.retired == b.handed == multiset{} && b.dropped <= Live(s, channel)
    requires b.accepted == multiset{message}
    ensures message in Live(t, channel)
  {
    var before, after := Live(s, channel), Live(t, channel);
    assert (after + b.retired + b.handed + b.dropped)[message] == (before + b.accepted)[message];
    assert b.dropped[message] <= before[message];
  }

  /** Over every run with clean messages: whoever is told that an event is armed finds it waiting. */
  lemma ArmedMessageWaits(now: real, preflightRequired: bool, run: seq<Moment>, i: nat, channel: string)
    requires 0.0 <= now && RunEnabled(Start(now, preflightRequired), run) && i < |run|
    requires forall k | 0 <= k < |run| :: CleanArm(run[k], channel)
    requires run[i].event.EArm? && run[i].event.request.channel == channel && Answer(Start(now, preflightRequired), run, i).Armed?
    ensures run[i].event.request.message in Live(At(Start(now, preflightRequired), run, i + 1).s, channel)
  {
    hide React, Live, CleanChannel, Step;
    var w := Start(now, preflightRequired);
    EventsAreConserved(now, preflightRequired, run, i, channel);
    ArmedIsLive(At(w, run, i).s, run[i], channel);
    StepState(At(w, run, i), run[i]);
  }

  /** The ledger says that this message still waits. */
  ghost predicate WaitsByTheBooks(b: Ledger, message: string) {
    b.accepted[message] > b.retired[message] + b.handed[message] + b.dropped[message]
  }

  /**
   Over every run with clean messages: a coalescing arm on a wake that asks for an acknowledgement is told that its
   message is known exactly while, by the books, that message still waits.
   */
  lemma KnownExactlyWhileWaiting(now: real, preflightRequired: bool, run: seq<Moment>, i: nat, channel: string)
    requires 0.0 <= now && RunEnabled(Start(now, preflightRequired), run) && i < |run|
    requires forall k | 0 <= k < |run| :: CleanArm(run[k], channel)
    requires run[i].event.EArm? && run[i].event.request.channel == channel && run[i].event.request.conflict.Coalesce?
    requires ValidArm(run[i].event.request) && HoldsResilient(At(Start(now, preflightRequired), run, i).s, channel)
    ensures var a := Answer(Start(now, preflightRequired), run, i);
            (a.Armed? && a.deduplicated)
            <==> WaitsByTheBooks(Books(Start(now, preflightRequired), run, i, channel), run[i].event.request.message)
  {
    hide Live, CleanChannel, Step, Arm, ValidArm;
    var w := Start(now, preflightRequired);
    var s, q := At(w, run, i).s, run[i].event.request;
    EventsAreConserved(now, preflightRequired, run, i, channel);
    ArmAnswers(s, q, run[i].now, run[i].token);
    var b := Books(w, run, i, channel);
    assert (Live(s, channel) + b.retired + b.handed + b.dropped)[q.message] == b.accepted[q.message];
    ReactArm(s, run[i]);
  }

  lemma ReactArm(s: State, m: Moment)
    requires m.event.EArm?
    ensures React(s, m) == Arm(s, m.event.request, m.now, m.token)
  {
    hide Arm;
  }
}
