/**
 When the owner is told about a wake, over whole runs: a delivered one that the model does not acknowledge, and one whose
 last attempt went nowhere, falls due after its own escalation delay; an announced one is not announced again.
 */
module Escalations {
  import opened Prelude
  import opened Wakes
  import opened CoordinatorSpec
  import opened CoordinatorRuns
  import opened CoordinatorSafety
  import opened CoordinatorTheorems
  import opened Retries
  import opened RetryTiming

  /** Continuation `k` was delivered and falls due at `due`. */
  ghost predicate DeliveredUntil(w: World, k: string, due: real) {
    forall c | c in w.s.pending && w.s.pending[c].continuationId == Some(k) ::
      w.s.pending[c].delivered && w.s.pending[c].escalationAt == Some(due) && !DeliveryBlocked(w.s.pending[c])
  }

  /** All attempts of `k` are used up; unless an outcome was recorded it falls due at `due`. */
  ghost predicate ExhaustedUntil(w: World, k: string, due: real) {
    forall c | c in w.s.pending && w.s.pending[c].continuationId == Some(k) ::
      var v := w.s.pending[c];
      v.attempts >= v.maxAttempts && (v.delivered || DeliveryBlocked(v) || v.escalationAt == Some(due))
  }

  ghost predicate Announced(w: World, k: string) {
    forall c | c in w.s.pending && w.s.pending[c].continuationId == Some(k) :: w.s.pending[c].escalationNotifiedAt.Some?
  }

  // ---------------------------------------------------------------- steps

  lemma StepDelivered(w: World, m: Moment, k: string, due: real)
    requires Good(w) && Enabled(w, m) && k in w.issued && DeliveredUntil(w, k, due)
    ensures DeliveredUntil(Step(w, m), k, due)
  {
    hide React, Good;
    StepIssues(w, m);
    forall c | c in React(w.s, m).0.pending && React(w.s, m).0.pending[c].continuationId == Some(k)
      ensures var n := React(w.s, m).0.pending[c]; n.delivered && n.escalationAt == Some(due) && !DeliveryBlocked(n)
    {
      WhereFrom(w, m, c, k);
    }
  }

  lemma StepExhausted(w: World, m: Moment, k: string, due: real)
    requires Good(w) && Enabled(w, m) && k in w.issued && !Released(m, React(w.s, m).1, k) && ExhaustedUntil(w, k, due)
    ensures ExhaustedUntil(Step(w, m), k, due)
  {
    hide React, Good;
    StepIssues(w, m);
    forall c | c in React(w.s, m).0.pending && React(w.s, m).0.pending[c].continuationId == Some(k)
      ensures var n := React(w.s, m).0.pending[c];
              n.attempts >= n.maxAttempts && (n.delivered || DeliveryBlocked(n) || n.escalationAt == Some(due))
    {
      WhereFrom(w, m, c, k);
    }
  }

  lemma StepAnnounced(w: World, m: Moment, k: string)
    requires Good(w) && Enabled(w, m) && k in w.issued && !Released(m, React(w.s, m).1, k) && Announced(w, k)
    ensures Announced(Step(w, m), k)
  {
    hide React, Good;
    StepIssues(w, m);
    forall c | c in React(w.s, m).0.pending && React(w.s, m).0.pending[c].continuationId == Some(k)
      ensures React(w.s, m).0.pending[c].escalationNotifiedAt.Some?
    {
      WhereFrom(w, m, c, k);
    }
  }

  // ---------------------------------------------------------------- runs

  lemma {:induction false} RunDelivered(w: World, run: seq<Moment>, i: nat, j: nat, k: string, due: real)
    requires Good(w) && RunEnabled(w, run) && i <= j <= |run| && k in At(w, run, i).issued && DeliveredUntil(At(w, run, i), k, due)
    ensures DeliveredUntil(At(w, run, j), k, due)
    decreases j
  {
    hide React, Good, Step, DeliveredUntil, RunEnabled;
    if i < j {
      RunDelivered(w, run, i, j - 1, k, due);
      GoodAt(w, run, j - 1);
      EnabledAt(w, run, j - 1);
      RunKeepsIssued(w, run, i, j - 1);
      StepDelivered(At(w, run, j - 1), run[j - 1], k, due);
    }
  }

  lemma {:induction false} RunExhausted(w: World, run: seq<Moment>, i: nat, j: nat, k: string, due: real)
    requires Good(w) && RunEnabled(w, run) && i <= j <= |run| && k in At(w, run, i).issued && ExhaustedUntil(At(w, run, i), k, due)
    requires forall l | i <= l < j :: !Releases(w, run, l, k)
    ensures ExhaustedUntil(At(w, run, j), k, due)
    decreases j
  {
    hide React, Good, Step, ExhaustedUntil, RunEnabled;
    if i < j {
      RunExhausted(w, run, i, j - 1, k, due);
      GoodAt(w, run, j - 1);
      EnabledAt(w, run, j - 1);
      RunKeepsIssued(w, run, i, j - 1);
      assert !Releases(w, run, j - 1, k);
      StepExhausted(At(w, run, j - 1), run[j - 1], k, due);
    }
  }

  lemma {:induction false} RunAnnounced(w: World, run: seq<Moment>, i: nat, j: nat, k: string)
    requires Good(w) && RunEnabled(w, run) && i <= j <= |run| && k in At(w, run, i).issued && Announced(At(w, run, i), k)
    requires forall l | i <= l < j :: !Releases(w, run, l, k)
    ensures Announced(At(w, run, j), k)
    decreases j
  {
    hide React, Good, Step, Announced, RunEnabled;
    if i < j {
      RunAnnounced(w, run, i, j - 1, k);
      GoodAt(w, run, j - 1);
      EnabledAt(w, run, j - 1);
      RunKeepsIssued(w, run, i, j - 1);
      assert !Releases(w, run, j - 1, k);
      StepAnnounced(At(w, run, j - 1), run[j - 1], k);
    }
  }

  // ---------------------------------------------------------------- what starts the clock

  /** An accepted delivery that leaves the wake open. */
  ghost predicate Delivers(w: World, run: seq<Moment>, i: nat, k: string) {
    && i < |run| && Answer(w, run, i) == Accepted(Some(k), false, None)
    && ((run[i].event.EFinalize? && run[i].event.outcome.Delivered?) || run[i].event.EAck?)
  }

  lemma DeliveryStartsClock(w: World, m: Moment, k: string)
    requires Good(w) && Enabled(w, m) && React(w.s, m).1 == Accepted(Some(k), false, None)
    requires (m.event.EFinalize? && m.event.outcome.Delivered?) || m.event.EAck?
    ensures m.event.channel in w.s.pending && k in w.issued && w.s.pending[m.event.channel].continuationId == Some(k)
    ensures DeliveredUntil(Step(w, m), k, m.now + w.s.pending[m.event.channel].escalationDelay)
    ensures HasBudget(w, k, w.s.pending[m.event.channel].retryDelays, w.s.pending[m.event.channel].maxAttempts,
                      w.s.pending[m.event.channel].escalationDelay)
  {
    hide React, Good;
    var c := m.event.channel;
    DeliveryEffect(w.s, m, k);
    Known(w, c);
    KnownIsResilient(w, c, k);
    StepIssues(w, m);
    forall d | d in React(w.s, m).0.pending && React(w.s, m).0.pending[d].continuationId == Some(k) ensures d == c {
    }
  }

  lemma DeliveryEffect(s: State, m: Moment, k: string)
    requires React(s, m).1 == Accepted(Some(k), false, None)
    requires (m.event.EFinalize? && m.event.outcome.Delivered?) || m.event.EAck?
    ensures var c := m.event.channel; var t := React(s, m).0;
            && c in s.pending && s.pending[c].continuationId == Some(k) && s.pending[c].claimId.Some?
            && t.pending.Keys == s.pending.Keys && t.pending - {c} == s.pending - {c}
            && (forall d | d in s.pending && d != c :: t.pending[d] == s.pending[d])
            && t.pending[c].delivered && t.pending[c].escalationAt == Some(m.now + s.pending[c].escalationDelay)
            && (t.pending[c].disposition == Some(Delivered) || t.pending[c].disposition == s.pending[c].disposition)
  {
    hide LiveCooldowns, LiveGlobal, Promote, BoundedDetail, ValidChannel, ValidTransportName, LeaseMatches;
  }

  /**
   A delivered continuation that the model has not acknowledged, and nobody was told about: it is due from the escalation
   delay after its delivery on, and not before.
   */
  lemma DeliveredFallsDue(now: real, preflightRequired: bool, run: seq<Moment>, i: nat, j: nat, k: string, c: string, at: real)
    requires 0.0 <= now && RunEnabled(Start(now, preflightRequired), run) && i < j <= |run|
    requires Delivers(Start(now, preflightRequired), run, i, k)
    requires c in At(Start(now, preflightRequired), run, j).s.pending
    requires var v := At(Start(now, preflightRequired), run, j).s.pending[c];
             v.continuationId == Some(k) && !v.modelAcknowledged && v.escalationNotifiedAt.None?
    ensures var v := At(Start(now, preflightRequired), run, j).s.pending[c];
            NoticeFor(v, at) == if at >= run[i].now + v.escalationDelay then Some(DeliveryExhausted) else None
  {
    hide React, Good, Step, DeliveredUntil, HasBudget, RunEnabled;
    var w := Start(now, preflightRequired);
    StartIsGood(now, preflightRequired);
    GoodAt(w, run, i);
    EnabledAt(w, run, i);
    DeliveryStartsClock(At(w, run, i), run[i], k);
    var u := At(w, run, i).s.pending[run[i].event.channel];
    StepIssues(At(w, run, i), run[i]);
    RunDelivered(w, run, i + 1, j, k, run[i].now + u.escalationDelay);
    RunBudget(w, run, i, j, k, u.retryDelays, u.maxAttempts, u.escalationDelay);
    DueThen(At(w, run, j), k, c, run[i].now + u.escalationDelay, u.retryDelays, u.maxAttempts, u.escalationDelay);
  }

  lemma DueThen(w: World, k: string, c: string, due: real, delays: seq<real>, budget: int, escalation: real)
    requires DeliveredUntil(w, k, due) && HasBudget(w, k, delays, budget, escalation)
    requires c in w.s.pending && w.s.pending[c].continuationId == Some(k)
    ensures w.s.pending[c].delivered && w.s.pending[c].escalationAt == Some(due) && !DeliveryBlocked(w.s.pending[c])
    ensures w.s.pending[c].escalationDelay == escalation
  {
  }

  /**
   After its last attempt a continuation without an outcome is due once the lease has run out and its escalation delay has
   passed, or once it is half an hour old; not before.
   */
  lemma ExhaustedFallsDue(now: real, preflightRequired: bool, run: seq<Moment>, i: nat, j: nat, k: string, c: string, at: real)
    requires 0.0 <= now && RunEnabled(Start(now, preflightRequired), run) && i < j <= |run|
    requires HandsOut(Start(now, preflightRequired), run, i, k)
    requires forall l | i < l < j :: !Releases(Start(now, preflightRequired), run, l, k)
    requires var w := Start(now, preflightRequired);
             run[i].event.channel in At(w, run, i).s.pending
             && At(w, run, i).s.pending[run[i].event.channel].attempts + 1 == At(w, run, i).s.pending[run[i].event.channel].maxAttempts
    requires c in At(Start(now, preflightRequired), run, j).s.pending
    requires var v := At(Start(now, preflightRequired), run, j).s.pending[c];
             v.continuationId == Some(k) && !v.modelAcknowledged && v.escalationNotifiedAt.None? && !v.delivered && !DeliveryBlocked(v)
    ensures var v := At(Start(now, preflightRequired), run, j).s.pending[c];
            NoticeFor(v, at) == if at >= v.createdAt + 1800.0 then Some(UndeliveredTimeout)
                                else if at >= run[i].now + 20.0 + v.escalationDelay then Some(DeliveryExhausted) else None
  {
    hide React, Good, Step, ExhaustedUntil, HasBudget, RunEnabled, Tried, ClosedUntil, Releases;
    var w := Start(now, preflightRequired);
    StartIsGood(now, preflightRequired);
    GoodAt(w, run, i);
    EnabledAt(w, run, i);
    var u := At(w, run, i).s.pending[run[i].event.channel];
    ClaimAt(At(w, run, i), run[i], k);
    LastClaimStartsClock(At(w, run, i), run[i], k);
    StepIssues(At(w, run, i), run[i]);
    RunExhausted(w, run, i + 1, j, k, run[i].now + 20.0 + u.escalationDelay);
    RunBudget(w, run, i, j, k, u.retryDelays, u.maxAttempts, u.escalationDelay);
    ExhaustedThen(At(w, run, j), k, c, run[i].now + 20.0 + u.escalationDelay, u.retryDelays, u.maxAttempts, u.escalationDelay);
  }

  lemma LastClaimStartsClock(w: World, m: Moment, k: string)
    requires Good(w) && Enabled(w, m) && m.event.EClaim? && React(w.s, m).1.Claimed? && React(w.s, m).1.continuation == Some(k)
    requires m.event.channel in w.s.pending && w.s.pending[m.event.channel].attempts + 1 == w.s.pending[m.event.channel].maxAttempts
    ensures ExhaustedUntil(Step(w, m), k, m.now + 20.0 + w.s.pending[m.event.channel].escalationDelay)
  {
    hide React, Good;
    AdmittedPassedTheGuards(w.s, m);
    var c := m.event.channel;
    Known(w, c);
    KnownIsResilient(w, c, k);
    StepIssues(w, m);
    ClaimAddsNothing(w.s, m);
    forall d | d in React(w.s, m).0.pending && React(w.s, m).0.pending[d].continuationId == Some(k) ensures d == c {
      ClaimedFrom(w, m, d, k);
    }
    SameContinuation(w.s, m, c);
    ClaimedFrom(w, m, c, k);
  }

  lemma ExhaustedThen(w: World, k: string, c: string, due: real, delays: seq<real>, budget: int, escalation: real)
    requires ExhaustedUntil(w, k, due) && HasBudget(w, k, delays, budget, escalation)
    requires c in w.s.pending && w.s.pending[c].continuationId == Some(k)
    ensures var v := w.s.pending[c];
            v.escalationDelay == escalation && v.attempts >= v.maxAttempts
            && (v.delivered || DeliveryBlocked(v) || v.escalationAt == Some(due))
  {
  }

  /** A transport that reported an uncertain delivery or asked for its owner is announced at once. */
  lemma BlockedIsDueAtOnce(w: Wake, now: real)
    requires w.continuationId.Some? && !w.modelAcknowledged && w.escalationNotifiedAt.None? && DeliveryBlocked(w)
    ensures NoticeFor(w, now).Some?
    ensures w.delivered || now < w.createdAt + 1800.0 ==>
              NoticeFor(w, now) == if w.disposition == Some(Uncertain) then Some(UncertainDelivery) else Some(OwnerNeeded)
  {
  }

  /** Once its escalation was marked, a continuation is not reported again unless it is released from a sign-in block. */
  lemma AnnouncedOnce(now: real, preflightRequired: bool, run: seq<Moment>, i: nat, j: nat, k: string, c: string, at: real)
    requires 0.0 <= now && RunEnabled(Start(now, preflightRequired), run) && i < j <= |run|
    requires run[i].event == EMarkEscalation(k) && Answer(Start(now, preflightRequired), run, i) == Flag(true)
    requires forall l | i < l < j :: !Releases(Start(now, preflightRequired), run, l, k)
    requires c in At(Start(now, preflightRequired), run, j).s.pending
    requires At(Start(now, preflightRequired), run, j).s.pending[c].continuationId == Some(k)
    ensures NoticeFor(At(Start(now, preflightRequired), run, j).s.pending[c], at) == None
  {
    hide React, Good, Step, Announced, RunEnabled, Releases;
    var w := Start(now, preflightRequired);
    StartIsGood(now, preflightRequired);
    GoodAt(w, run, i);
    EnabledAt(w, run, i);
    MarkAnnounces(At(w, run, i), run[i], k);
    StepIssues(At(w, run, i), run[i]);
    RunAnnounced(w, run, i + 1, j, k);
    AnnouncedThen(At(w, run, j), k, c);
  }

  lemma AnnouncedThen(w: World, k: string, c: string)
    requires Announced(w, k) && c in w.s.pending && w.s.pending[c].continuationId == Some(k)
    ensures w.s.pending[c].escalationNotifiedAt.Some?
  {
  }

  lemma MarkAnnounces(w: World, m: Moment, k: string)
    requires Good(w) && Enabled(w, m) && m.event == EMarkEscalation(k) && React(w.s, m).1 == Flag(true)
    ensures Announced(Step(w, m), k) && k in w.issued
  {
    hide React, Good;
    MarkEffect(w.s, m, k);
    var c := ChannelOf(w.s, k).value;
    Known(w, c);
    KnownIsResilient(w, c, k);
    StepIssues(w, m);
    forall d | d in React(w.s, m).0.pending && React(w.s, m).0.pending[d].continuationId == Some(k) ensures d == c {
    }
  }

  lemma MarkEffect(s: State, m: Moment, k: string)
    requires m.event == EMarkEscalation(k) && React(s, m).1 == Flag(true)
    ensures ChannelOf(s, k).Some?
    ensures var c := ChannelOf(s, k).value; var t := React(s, m).0;
            && t.pending.Keys == s.pending.Keys && (forall d | d in s.pending && d != c :: t.pending[d] == s.pending[d])
            && c in t.pending && t.pending[c].escalationNotifiedAt.Some?
  {
    hide LiveCooldowns, LiveGlobal, ValidContinuation;
  }
}
