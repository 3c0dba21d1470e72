/** The safety statements about whole coordinator runs, restarts included. */
module CoordinatorTheorems {
  import opened Prelude
  import opened Wakes
  import opened CoordinatorSpec
  import opened CoordinatorRuns
  import opened CoordinatorSafety
  import opened CoordinatorGuards

  /** The world before step `i` of a run. */
  ghost function At(w: World, run: seq<Moment>, i: nat): World
    requires i <= |run|
    decreases i
  {
    if i == 0 then w else Step(At(w, run, i - 1), run[i - 1])
  }

  /** What step `i` answered. */
  ghost function Answer(w: World, run: seq<Moment>, i: nat): Response
    requires i < |run|
  {
    React(At(w, run, i).s, run[i]).1
  }

  lemma {:induction false} EnabledAt(w: World, run: seq<Moment>, i: nat)
    requires RunEnabled(w, run) && i < |run|
    ensures Enabled(At(w, run, i), run[i])
    decreases i
  {
    hide Step;
    if i > 0 {
      AtShift(w, run, i);
      EnabledAt(Step(w, run[0]), run[1..], i - 1);
    }
  }

  lemma {:induction false} AtShift(w: World, run: seq<Moment>, i: nat)
    requires 0 < i <= |run|
    ensures At(w, run, i) == At(Step(w, run[0]), run[1..], i - 1)
    decreases i
  {
    hide Step;
    if i > 1 {
      AtShift(w, run, i - 1);
    } else {
      assert At(w, run, 0) == w;
    }
  }

  lemma {:induction false} GoodAt(w: World, run: seq<Moment>, i: nat)
    requires Good(w) && RunEnabled(w, run) && i <= |run|
    ensures Good(At(w, run, i))
    decreases i
  {
    hide Good, Step;
    if i > 0 {
      GoodAt(w, run, i - 1);
      EnabledAt(w, run, i - 1);
      StepKeepsGood(At(w, run, i - 1), run[i - 1]);
    }
  }

  /** History only grows, and time only advances. */
  lemma {:induction false} HistoryGrows(w: World, run: seq<Moment>, i: nat, j: nat)
    requires RunEnabled(w, run) && i <= j <= |run|
    ensures At(w, run, i).spent <= At(w, run, j).spent && At(w, run, i).settled <= At(w, run, j).settled
    ensures At(w, run, i).now <= At(w, run, j).now
    decreases j
  {
    hide React;
    if i < j {
      HistoryGrows(w, run, i, j - 1);
      EnabledAt(w, run, j - 1);
    }
  }

  /** At every point of every run at most one channel holds an unexpired claim lease. */
  lemma SingleLaneAlways(now: real, preflightRequired: bool, run: seq<Moment>, i: nat)
    requires 0.0 <= now && RunEnabled(Start(now, preflightRequired), run) && i <= |run|
    ensures var w := At(Start(now, preflightRequired), run, i);
            forall c, d | c in w.s.pending && d in w.s.pending && LeaseActive(w.s.pending[c], w.now) && LeaseActive(w.s.pending[d], w.now)
              :: c == d
  {
    hide React;
    StartIsGood(now, preflightRequired);
    GoodAt(Start(now, preflightRequired), run, i);
  }

  predicate AcceptsOutcome(e: Event, r: Response) {
    r.Accepted? && (e.EFinalize? || e.EAck?)
  }

  lemma AcceptedFinalizeHeldClaim(w: World, m: Moment)
    requires m.event.EFinalize? && React(w.s, m).1.Accepted?
    ensures HoldsClaim(w.s, m.event.channel, m.event.claimId)
  {
  }

  lemma AcceptedAckHeldClaim(w: World, m: Moment)
    requires m.event.EAck? && React(w.s, m).1.Accepted?
    ensures HoldsClaim(w.s, m.event.channel, m.event.claimId)
  {
  }

  lemma AcceptedClaimIsSpent(w: World, m: Moment)
    requires Good(w) && Enabled(w, m) && AcceptsOutcome(m.event, React(w.s, m).1)
    ensures m.event.claimId !in w.spent && m.event.claimId in Step(w, m).spent
  {
    hide React, Good;
    if m.event.EFinalize? {
      AcceptedFinalizeHeldClaim(w, m);
    } else {
      AcceptedAckHeldClaim(w, m);
    }
    Known(w, m.event.channel);
  }

  /** Over a run, one claim id is accepted by at most one ack or finalize. */
  lemma ClaimIdAcceptedOnce(now: real, preflightRequired: bool, run: seq<Moment>, i: nat, j: nat)
    requires 0.0 <= now && RunEnabled(Start(now, preflightRequired), run) && i < j < |run|
    requires AcceptsOutcome(run[i].event, Answer(Start(now, preflightRequired), run, i))
    requires AcceptsOutcome(run[j].event, Answer(Start(now, preflightRequired), run, j))
    ensures run[i].event.claimId != run[j].event.claimId
  {
    hide React, Good, Step;
    var w := Start(now, preflightRequired);
    StartIsGood(now, preflightRequired);
    GoodAt(w, run, i);
    GoodAt(w, run, j);
    EnabledAt(w, run, i);
    EnabledAt(w, run, j);
    AcceptedClaimIsSpent(At(w, run, i), run[i]);
    AcceptedClaimIsSpent(At(w, run, j), run[j]);
    assert At(w, run, i + 1) == Step(At(w, run, i), run[i]);
    HistoryGrows(w, run, i + 1, j);
  }

  predicate Admitted(e: Event, r: Response) {
    e.EClaim? && r.Claimed?
  }

  lemma AdmittedPassedTheGuards(s: State, m: Moment)
    requires m.event.EClaim? && React(s, m).1.Claimed?
    ensures var c := m.event.channel;
            && c in s.pending && React(s, m).1.continuation == s.pending[c].continuationId
            && WebCooldown(s, c) <= m.now && !s.pending[c].delivered && !DeliveryBlocked(s.pending[c])
            && s.pending[c].availableAt <= m.now && React(s, m).1.message == s.pending[c].message
  {
  }

  lemma ClaimedIsUnsettled(w: World, m: Moment)
    requires Good(w) && Enabled(w, m) && Admitted(m.event, React(w.s, m).1)
    ensures React(w.s, m).1.continuation.Some? ==> React(w.s, m).1.continuation.value !in w.settled
    ensures w.lastDelivery.Some? ==> w.lastDelivery.value + MIN_WEB_TURN_INTERVAL <= m.now
  {
    hide React, Good;
    AdmittedPassedTheGuards(w.s, m);
    Known(w, m.event.channel);
    KnownState(w);
  }

  lemma SettledAfter(w: World, m: Moment)
    ensures SettledBy(m.event, React(w.s, m).1) <= Step(w, m).settled
  {
    hide React, SettledBy;
  }

  /** Once an outcome marked a continuation delivered or uncertain, no later claim hands it out. */
  lemma SettledIsNeverClaimedAgain(now: real, preflightRequired: bool, run: seq<Moment>, i: nat, j: nat, k: string)
    requires 0.0 <= now && RunEnabled(Start(now, preflightRequired), run) && i < j < |run|
    requires k in SettledBy(run[i].event, Answer(Start(now, preflightRequired), run, i))
    requires Admitted(run[j].event, Answer(Start(now, preflightRequired), run, j))
    ensures Answer(Start(now, preflightRequired), run, j).continuation != Some(k)
  {
    hide React, Good, Step, SettledBy, RunEnabled;
    var w := Start(now, preflightRequired);
    StartIsGood(now, preflightRequired);
    GoodAt(w, run, j);
    EnabledAt(w, run, j);
    SettledAfter(At(w, run, i), run[i]);
    HistoryGrows(w, run, i + 1, j);
    ClaimedIsUnsettled(At(w, run, j), run[j]);
  }

  /** What last held the lane is never forgotten: it is at least as recent as any delivery or activity of the run. */
  lemma {:induction false} LastDeliveryGrows(w: World, run: seq<Moment>, i: nat, j: nat)
    requires RunEnabled(w, run) && i < j <= |run| && HoldsLane(run[i].event, Answer(w, run, i))
    ensures At(w, run, j).lastDelivery.Some? && At(w, run, j).lastDelivery.value >= run[i].now
    decreases j
  {
    hide React;
    EnabledAt(w, run, j - 1);
    if i < j - 1 {
      LastDeliveryGrows(w, run, i, j - 1);
      assert At(w, run, i + 1) == Step(At(w, run, i), run[i]);
      HistoryGrows(w, run, i + 1, j - 1);
    }
  }

  /** A claim is admitted only 30 seconds after every earlier delivery and every observed model activity, on any channel
      and across restarts. */
  lemma ClaimsWaitForTheLane(now: real, preflightRequired: bool, run: seq<Moment>, i: nat, j: nat)
    requires 0.0 <= now && RunEnabled(Start(now, preflightRequired), run) && i < j < |run|
    requires HoldsLane(run[i].event, Answer(Start(now, preflightRequired), run, i))
    requires Admitted(run[j].event, Answer(Start(now, preflightRequired), run, j))
    ensures run[j].now >= run[i].now + 30.0
  {
    hide React, Good, Step;
    var w := Start(now, preflightRequired);
    StartIsGood(now, preflightRequired);
    GoodAt(w, run, j);
    EnabledAt(w, run, j);
    LastDeliveryGrows(w, run, i, j);
    ClaimedIsUnsettled(At(w, run, j), run[j]);
  }

  /** In every reachable state: attempts within budget, one retry delay per gap, no claim on a settled wake. */
  lemma WakesStayWellFormed(now: real, preflightRequired: bool, run: seq<Moment>, i: nat, channel: string)
    requires 0.0 <= now && RunEnabled(Start(now, preflightRequired), run) && i <= |run|
    requires channel in At(Start(now, preflightRequired), run, i).s.pending
    ensures var v := At(Start(now, preflightRequired), run, i).s.pending[channel];
            && 0 <= v.attempts <= v.maxAttempts
            && (v.modelAckRequired ==> |v.retryDelays| == v.maxAttempts - 1)
            && (v.delivered || DeliveryBlocked(v) ==> v.claimId.None?)
            && |v.queued| == |v.queuedEscalations|
  {
    hide Good, Step;
    StartIsGood(now, preflightRequired);
    GoodAt(Start(now, preflightRequired), run, i);
    Known(At(Start(now, preflightRequired), run, i), channel);
  }

  lemma ClaimIndexesInBounds(s: State, m: Moment)
    requires m.event.EClaim? && forall c | c in s.pending :: WakeOk(s.pending[c])
    ensures React(s, m).1 != Failed(IndexError)
  {
    if m.event.channel in s.pending {
      assert WakeOk(s.pending[m.event.channel]);
    }
  }

  /** The retry delay a claim looks up always exists. */
  lemma RetryIndexInBounds(now: real, preflightRequired: bool, run: seq<Moment>, i: nat)
    requires 0.0 <= now && RunEnabled(Start(now, preflightRequired), run) && i < |run| && run[i].event.EClaim?
    ensures Answer(Start(now, preflightRequired), run, i) != Failed(IndexError)
  {
    hide React;
    var w := Start(now, preflightRequired);
    StartIsGood(now, preflightRequired);
    GoodAt(w, run, i);
    ClaimIndexesInBounds(At(w, run, i).s, run[i]);
  }

  lemma GoodRetriesCover(w: World, channel: string)
    requires Good(w) && channel in w.s.pending
    ensures RetriesCover(w.s.pending[channel])
  {
    Known(w, channel);
  }

  /** In every reachable state a poll says `ready` exactly when the claim operation hands the wake out there and then. */
  lemma ReadyIsClaimed(now: real, preflightRequired: bool, run: seq<Moment>, i: nat, channel: string, lease: Option<string>, mode: Mode,
                       at: real, backoff: real, token: string)
    requires 0.0 <= now && RunEnabled(Start(now, preflightRequired), run) && i <= |run|
    ensures var s := At(Start(now, preflightRequired), run, i).s;
            ReportsReady(s, channel, lease, mode, at, backoff, token)
            <==> Claim(s, channel, lease, mode, at, backoff, token).1.Claimed?
  {
    hide Good, Step, At, ReportsReady, Claim, RetriesCover;
    var w := At(Start(now, preflightRequired), run, i);
    StartIsGood(now, preflightRequired);
    GoodAt(Start(now, preflightRequired), run, i);
    if channel in w.s.pending {
      GoodRetriesCover(w, channel);
    }
    StatusAgreesWithClaim(w.s, channel, lease, mode, at, backoff, token);
  }

  /** After every step of every run the file on disk loads back to exactly the pending wakes in memory. */
  lemma RestartIsLossless(now: real, preflightRequired: bool, run: seq<Moment>, i: nat, later: real)
    requires 0.0 <= now && RunEnabled(Start(now, preflightRequired), run) && i <= |run|
    requires later >= At(Start(now, preflightRequired), run, i).now
    ensures var s := At(Start(now, preflightRequired), run, i).s;
            && s.disk.pending == s.pending
            && Load(s.disk, s.preflightRequired, later).pending == s.pending
  {
    hide Good, Step, Load;
    var w := Start(now, preflightRequired);
    StartIsGood(now, preflightRequired);
    GoodAt(w, run, i);
    KnownState(At(w, run, i));
    RestartLosesNoWake(At(w, run, i), later);
  }

  lemma GoodHasUniqueContinuations(w: World)
    requires Good(w)
    ensures UniqueContinuations(w.s)
  {
    var p := w.s.pending;
    forall c, d | c in p && d in p && p[c].continuationId.Some? && p[c].continuationId == p[d].continuationId ensures c == d {
      assert c != d ==> IdsDiffer(p[c], p[d]);
    }
  }

  /** In every reachable state a continuation names one wake, so the scans that look for it find the right one. */
  lemma ContinuationsAreUnique(now: real, preflightRequired: bool, run: seq<Moment>, i: nat)
    requires 0.0 <= now && RunEnabled(Start(now, preflightRequired), run) && i <= |run|
    ensures UniqueContinuations(At(Start(now, preflightRequired), run, i).s)
  {
    hide Good, Step;
    StartIsGood(now, preflightRequired);
    GoodAt(Start(now, preflightRequired), run, i);
    GoodHasUniqueContinuations(At(Start(now, preflightRequired), run, i));
  }
}
