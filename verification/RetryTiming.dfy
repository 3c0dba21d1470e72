/**
 When a continuation may be claimed again, over whole runs: not before the lease of the last claim has run out and the
 retry delay that was armed for that attempt has passed; and every attempt delivers the same message.
 */
module RetryTiming {
  import opened Prelude
  import opened Wakes
  import opened CoordinatorSpec
  import opened CoordinatorRuns
  import opened CoordinatorSafety
  import opened CoordinatorTheorems
  import opened Retries
  import ArmLaws

  /** Step `i` hands out continuation `k`. */
  ghost predicate HandsOut(w: World, run: seq<Moment>, i: nat, k: string) {
    i < |run| && run[i].event.EClaim? && Answer(w, run, i).Claimed? && Answer(w, run, i).continuation == Some(k)
  }

  /** Step `i` releases `k` from a sign-in block. */
  ghost predicate Releases(w: World, run: seq<Moment>, i: nat, k: string) {
    i < |run| && run[i].event.EClearPreclaim? && run[i].event.continuation == k && Answer(w, run, i) == Flag(true)
  }

  predicate Released(m: Moment, r: Response, k: string) {
    m.event.EClearPreclaim? && m.event.continuation == k && r == Flag(true)
  }

  /** Continuation `k` cannot be claimed before time `x`. */
  ghost predicate ClosedUntil(w: World, k: string, x: real) {
    w.now >= x || forall c | c in w.s.pending && w.s.pending[c].continuationId == Some(k) ::
                    w.s.pending[c].availableAt >= x || w.s.pending[c].delivered
  }

  /** Continuation `k` has been tried at least `tries` times, always with this message. */
  ghost predicate Tried(w: World, k: string, tries: int, message: string) {
    forall c | c in w.s.pending && w.s.pending[c].continuationId == Some(k) ::
      w.s.pending[c].attempts >= tries && w.s.pending[c].message == message
  }

  ghost predicate HasBudget(w: World, k: string, delays: seq<real>, budget: int, escalation: real) {
    forall c | c in w.s.pending && w.s.pending[c].continuationId == Some(k) ::
      && w.s.pending[c].retryDelays == delays && w.s.pending[c].maxAttempts == budget
      && w.s.pending[c].escalationDelay == escalation
  }

  // ---------------------------------------------------------------- one step on one wake

  /** A wake that carries `k` after the step carried it before: handed out, released, or going on. */
  lemma WhereFrom(w: World, m: Moment, c: string, k: string)
    requires Good(w) && Enabled(w, m) && k in w.issued
    requires c in React(w.s, m).0.pending && React(w.s, m).0.pending[c].continuationId == Some(k)
    ensures var (t, r) := React(w.s, m);
            && c in w.s.pending && w.s.pending[c].continuationId == Some(k)
            && var v, n := w.s.pending[c], t.pending[c];
            && (|| Continues(v, n)
                || (Released(m, r, k) && SameTerms(v, n) && !v.delivered)
                || (m.event.EClaim? && r.Claimed? && r.continuation == Some(k) && m.event.channel == c
                    && SameTerms(v, n) && n.message == v.message && n.attempts == v.attempts + 1 && v.availableAt <= m.now && !v.delivered
                    && v.attempts < v.maxAttempts && n.escalationNotifiedAt == v.escalationNotifiedAt))
  {
    hide React, Good;
    if m.event.EClaim? {
      ClaimAddsNothing(w.s, m);
      ClaimedFrom(w, m, c, k);
    } else if m.event.EClearPreclaim? {
      ClaimAddsNothing(w.s, m);
      ReleasedFrom(w, m, c, k);
    } else {
      OthersCarry(w, m);
    }
  }

  predicate SameTerms(v: Wake, n: Wake) {
    n.retryDelays == v.retryDelays && n.maxAttempts == v.maxAttempts && n.escalationDelay == v.escalationDelay
  }

  lemma ClaimedFrom(w: World, m: Moment, c: string, k: string)
    requires Good(w) && Enabled(w, m) && m.event.EClaim? && c in w.s.pending && c in React(w.s, m).0.pending
    requires React(w.s, m).0.pending[c].continuationId == Some(k)
    ensures var (t, r) := React(w.s, m);
            var v, n := w.s.pending[c], t.pending[c];
            && v.continuationId == Some(k)
            && (if m.event.channel == c && r.Claimed?
                then r.continuation == Some(k) && SameTerms(v, n) && n.message == v.message && n.attempts == v.attempts + 1
                     && v.availableAt <= m.now && !v.delivered
                     && 0 <= v.attempts < v.maxAttempts && |v.retryDelays| == v.maxAttempts - 1
                     && n.availableAt == (if n.attempts < n.maxAttempts then m.now + 20.0 + v.retryDelays[v.attempts] else m.now + 20.0)
                     && n.claimId == Some(m.token) && n.leaseExpiresAt == Some(m.now + 20.0) && n.preflightAuthorizedAt.None?
                     && n.queued == v.queued && n.createdAt == v.createdAt
                     && !n.delivered && !DeliveryBlocked(n) && n.escalationNotifiedAt == v.escalationNotifiedAt
                     && n.escalationAt == (if n.attempts < n.maxAttempts then v.escalationAt else Some(m.now + 20.0 + v.escalationDelay))
                else n == v)
  {
    hide React, Good;
    ClaimOutcome(w.s, m);
    if React(w.s, m).1.Claimed? {
      AdmittedPassedTheGuards(w.s, m);
      Known(w, m.event.channel);
    }
  }

  lemma ReleasedFrom(w: World, m: Moment, c: string, k: string)
    requires m.event.EClearPreclaim? && c in w.s.pending && c in React(w.s, m).0.pending
    requires React(w.s, m).0.pending[c].continuationId == Some(k)
    ensures var (t, r) := React(w.s, m);
            var v, n := w.s.pending[c], t.pending[c];
            v.continuationId == Some(k) && SameTerms(v, n) && (n != v ==> Released(m, r, k) && !v.delivered)
  {
    hide LiveCooldowns, LiveGlobal, Releasable, LegacyAuthMarker, ValidChannel, ValidContinuation, ValidTransportName;
    ReleasableIsOpen(w.s.pending[c], m.event.name);
  }

  lemma ReleasableIsOpen(w: Wake, name: string)
    ensures Releasable(w, name) ==> !w.delivered
  {
  }

  // ---------------------------------------------------------------- what a step keeps

  lemma StepClosed(w: World, m: Moment, k: string, x: real)
    requires Good(w) && Enabled(w, m) && k in w.issued && !Released(m, React(w.s, m).1, k) && ClosedUntil(w, k, x)
    ensures ClosedUntil(Step(w, m), k, x)
  {
    hide React, Good;
    StepIssues(w, m);
    forall c | c in React(w.s, m).0.pending && React(w.s, m).0.pending[c].continuationId == Some(k)
      ensures m.now >= x || React(w.s, m).0.pending[c].availableAt >= x || React(w.s, m).0.pending[c].delivered
    {
      WhereFrom(w, m, c, k);
    }
    StepClock(w, m);
  }

  lemma StepClock(w: World, m: Moment)
    ensures Step(w, m).now == m.now
  {
    hide React;
  }

  lemma StepTried(w: World, m: Moment, k: string, tries: int, message: string)
    requires Good(w) && Enabled(w, m) && k in w.issued && !Released(m, React(w.s, m).1, k) && Tried(w, k, tries, message) && tries > 0
    ensures Tried(Step(w, m), k, tries, message)
  {
    hide React, Good;
    StepIssues(w, m);
    forall c | c in React(w.s, m).0.pending && React(w.s, m).0.pending[c].continuationId == Some(k)
      ensures React(w.s, m).0.pending[c].attempts >= tries && React(w.s, m).0.pending[c].message == message
    {
      WhereFrom(w, m, c, k);
    }
  }

  lemma StepBudget(w: World, m: Moment, k: string, delays: seq<real>, budget: int, escalation: real)
    requires Good(w) && Enabled(w, m) && k in w.issued && HasBudget(w, k, delays, budget, escalation)
    ensures HasBudget(Step(w, m), k, delays, budget, escalation)
  {
    hide React, Good;
    StepIssues(w, m);
    forall c | c in React(w.s, m).0.pending && React(w.s, m).0.pending[c].continuationId == Some(k)
      ensures var n := React(w.s, m).0.pending[c];
              n.retryDelays == delays && n.maxAttempts == budget && n.escalationDelay == escalation
    {
      WhereFrom(w, m, c, k);
    }
  }

  // ---------------------------------------------------------------- what a run keeps

  lemma {:induction false} RunKeepsIssued(w: World, run: seq<Moment>, i: nat, j: nat)
    requires RunEnabled(w, run) && i <= j <= |run|
    ensures At(w, run, i).issued <= At(w, run, j).issued
    decreases j
  {
    hide React, Step;
    if i < j {
      RunKeepsIssued(w, run, i, j - 1);
      StepIssues(At(w, run, j - 1), run[j - 1]);
    }
  }

  lemma {:induction false} RunClosed(w: World, run: seq<Moment>, i: nat, j: nat, k: string, x: real)
    requires Good(w) && RunEnabled(w, run) && i <= j <= |run| && k in At(w, run, i).issued && ClosedUntil(At(w, run, i), k, x)
    requires forall l | i <= l < j :: !Releases(w, run, l, k)
    ensures ClosedUntil(At(w, run, j), k, x)
    decreases j
  {
    hide React, Good, Step, ClosedUntil, RunEnabled;
    if i < j {
      RunClosed(w, run, i, j - 1, k, x);
      GoodAt(w, run, j - 1);
      EnabledAt(w, run, j - 1);
      RunKeepsIssued(w, run, i, j - 1);
      assert !Releases(w, run, j - 1, k);
      StepClosed(At(w, run, j - 1), run[j - 1], k, x);
    }
  }

  lemma {:induction false} RunTried(w: World, run: seq<Moment>, i: nat, j: nat, k: string, tries: int, message: string)
    requires Good(w) && RunEnabled(w, run) && i <= j <= |run| && k in At(w, run, i).issued && Tried(At(w, run, i), k, tries, message)
    requires tries > 0 && forall l | i <= l < j :: !Releases(w, run, l, k)
    ensures Tried(At(w, run, j), k, tries, message)
    decreases j
  {
    hide React, Good, Step, Tried, RunEnabled;
    if i < j {
      RunTried(w, run, i, j - 1, k, tries, message);
      GoodAt(w, run, j - 1);
      EnabledAt(w, run, j - 1);
      RunKeepsIssued(w, run, i, j - 1);
      assert !Releases(w, run, j - 1, k);
      StepTried(At(w, run, j - 1), run[j - 1], k, tries, message);
    }
  }

  lemma {:induction false} RunBudget(w: World, run: seq<Moment>, i: nat, j: nat, k: string, delays: seq<real>, budget: int, escalation: real)
    requires Good(w) && RunEnabled(w, run) && i <= j <= |run| && k in At(w, run, i).issued
    requires HasBudget(At(w, run, i), k, delays, budget, escalation)
    ensures HasBudget(At(w, run, j), k, delays, budget, escalation)
    decreases j
  {
    hide React, Good, Step, HasBudget, RunEnabled;
    if i < j {
      RunBudget(w, run, i, j - 1, k, delays, budget, escalation);
      GoodAt(w, run, j - 1);
      EnabledAt(w, run, j - 1);
      RunKeepsIssued(w, run, i, j - 1);
      StepBudget(At(w, run, j - 1), run[j - 1], k, delays, budget, escalation);
    }
  }

  // ---------------------------------------------------------------- claims

  /** What an admitted claim finds and leaves. */
  lemma ClaimAt(w: World, m: Moment, k: string)
    requires Good(w) && Enabled(w, m) && m.event.EClaim? && React(w.s, m).1.Claimed? && React(w.s, m).1.continuation == Some(k)
    ensures var c := m.event.channel;
            && c in w.s.pending && w.s.pending[c].continuationId == Some(k)
            && var v := w.s.pending[c];
            && v.availableAt <= m.now && !v.delivered && React(w.s, m).1.message == v.message
            && 0 <= v.attempts < v.maxAttempts && |v.retryDelays| == v.maxAttempts - 1
            && k in w.issued
            && Tried(Step(w, m), k, v.attempts + 1, v.message)
            && HasBudget(w, k, v.retryDelays, v.maxAttempts, v.escalationDelay)
            && ClosedUntil(Step(w, m), k, if v.attempts + 1 < v.maxAttempts then m.now + 20.0 + v.retryDelays[v.attempts] else m.now + 20.0)
  {
    hide React, Good;
    AdmittedPassedTheGuards(w.s, m);
    var c := m.event.channel;
    Known(w, c);
    KnownIsResilient(w, c, k);
    StepIssues(w, m);
    ClaimAddsNothing(w.s, m);
    forall d | d in React(w.s, m).0.pending && React(w.s, m).0.pending[d].continuationId == Some(k) ensures d == c {
      ClaimedFrom(w, m, d, k);
    }
    SameContinuation(w.s, m, c);
    ClaimedFrom(w, m, c, k);
  }

  /**
   Over every run, restarts included: two claims of one continuation, no release of it in between, hand out the same
   message, and the second comes only after the 20 seconds of the first one's lease and the retry delay of that attempt.
   */
  lemma RetriesWait(now: real, preflightRequired: bool, run: seq<Moment>, i: nat, j: nat, k: string)
    requires 0.0 <= now && RunEnabled(Start(now, preflightRequired), run) && i < j
    requires HandsOut(Start(now, preflightRequired), run, i, k) && HandsOut(Start(now, preflightRequired), run, j, k)
    requires forall l | i < l < j :: !Releases(Start(now, preflightRequired), run, l, k)
    ensures var w := Start(now, preflightRequired);
            && run[i].event.channel in At(w, run, i).s.pending
            && var v := At(w, run, i).s.pending[run[i].event.channel];
            && 0 <= v.attempts < |v.retryDelays|
            && run[j].now >= run[i].now + 20.0 + v.retryDelays[v.attempts]
            && Answer(w, run, j).message == Answer(w, run, i).message
  {
    hide React, Good, Step, ClosedUntil, Tried, HasBudget, RunEnabled, Releases;
    var w := Start(now, preflightRequired);
    StartIsGood(now, preflightRequired);
    GoodAt(w, run, i);
    GoodAt(w, run, j);
    EnabledAt(w, run, i);
    EnabledAt(w, run, j);
    ClaimAt(At(w, run, i), run[i], k);
    ClaimAt(At(w, run, j), run[j], k);
    var v := At(w, run, i).s.pending[run[i].event.channel];
    var x := if v.attempts + 1 < v.maxAttempts then run[i].now + 20.0 + v.retryDelays[v.attempts] else run[i].now + 20.0;
    StepIssues(At(w, run, i), run[i]);
    RunClosed(w, run, i + 1, j, k, x);
    RunTried(w, run, i + 1, j, k, v.attempts + 1, v.message);
    RunBudget(w, run, i, j, k, v.retryDelays, v.maxAttempts, v.escalationDelay);
    LaterClaim(At(w, run, j), run[j], k, x, v.attempts + 1, v.message, v.retryDelays, v.maxAttempts, v.escalationDelay);
  }

  lemma LaterClaim(w: World, m: Moment, k: string, x: real, tries: int, message: string, delays: seq<real>, budget: int, escalation: real)
    requires Good(w) && Enabled(w, m) && m.event.EClaim? && React(w.s, m).1.Claimed? && React(w.s, m).1.continuation == Some(k)
    requires ClosedUntil(w, k, x) && Tried(w, k, tries, message) && HasBudget(w, k, delays, budget, escalation)
    ensures m.now >= x && React(w.s, m).1.message == message && tries < budget
  {
    hide React, Good;
    ClaimAt(w, m, k);
  }

  // ---------------------------------------------------------------- as armed

  /** Step `a` armed continuation `k`, as a wake of its own. */
  ghost predicate Arms(w: World, run: seq<Moment>, a: nat, k: string) {
    && a < |run| && run[a].event.EArm? && run[a].token == k
    && Answer(w, run, a).Armed? && Answer(w, run, a).continuation == Some(k)
  }

  /** An arm that starts a wake: its continuation is new, its budget the one asked for, and it waits for the delay asked for. */
  lemma ArmStarts(w: World, m: Moment, k: string)
    requires Good(w) && Enabled(w, m) && m.event.EArm? && m.token == k && React(w.s, m).1.Armed? && React(w.s, m).1.continuation == Some(k)
    ensures var q := m.event.request;
            && HasBudget(Step(w, m), k, q.retryDelays, q.maxAttempts, q.escalationDelay)
            && ClosedUntil(Step(w, m), k, m.now + q.delay) && k in Step(w, m).issued
  {
    hide React, Good, Arm;
    var q := m.event.request;
    StepIssues(w, m);
    ReactsToArm(w.s, m);
    ArmLaws.ArmedWasValid(w.s, q, m.now, m.token);
    ArmLaws.ArmAnswers(w.s, q, m.now, m.token);
    if q.channel in w.s.pending {
      Known(w, q.channel);
    }
    ArmLaws.StartsWaiting(w.s, q, m.now, m.token);
    forall c | c in React(w.s, m).0.pending && React(w.s, m).0.pending[c].continuationId == Some(k) ensures c == q.channel {
      if c != q.channel {
        assert c in React(w.s, m).0.pending - {q.channel};
        Known(w, c);
      }
    }
  }

  lemma ReactsToArm(s: State, m: Moment)
    requires m.event.EArm?
    ensures React(s, m) == Arm(s, m.event.request, m.now, m.token)
  {
    hide Arm;
  }

  /** The wait of `RetriesWait` in the terms of the arm: the delay listed for as many claims as there were, less those given back. */
  lemma RetriesWaitAsArmed(now: real, preflightRequired: bool, run: seq<Moment>, a: nat, i: nat, j: nat, k: string)
    requires 0.0 <= now && RunEnabled(Start(now, preflightRequired), run) && a < i < j && Arms(Start(now, preflightRequired), run, a, k)
    requires HandsOut(Start(now, preflightRequired), run, i, k) && HandsOut(Start(now, preflightRequired), run, j, k)
    requires forall l | i < l < j :: !Releases(Start(now, preflightRequired), run, l, k)
    ensures var w := Start(now, preflightRequired);
            var delays := run[a].event.request.retryDelays;
            var n := Claims(w, run, i, k) - Refunds(w, run, i, k);
            0 <= n < |delays| && run[j].now >= run[i].now + 20.0 + delays[n]
  {
    hide React, Good, Step, ClosedUntil, Tried, RunEnabled, Releases, ClaimsNow, RefundsNow;
    var w := Start(now, preflightRequired);
    var q := run[a].event.request;
    StartIsGood(now, preflightRequired);
    GoodAt(w, run, a);
    EnabledAt(w, run, a);
    ArmStarts(At(w, run, a), run[a], k);
    RunBudget(w, run, a + 1, i, k, q.retryDelays, q.maxAttempts, q.escalationDelay);
    GoodAt(w, run, i);
    EnabledAt(w, run, i);
    ClaimAt(At(w, run, i), run[i], k);
    ClaimsAreAttempts(w, run, i, k);
    RetriesWait(now, preflightRequired, run, i, j, k);
  }

  /** The first claim of a continuation, and every later one, comes only after the delay its arm asked for. */
  lemma ClaimsWaitForTheDelay(now: real, preflightRequired: bool, run: seq<Moment>, a: nat, j: nat, k: string)
    requires 0.0 <= now && RunEnabled(Start(now, preflightRequired), run) && a < j && Arms(Start(now, preflightRequired), run, a, k)
    requires HandsOut(Start(now, preflightRequired), run, j, k)
    requires forall l | a < l < j :: !Releases(Start(now, preflightRequired), run, l, k)
    ensures run[j].now >= run[a].now + run[a].event.request.delay
  {
    hide React, Good, Step, ClosedUntil, Tried, HasBudget, RunEnabled, Releases;
    var w := Start(now, preflightRequired);
    var x := run[a].now + run[a].event.request.delay;
    StartIsGood(now, preflightRequired);
    GoodAt(w, run, a);
    EnabledAt(w, run, a);
    ArmStarts(At(w, run, a), run[a], k);
    RunClosed(w, run, a + 1, j, k, x);
    GoodAt(w, run, j);
    EnabledAt(w, run, j);
    ClaimAt(At(w, run, j), run[j], k);
    ClaimIsOpen(At(w, run, j), run[j], k, x);
  }

  lemma ClaimIsOpen(w: World, m: Moment, k: string, x: real)
    requires Good(w) && Enabled(w, m) && m.event.EClaim? && React(w.s, m).1.Claimed? && React(w.s, m).1.continuation == Some(k)
    requires ClosedUntil(w, k, x)
    ensures m.now >= x
  {
    hide React, Good;
    ClaimAt(w, m, k);
  }

  /** A wake that starts without an arm continues one: same channel, the budget of the wake before it, no attempt used. */
  lemma PromotionInherits(w: World, m: Moment, c: string)
    requires Good(w) && Enabled(w, m) && !m.event.EArm? && !m.event.EClaim? && !m.event.EClearPreclaim?
    requires c in React(w.s, m).0.pending && React(w.s, m).0.pending[c].continuationId == Some(m.token)
    ensures c in w.s.pending && React(w.s, m).0.pending[c].attempts == 0 && SameTerms(w.s.pending[c], React(w.s, m).0.pending[c])
  {
    hide React, Good;
    OthersCarry(w, m);
    if c in w.s.pending {
      Known(w, c);
    }
  }

  /** A promoted wake holds the front part of the queue, waits five seconds and for the lane. */
  lemma PromotionWaits(s: State, channel: string, v: Wake, now: real, token: string)
    requires v.queued != []
    ensures var t := Promote(s, channel, v, now, token);
            && channel in t.pending && t.pending - {channel} == s.pending - {channel}
            && t.pending[channel].availableAt >= now + 5.0 && t.pending[channel].availableAt >= WebCooldown(s, channel)
            && t.pending[channel].continuationId == Some(token) && t.pending[channel].createdAt == now
            && var p := Pack(v.queued, v.queuedEscalations, ZipLength(v));
            && t.pending[channel].message == Batch(p.active) && t.pending[channel].queued == p.remaining
            && t.pending[channel].escalationMessage == BoundedEscalation(p.activeEscalations)
            && t.pending[channel].queuedEscalations == p.remainingEscalations
  {
    hide BoundedEscalation, Pack, Batch, WebCooldown;
  }
}
