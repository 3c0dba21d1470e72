/** Over whole runs of the registry: a route that moves on is bound to the conversation its caller named, and to no other. */
module RouteTargets {
  import opened Prelude
  import opened ChannelNames
  import opened RouteSpec
  import opened RouteSafety

  ghost function AnswerAt(run: seq<Op>, i: nat): Answer
    requires i < |run|
  {
    Do(At(EMPTY, run, i), run[i]).1
  }

  // ---------------------------------------------------------------- rollover candidates

  /** Operation `i` recorded a candidate for this rollover. */
  ghost predicate RecordsCandidate(run: seq<Op>, i: nat, r: string, token: string) {
    i < |run| && run[i].ORecordRollover? && run[i].r == r && run[i].token == token && AnswerAt(run, i).RolloverIs?
  }

  /** The last candidate recorded for this rollover before operation `j` came from operation `i`. */
  ghost predicate LastCandidate(run: seq<Op>, i: nat, j: nat, r: string, token: string) {
    && i < j <= |run| && RecordsCandidate(run, i, r, token)
    && forall k | i < k < j :: !RecordsCandidate(run, k, r, token)
  }

  /** What one operation does to the pending rollover of `r`. */
  lemma CandidateStep(g: Registry, op: Op, r: string)
    requires r in Do(g, op).0.rollovers && Do(g, op).0.rollovers[r].candidate.Some?
    ensures var p := Do(g, op).0.rollovers[r];
            || (op.ORecordRollover? && op.r == r && op.token == p.token && p.candidate == Some(op.target) && Do(g, op).1.RolloverIs?)
            || (r in g.rollovers && g.rollovers[r].token == p.token && g.rollovers[r].candidate == p.candidate
                && !(op.ORecordRollover? && op.r == r && op.token == p.token && Do(g, op).1.RolloverIs?))
  {
    hide ChannelName, ValidRoute, BindStaleness, BindProjectAllowed, RolloverProjectAllowed, SameTarget, ProjectIdentity, Completable;
  }

  lemma {:induction false} CandidateWasRecorded(run: seq<Op>, j: nat, r: string) returns (i: nat)
    requires j <= |run| && r in At(EMPTY, run, j).rollovers && At(EMPTY, run, j).rollovers[r].candidate.Some?
    ensures LastCandidate(run, i, j, r, At(EMPTY, run, j).rollovers[r].token)
    ensures At(EMPTY, run, j).rollovers[r].candidate == Some(run[i].target)
    decreases j
  {
    hide Do;
    var g, op := At(EMPTY, run, j - 1), run[j - 1];
    CandidateStep(g, op, r);
    var token := At(EMPTY, run, j).rollovers[r].token;
    if RecordsCandidate(run, j - 1, r, token) {
      i := j - 1;
    } else {
      i := CandidateWasRecorded(run, j - 1, r);
    }
  }

  /** A pending rollover remembers the route as it is for as long as the route stays at its generation. */
  ghost predicate KnowsItsSource(g: Registry) {
    forall r | r in g.rollovers ::
      && r in g.routes && g.rollovers[r].sourceGeneration <= g.routes[r].generation
      && (g.routes[r].generation == g.rollovers[r].sourceGeneration ==>
            && IsBound(g.routes[r])
            && g.routes[r].target.value.conversation == g.rollovers[r].sourceConversation
            && g.routes[r].target.value.project == g.rollovers[r].project)
      && (g.rollovers[r].candidate.Some? ==> g.rollovers[r].candidate.value.conversation != g.rollovers[r].sourceConversation)
  }

  lemma BindsKeepSources(g: Registry, op: Op)
    requires KnowsItsSource(g)
    requires op.OPrepareBind? || op.ORecordBind? || op.ODiscardBind? || op.OPendingBind? || op.OAbortRollover?
          || op.ORecordDelivery? || op.OCompleteRollover?
    ensures KnowsItsSource(Do(g, op).0)
  {
    hide ChannelName, ValidRoute, BindStaleness, BindProjectAllowed, Completable, NewBind;
  }

  lemma AdvancesKeepSources(g: Registry, op: Op)
    requires KnowsItsSource(g) && (op.OCompleteBind? || op.OBootstrap? || op.OTakeover?)
    ensures KnowsItsSource(Do(g, op).0)
  {
    hide ChannelName, ValidRoute, BindStaleness, BindProjectAllowed, SameTarget, ProjectIdentity;
  }

  lemma RolloversKeepSources(g: Registry, op: Op)
    requires KnowsItsSource(g) && (op.OPrepareRollover? || op.ORecordRollover? || op.OCommitRollover? || op.OUnbind?)
    ensures KnowsItsSource(Do(g, op).0)
  {
    hide ChannelName, ValidRoute, RolloverProjectAllowed;
  }

  lemma SourceStep(g: Registry, op: Op)
    requires KnowsItsSource(g)
    ensures KnowsItsSource(Do(g, op).0)
  {
    hide Do, KnowsItsSource;
    match op
    case OCompleteBind(_, _, _, _) => AdvancesKeepSources(g, op);
    case OBootstrap(_, _) => AdvancesKeepSources(g, op);
    case OTakeover(_, _) => AdvancesKeepSources(g, op);
    case OPrepareRollover(_, _) => RolloversKeepSources(g, op);
    case ORecordRollover(_, _, _) => RolloversKeepSources(g, op);
    case OCommitRollover(_, _) => RolloversKeepSources(g, op);
    case OUnbind(_, _) => RolloversKeepSources(g, op);
    case _ => BindsKeepSources(g, op);
  }

  lemma {:induction false} SourcesKnown(run: seq<Op>, i: nat)
    requires i <= |run|
    ensures KnowsItsSource(At(EMPTY, run, i))
  {
    hide Do;
    if i > 0 {
      SourcesKnown(run, i - 1);
      SourceStep(At(EMPTY, run, i - 1), run[i - 1]);
    }
  }

  // ---------------------------------------------------------------- commits

  /** A committed rollover: bound to the candidate, under the reserved name and generation, ready for its bootstrap. */
  lemma CommitShape(g: Registry, r: string, token: string)
    requires WellNamed(g) && KnowsItsSource(g) && CommitRollover(g, r, token).1.RouteIs?
    ensures var (h, a) := CommitRollover(g, r, token);
            && r in g.routes && r in g.rollovers && g.rollovers[r].token == token && g.rollovers[r].candidate.Some?
            && r in h.routes && h.routes == g.routes[r := a.route] && IsBound(g.routes[r]) && IsBound(a.route)
            && a.route.generation == g.routes[r].generation + 1
            && a.route.channel == ChannelName(r, g.routes[r].generation + 1)
            && a.route.target.value.url == g.rollovers[r].candidate.value.url
            && a.route.target.value.conversation == g.rollovers[r].candidate.value.conversation
            && a.route.target.value.conversation != g.routes[r].target.value.conversation
            && a.route.target.value.project == g.routes[r].target.value.project
            && r !in h.rollovers && Completable(h, r, token) && !h.last[r].bootstrapSent && h.last[r].delivery.Unsent?
  {
    hide ChannelName, ValidRoute;
  }

  /**
   A rollover that commits moves its route to the conversation recorded last for it: another one than before, in the
   same project, at the next generation, and its bootstrap can be completed. There always is such a record.
   */
  lemma CommitBindsTheCandidate(run: seq<Op>, j: nat, r: string, token: string) returns (i: nat)
    requires j < |run| && run[j] == OCommitRollover(r, token) && AnswerAt(run, j).RouteIs?
    ensures LastCandidate(run, i, j, r, token)
    ensures var g, h := At(EMPTY, run, j), At(EMPTY, run, j + 1);
            && r in g.routes && IsBound(g.routes[r]) && r in h.routes && IsBound(h.routes[r])
            && h.routes[r].target.value.url == run[i].target.url
            && h.routes[r].target.value.conversation == run[i].target.conversation != g.routes[r].target.value.conversation
            && h.routes[r].target.value.project == g.routes[r].target.value.project
            && h.routes[r].generation == g.routes[r].generation + 1
            && h.routes[r].channel == ChannelName(r, g.routes[r].generation + 1)
            && Completable(h, r, token) && !h.last[r].bootstrapSent
  {
    hide CommitRollover, WellNamed, KnowsItsSource, Completable;
    EmptyIsWellNamed();
    RunEvolves(EMPTY, run, j, j);
    SourcesKnown(run, j);
    CommitShape(At(EMPTY, run, j), r, token);
    i := CandidateWasRecorded(run, j, r);
  }

  /** The last record is unique, so it is the one the caller knows. */
  lemma LastCandidateIsOne(run: seq<Op>, i: nat, k: nat, j: nat, r: string, token: string)
    requires LastCandidate(run, i, j, r, token) && LastCandidate(run, k, j, r, token)
    ensures i == k
  {
    hide RecordsCandidate;
  }

  // ---------------------------------------------------------------- binds

  ghost predicate RecordsBind(run: seq<Op>, i: nat, r: string, token: string) {
    i < |run| && run[i].ORecordBind? && run[i].r == r && run[i].token == token && AnswerAt(run, i).BindIs?
  }

  ghost predicate LastBind(run: seq<Op>, i: nat, j: nat, r: string, token: string) {
    && i < j <= |run| && RecordsBind(run, i, r, token)
    && forall k | i < k < j :: !RecordsBind(run, k, r, token)
  }

  lemma BindStep(g: Registry, op: Op, r: string)
    requires r in Do(g, op).0.binds && Do(g, op).0.binds[r].candidate.Some?
    ensures var b := Do(g, op).0.binds[r];
            || (op.ORecordBind? && op.r == r && op.token == b.token && b.candidate == Some(op.target) && Do(g, op).1.BindIs?)
            || (r in g.binds && g.binds[r].token == b.token && g.binds[r].candidate == b.candidate
                && !(op.ORecordBind? && op.r == r && op.token == b.token && Do(g, op).1.BindIs?))
  {
    hide ChannelName, ValidRoute, BindStaleness, BindProjectAllowed, RolloverProjectAllowed, SameTarget, ProjectIdentity, Completable;
  }

  lemma {:induction false} BindWasRecorded(run: seq<Op>, j: nat, r: string) returns (i: nat)
    requires j <= |run| && r in At(EMPTY, run, j).binds && At(EMPTY, run, j).binds[r].candidate.Some?
    ensures LastBind(run, i, j, r, At(EMPTY, run, j).binds[r].token)
    ensures At(EMPTY, run, j).binds[r].candidate == Some(run[i].target)
    decreases j
  {
    hide Do;
    BindStep(At(EMPTY, run, j - 1), run[j - 1], r);
    if RecordsBind(run, j - 1, r, At(EMPTY, run, j).binds[r].token) {
      i := j - 1;
    } else {
      i := BindWasRecorded(run, j - 1, r);
    }
  }

  /** A completed bind: the target asked for, at the next generation or at generation 0, or the record as it was. */
  predicate BoundAsAsked(g: Registry, h: Registry, r: string, target: Target, a: Answer) {
    && a.RouteIs? && r in h.routes && h.routes[r] == a.route && IsBound(a.route)
    && a.route.target.value.conversation == target.conversation
    && h.routes - {r} == g.routes - {r}
    && (if a.changed
        then a.route.target == Some(target)
             && a.route.generation == (if r in g.routes then g.routes[r].generation + 1 else 0)
             && a.route.channel == ChannelName(r, a.route.generation)
        else r in g.routes && h.routes == g.routes)
  }

  lemma CompletedBindShape(g: Registry, r: string, token: string, supplied: Option<Target>, now: real)
    requires CompleteBind(g, r, token, supplied, now).1.RouteIs?
    ensures var (h, a) := CompleteBind(g, r, token, supplied, now);
            && r in g.binds && g.binds[r].token == token && (supplied.Some? || g.binds[r].candidate.Some?) && r !in h.binds
            && now - g.binds[r].createdAt <= 600.0
            && (if g.binds[r].bootstrap then r !in g.routes || g.routes[r].generation == 0
                else r in g.routes && g.routes[r].generation == g.binds[r].sourceGeneration)
            && BoundAsAsked(g, h, r, if supplied.Some? then supplied.value else g.binds[r].candidate.value, a)
  {
    hide ChannelName, ValidRoute, BindProjectAllowed, ProjectIdentity;
  }

  /** A completed bind leaves the route bound to the target of the call or, without one, to the target recorded last for it. */
  lemma BindBindsTheTarget(run: seq<Op>, j: nat, r: string, token: string, supplied: Option<Target>, now: real) returns (i: nat)
    requires j < |run| && run[j] == OCompleteBind(r, token, supplied, now) && AnswerAt(run, j).RouteIs?
    ensures supplied.None? ==> LastBind(run, i, j, r, token)
    ensures BoundAsAsked(At(EMPTY, run, j), At(EMPTY, run, j + 1), r,
                         if supplied.Some? then supplied.value else run[i].target, AnswerAt(run, j))
  {
    hide CompleteBind, BoundAsAsked;
    CompletedBindShape(At(EMPTY, run, j), r, token, supplied, now);
    if supplied.None? {
      i := BindWasRecorded(run, j, r);
    } else {
      i := 0;
    }
  }

  // ---------------------------------------------------------------- takeover, first binding, unbinding

  /** A takeover starts the next generation, bound to the given target. */
  lemma TakeoverBindsTheTarget(g: Registry, r: string, t: Target)
    requires Takeover(g, r, t).1.RouteIs?
    ensures var (h, a) := Takeover(g, r, t);
            && a.changed && h.routes == g.routes[r := a.route] && a.route.target == Some(t)
            && a.route.generation == (if r in g.routes then g.routes[r].generation else 0) + 1
            && a.route.channel == ChannelName(r, a.route.generation)
  {
    hide ChannelName, ValidRoute, ProjectIdentity;
  }

  /** An unbound route has no target and, with a rollover pending, skips the generation reserved for it. */
  lemma UnbindSkipsTheReserved(g: Registry, r: string, n: nat)
    requires WellNamed(g) && Unbind(g, r, n).1.RouteIs?
    ensures var (h, a) := Unbind(g, r, n);
            && r in g.routes && g.routes[r].generation == n
            && h.routes == g.routes[r := a.route] && a.route.target == None && a.route.channel == ChannelName(r, a.route.generation)
            && r !in h.rollovers && r !in h.binds
            && (r in g.rollovers ==> a.route.generation > n && a.route.generation >= g.rollovers[r].targetGeneration
                                     && r in h.last && h.last[r].state.Aborted? && h.last[r].rollover == g.rollovers[r])
            && (r !in g.rollovers ==> a.route.generation == n && h.last == g.last)
  {
    hide ChannelName, ValidRoute;
  }
}
