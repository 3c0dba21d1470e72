/**
 Whole runs of the route registry, operations in any order: a (route, generation) pair, and its
 channel, names at most one conversation for ever, and each generation is left at most once.
 */
module RouteSafety {
  import opened Prelude
  import opened ChannelNames
  import opened RouteSpec

  datatype Op =
    /** The first binding, under the channel name derived for it. */
    | OBootstrap(r: string, target: Target)
    | OPrepareBind(r: string, session: Option<string>, allow: bool, bootstrapIfMissing: bool, now: real, token: string)
    | ORecordBind(r: string, token: string, target: Target, now: real)
    | OCompleteBind(r: string, token: string, supplied: Option<Target>, now: real)
    | ODiscardBind(r: string, token: string)
    | OPendingBind(r: string, now: real)
    | OUnbind(r: string, generation: nat)
    | OPrepareRollover(r: string, token: string)
    | ORecordRollover(r: string, token: string, target: Target)
    | OCommitRollover(r: string, token: string)
    | OAbortRollover(r: string, token: string)
    | ORecordDelivery(r: string, token: string, delivery: BootstrapDelivery)
    | OCompleteRollover(r: string, token: string)
    | OTakeover(r: string, target: Target)

  function Do(g: Registry, op: Op): (Registry, Answer) {
    match op
    case OBootstrap(r, t) => Bootstrap(g, r, ChannelName(r, 0), t)
    case OPrepareBind(r, s, a, b, now, token) => PrepareBind(g, r, s, a, b, now, token)
    case ORecordBind(r, token, t, now) => RecordBind(g, r, token, t, now)
    case OCompleteBind(r, token, t, now) => CompleteBind(g, r, token, t, now)
    case ODiscardBind(r, token) => DiscardBind(g, r, token)
    case OPendingBind(r, now) => PendingBind(g, r, now)
    case OUnbind(r, n) => Unbind(g, r, n)
    case OPrepareRollover(r, token) => PrepareRollover(g, r, token)
    case ORecordRollover(r, token, t) => RecordRollover(g, r, token, t)
    case OCommitRollover(r, token) => CommitRollover(g, r, token)
    case OAbortRollover(r, token) => AbortRollover(g, r, token)
    case ORecordDelivery(r, token, d) => RecordDelivery(g, r, token, d)
    case OCompleteRollover(r, token) => CompleteRollover(g, r, token)
    case OTakeover(r, t) => Takeover(g, r, t)
  }

  /** The registry after the first `i` operations. */
  function At(g: Registry, run: seq<Op>, i: nat): Registry
    requires i <= |run|
  {
    if i == 0 then g else Do(At(g, run, i - 1), run[i - 1]).0
  }

  // ---------------------------------------------------------------- how a record may evolve

  /** Generations do not go back, and within one generation a conversation is kept or dropped. */
  predicate RouteEvolves(a: Route, b: Route) {
    || a.generation < b.generation
    || (a.generation == b.generation
        && (b.target.Some? ==> a.target.Some? && a.target.value.conversation == b.target.value.conversation))
  }

  ghost predicate Evolves(g: Registry, h: Registry) {
    forall r | r in g.routes :: r in h.routes && RouteEvolves(g.routes[r], h.routes[r])
  }

  lemma EvolvesTransitive(g: Registry, h: Registry, k: Registry)
    requires Evolves(g, h) && Evolves(h, k)
    ensures Evolves(g, k)
  {
    forall r | r in g.routes ensures r in k.routes && RouteEvolves(g.routes[r], k.routes[r]) {
      assert RouteEvolves(g.routes[r], h.routes[r]) && RouteEvolves(h.routes[r], k.routes[r]);
    }
  }

  /** Records agree with the naming scheme, and a rollover reserves the generation after its source. */
  ghost predicate WellNamed(g: Registry) {
    && (forall r | r in g.routes :: g.routes[r].channel == ChannelName(r, g.routes[r].generation))
    && (forall r | r in g.rollovers ::
          var p := g.rollovers[r];
          p.channel == ChannelName(r, p.targetGeneration) && p.targetGeneration == p.sourceGeneration + 1)
  }

  /** Operations that leave the route records and the pending rollovers alone. */
  lemma SameRecords(g: Registry, h: Registry)
    requires WellNamed(g) && h.routes == g.routes && h.rollovers == g.rollovers
    ensures Evolves(g, h) && WellNamed(h)
  {
  }

  lemma BindsEvolve(g: Registry, r: string, session: Option<string>, allow: bool, missing: bool, now: real, token: string, t: Target)
    requires WellNamed(g)
    ensures var h := PrepareBind(g, r, session, allow, missing, now, token).0; Evolves(g, h) && WellNamed(h)
    ensures var h := RecordBind(g, r, token, t, now).0; Evolves(g, h) && WellNamed(h)
    ensures var h := DiscardBind(g, r, token).0; Evolves(g, h) && WellNamed(h)
    ensures var h := PendingBind(g, r, now).0; Evolves(g, h) && WellNamed(h)
  {
    hide BindStaleness, BindProjectAllowed, NewBind, Evolves, WellNamed, ValidRoute, HasBind;
    SameRecords(g, PrepareBind(g, r, session, allow, missing, now, token).0);
    SameRecords(g, RecordBind(g, r, token, t, now).0);
    SameRecords(g, DiscardBind(g, r, token).0);
    SameRecords(g, PendingBind(g, r, now).0);
  }

  lemma BootstrapBindEvolves(g: Registry, r: string, t: Target)
    requires WellNamed(g)
    ensures var h := CompleteBootstrapBind(g, r, t).0; Evolves(g, h) && WellNamed(h)
  {
    hide SameTarget, ChannelName;
  }

  lemma RouteBindEvolves(g: Registry, r: string, t: Target)
    requires WellNamed(g) && r in g.routes
    ensures var h := CompleteRouteBind(g, r, t).0; Evolves(g, h) && WellNamed(h)
  {
    hide SameTarget, ChannelName;
  }

  lemma CompletedBindEvolves(g: Registry, r: string, token: string, supplied: Option<Target>, now: real)
    requires WellNamed(g)
    ensures var h := CompleteBind(g, r, token, supplied, now).0; Evolves(g, h) && WellNamed(h)
  {
    hide BindProjectAllowed, BindStaleness, ValidRoute, CompleteBootstrapBind, CompleteRouteBind, Evolves, WellNamed;
    SameRecords(g, g);
    SameRecords(g, DropBind(g, r));
    if r in g.binds && (supplied.Some? || g.binds[r].candidate.Some?) {
      var target := if supplied.Some? then supplied.value else g.binds[r].candidate.value;
      BootstrapBindEvolves(g, r, target);
      if r in g.routes {
        RouteBindEvolves(g, r, target);
      }
    }
  }

  lemma UnbindEvolves(g: Registry, r: string, n: nat)
    requires WellNamed(g)
    ensures var h := Unbind(g, r, n).0; Evolves(g, h) && WellNamed(h)
  {
    hide ChannelName, ValidRoute;
  }

  /** Operations on the one pending rollover of a route, under the reserved name and generation. */
  lemma SameRoutes(g: Registry, h: Registry, r: string)
    requires WellNamed(g) && h.routes == g.routes
    requires forall q | q in h.rollovers && q != r :: q in g.rollovers && h.rollovers[q] == g.rollovers[q]
    requires r in h.rollovers ==>
               h.rollovers[r].channel == ChannelName(r, h.rollovers[r].targetGeneration)
               && h.rollovers[r].targetGeneration == h.rollovers[r].sourceGeneration + 1
    ensures Evolves(g, h) && WellNamed(h)
  {
  }

  lemma PrepareEvolves(g: Registry, r: string, token: string)
    requires WellNamed(g)
    ensures var h := PrepareRollover(g, r, token).0; Evolves(g, h) && WellNamed(h)
  {
    hide ChannelName, ValidRoute, Evolves;
    SameRoutes(g, PrepareRollover(g, r, token).0, r);
  }

  lemma RecordEvolves(g: Registry, r: string, token: string, t: Target)
    requires WellNamed(g)
    ensures var h := RecordRollover(g, r, token, t).0; Evolves(g, h) && WellNamed(h)
  {
    hide ChannelName, ValidRoute, RolloverProjectAllowed, Evolves;
    SameRoutes(g, RecordRollover(g, r, token, t).0, r);
  }

  lemma AbortEvolves(g: Registry, r: string, token: string)
    requires WellNamed(g)
    ensures var h := AbortRollover(g, r, token).0; Evolves(g, h) && WellNamed(h)
  {
    hide ChannelName, ValidRoute, Evolves;
    SameRoutes(g, AbortRollover(g, r, token).0, r);
  }

  lemma CommitEvolves(g: Registry, r: string, token: string)
    requires WellNamed(g)
    ensures var h := CommitRollover(g, r, token).0; Evolves(g, h) && WellNamed(h)
  {
    hide ChannelName, ValidRoute;
  }

  lemma CompletionsEvolve(g: Registry, r: string, token: string, d: BootstrapDelivery)
    requires WellNamed(g)
    ensures var h := RecordDelivery(g, r, token, d).0; Evolves(g, h) && WellNamed(h)
    ensures var h := CompleteRollover(g, r, token).0; Evolves(g, h) && WellNamed(h)
  {
    hide ChannelName, ValidRoute;
  }

  lemma CreationsEvolve(g: Registry, r: string, t: Target)
    requires WellNamed(g)
    ensures var h := Bootstrap(g, r, ChannelName(r, 0), t).0; Evolves(g, h) && WellNamed(h)
    ensures var h := Takeover(g, r, t).0; Evolves(g, h) && WellNamed(h)
  {
    hide ChannelName, ValidRoute, ProjectIdentity;
  }

  /** One operation. */
  lemma StepEvolves(g: Registry, op: Op)
    requires WellNamed(g)
    ensures Evolves(g, Do(g, op).0) && WellNamed(Do(g, op).0)
  {
    hide Evolves, WellNamed, Bootstrap, PrepareBind, RecordBind, CompleteBind, DiscardBind, PendingBind, Unbind,
         PrepareRollover, RecordRollover, CommitRollover, AbortRollover, RecordDelivery, CompleteRollover, Takeover;
    match op
    case OBootstrap(r, t) => CreationsEvolve(g, r, t);
    case OPrepareBind(r, s, a, b, now, token) => BindsEvolve(g, r, s, a, b, now, token, Target("", None, ""));
    case ORecordBind(r, token, t, now) => BindsEvolve(g, r, None, false, false, now, token, t);
    case OCompleteBind(r, token, t, now) => CompletedBindEvolves(g, r, token, t, now);
    case ODiscardBind(r, token) => BindsEvolve(g, r, None, false, false, 0.0, token, Target("", None, ""));
    case OPendingBind(r, now) => BindsEvolve(g, r, None, false, false, now, "", Target("", None, ""));
    case OUnbind(r, n) => UnbindEvolves(g, r, n);
    case OPrepareRollover(r, token) => PrepareEvolves(g, r, token);
    case ORecordRollover(r, token, t) => RecordEvolves(g, r, token, t);
    case OCommitRollover(r, token) => CommitEvolves(g, r, token);
    case OAbortRollover(r, token) => AbortEvolves(g, r, token);
    case ORecordDelivery(r, token, d) => CompletionsEvolve(g, r, token, d);
    case OCompleteRollover(r, token) => CompletionsEvolve(g, r, token, Unsent);
    case OTakeover(r, t) => CreationsEvolve(g, r, t);
  }

  lemma {:induction false} RunEvolves(g: Registry, run: seq<Op>, i: nat, j: nat)
    requires WellNamed(g) && i <= j <= |run|
    ensures Evolves(At(g, run, i), At(g, run, j)) && WellNamed(At(g, run, j))
    decreases j
  {
    hide Do, Evolves;
    if j > 0 {
      RunEvolves(g, run, if i < j then i else j - 1, j - 1);
      StepEvolves(At(g, run, j - 1), run[j - 1]);
      if i < j {
        EvolvesTransitive(At(g, run, i), At(g, run, j - 1), At(g, run, j));
      } else {
        EvolvesReflexive(At(g, run, j));
      }
    } else {
      EvolvesReflexive(g);
    }
  }

  lemma EvolvesReflexive(g: Registry)
    ensures Evolves(g, g)
  {
  }

  // ---------------------------------------------------------------- what follows for runs

  predicate BoundTo(g: Registry, r: string, generation: nat, conversation: string) {
    && r in g.routes && g.routes[r].generation == generation && IsBound(g.routes[r])
    && g.routes[r].target.value.conversation == conversation
  }

  /** Over a run, one (route, generation) pair is bound to one conversation only. */
  lemma GenerationNamesOneConversation(run: seq<Op>, i: nat, j: nat, r: string, n: nat, a: string, b: string)
    requires i <= j <= |run| && BoundTo(At(EMPTY, run, i), r, n, a) && BoundTo(At(EMPTY, run, j), r, n, b)
    ensures a == b
  {
    hide At;
    RunEvolves(EMPTY, run, i, j);
    assert RouteEvolves(At(EMPTY, run, i).routes[r], At(EMPTY, run, j).routes[r]);
  }

  /** A generation that was unbound stays unbound. */
  lemma UnboundGenerationIsNeverRebound(run: seq<Op>, i: nat, j: nat, r: string)
    requires i <= j <= |run| && r in At(EMPTY, run, i).routes && !IsBound(At(EMPTY, run, i).routes[r])
    ensures r in At(EMPTY, run, j).routes
    ensures At(EMPTY, run, j).routes[r].generation >= At(EMPTY, run, i).routes[r].generation
    ensures At(EMPTY, run, j).routes[r].generation == At(EMPTY, run, i).routes[r].generation ==> !IsBound(At(EMPTY, run, j).routes[r])
  {
    hide At;
    RunEvolves(EMPTY, run, i, j);
    assert RouteEvolves(At(EMPTY, run, i).routes[r], At(EMPTY, run, j).routes[r]);
  }

  /** A channel name, too, belongs to one route, one generation and one conversation over a whole run. */
  lemma ChannelNamesOneConversation(run: seq<Op>, i: nat, j: nat, r: string, q: string)
    requires i <= j <= |run|
    requires r in At(EMPTY, run, i).routes && IsBound(At(EMPTY, run, i).routes[r])
    requires q in At(EMPTY, run, j).routes && IsBound(At(EMPTY, run, j).routes[q])
    requires At(EMPTY, run, i).routes[r].channel == At(EMPTY, run, j).routes[q].channel
    ensures r == q && At(EMPTY, run, i).routes[r].generation == At(EMPTY, run, j).routes[q].generation
    ensures At(EMPTY, run, i).routes[r].target.value.conversation == At(EMPTY, run, j).routes[q].target.value.conversation
  {
    hide At;
    RunEvolves(EMPTY, run, i, i);
    RunEvolves(EMPTY, run, i, j);
    var a, b := At(EMPTY, run, i).routes[r], At(EMPTY, run, j).routes[q];
    ChannelNameInjective(r, a.generation, q, b.generation);
    assert RouteEvolves(a, At(EMPTY, run, j).routes[r]);
  }

  /** Completing a bind or committing a rollover prepared at generation `n` moved the route on. */
  predicate AdvancesFrom(g: Registry, op: Op, r: string, n: nat) {
    && op.r == r && Do(g, op).1.RouteIs? && Do(g, op).1.changed
    && ((op.OCompleteBind? && r in g.binds && !g.binds[r].bootstrap && g.binds[r].sourceGeneration == n)
        || (op.OCommitRollover? && r in g.rollovers && g.rollovers[r].sourceGeneration == n))
  }

  lemma AdvanceLeavesGeneration(g: Registry, op: Op, r: string, n: nat)
    requires WellNamed(g) && AdvancesFrom(g, op, r, n)
    ensures r in g.routes && g.routes[r].generation == n
    ensures r in Do(g, op).0.routes && Do(g, op).0.routes[r].generation == n + 1
  {
  }

  /** Of all binds and rollovers prepared at one generation, at most one advances the route. */
  lemma OneAdvancePerGeneration(run: seq<Op>, i: nat, j: nat, r: string, n: nat)
    requires i < j < |run|
    requires AdvancesFrom(At(EMPTY, run, i), run[i], r, n)
    ensures !AdvancesFrom(At(EMPTY, run, j), run[j], r, n)
  {
    hide Do, AdvancesFrom, WellNamed;
    EmptyIsWellNamed();
    RunEvolves(EMPTY, run, i, i);
    RunEvolves(EMPTY, run, i + 1, j);
    AdvanceLeavesGeneration(At(EMPTY, run, i), run[i], r, n);
    AtNext(run, i);
    hide At;
    assert RouteEvolves(At(EMPTY, run, i + 1).routes[r], At(EMPTY, run, j).routes[r]);
    if AdvancesFrom(At(EMPTY, run, j), run[j], r, n) {
      AdvanceLeavesGeneration(At(EMPTY, run, j), run[j], r, n);
    }
  }

  lemma EmptyIsWellNamed()
    ensures WellNamed(EMPTY)
  {
  }

  lemma AtNext(run: seq<Op>, i: nat)
    requires i < |run|
    ensures At(EMPTY, run, i + 1) == Do(At(EMPTY, run, i), run[i]).0
  {
    hide Do;
  }
}
