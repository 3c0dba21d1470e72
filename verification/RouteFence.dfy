/**
 The route fence across both components: registry, coordinator and the per-route locks, interleaved
 step by step with crashes. Wakes are armed only through the guarded paths; then an unbound route's
 channel never holds a pending wake.
 */
module RouteFence {
  import opened Prelude
  import opened ChannelNames
  import opened Wakes
  import opened CoordinatorSpec
  import opened CoordinatorRuns
  import opened CoordinatorSafety
  import opened RouteSpec
  import opened RouteSafety

  /** What the task that holds a route lock is about to do, with the record it read when it got the lock. */
  datatype Holder =
    | Arming(generation: nat, channel: string)
    | Unbinding(generation: nat, channel: string, idle: bool)

  /** `approved`: channels that `wake_route_for_channel` let through without a route, not armed yet. */
  datatype Fence = Fence(registry: Registry, world: World, locks: map<string, Holder>, approved: set<string>)

  datatype Move =
    /** Any registry operation other than `unbind`, under a lock or not. */
    | Change(op: Op)
    /** Any coordinator operation other than `arm`: polls, claims, cancels, outcomes. */
    | Coordinate(m: Moment)
    | Approve(channel: string)
    | ArmPlain(m: Moment)
    /** Take the route lock and pass `require_wakeable_route`. */
    | BeginArm(r: string, expectedGeneration: Option<nat>, expectedChannel: Option<string>)
    | ArmRouted(r: string, m: Moment)
    /** Take the route lock and read the record to unbind. */
    | BeginUnbind(r: string, expectedGeneration: Option<nat>)
    | CheckIdle(r: string, m: Moment)
    | CommitUnbind(r: string)
    /** An error path leaves the lock without doing anything more. */
    | GiveUp(r: string)
    | Crash(m: Moment)

  ghost predicate Allowed(f: Fence, v: Move) {
    match v
    case Change(op) => !op.OUnbind?
    case Coordinate(m) => Enabled(f.world, m) && !m.event.EArm?
    case Approve(c) => WakeRouteFor(f.registry, c).Plain?
    case ArmPlain(m) => Enabled(f.world, m) && m.event.EArm? && m.event.request.channel in f.approved
    case BeginArm(r, n, c) => r !in f.locks && Wakeable(f.registry, r, n, c)
    case ArmRouted(r, m) =>
      && Enabled(f.world, m) && m.event.EArm?
      && r in f.locks && f.locks[r].Arming? && m.event.request.channel == f.locks[r].channel
    case BeginUnbind(r, n) =>
      && r !in f.locks && ValidRoute(r) && r in f.registry.routes
      && (n.Some? ==> n.value == f.registry.routes[r].generation)
    case CheckIdle(r, m) =>
      && Enabled(f.world, m) && r in f.locks && f.locks[r].Unbinding? && !f.locks[r].idle
      && m.event.EStatus? && m.event.channel == f.locks[r].channel && m.event.lease == None && m.event.mode == X
    case CommitUnbind(r) => r in f.locks && f.locks[r].Unbinding? && f.locks[r].idle
    case GiveUp(r) => r in f.locks
    case Crash(m) => Enabled(f.world, m) && m.event.ERestart?
  }

  ghost function Play(f: Fence, v: Move): Fence
    requires Allowed(f, v)
  {
    match v
    case Change(op) => f.(registry := Do(f.registry, op).0)
    case Coordinate(m) => f.(world := Step(f.world, m))
    case Approve(c) => f.(approved := f.approved + {c})
    case ArmPlain(m) => f.(world := Step(f.world, m))
    case BeginArm(r, _, _) =>
      f.(locks := f.locks[r := Arming(f.registry.routes[r].generation, f.registry.routes[r].channel)])
    case ArmRouted(r, m) => f.(world := Step(f.world, m), locks := f.locks - {r})
    case BeginUnbind(r, _) =>
      f.(locks := f.locks[r := Unbinding(f.registry.routes[r].generation, f.registry.routes[r].channel, false)])
    case CheckIdle(r, m) =>
      // anything but an idle channel refuses the unbind and gives the lock back
      if React(f.world.s, m).1 == StatusOf(Idle, false)
      then f.(world := Step(f.world, m), locks := f.locks[r := f.locks[r].(idle := true)])
      else f.(world := Step(f.world, m), locks := f.locks - {r})
    case CommitUnbind(r) =>
      f.(registry := Unbind(f.registry, r, f.locks[r].generation).0, locks := f.locks - {r})
    case GiveUp(r) => f.(locks := f.locks - {r})
    case Crash(m) => f.(world := Step(f.world, m), locks := map[], approved := {})
  }

  // ---------------------------------------------------------------- the invariant

  ghost predicate Registered(g: Registry) {
    WellNamed(g) && forall r | r in g.routes :: ValidRoute(r)
  }

  /** A derived channel with a wake belongs to a generation its route has reached. */
  ghost predicate WakesAreReached(g: Registry, wakes: set<string>) {
    forall r, n: nat | ChannelName(r, n) in wakes && ValidRoute(r) :: r in g.routes && n <= g.routes[r].generation
  }

  ghost predicate UnboundIsQuiet(g: Registry, wakes: set<string>) {
    forall r | r in g.routes && !IsBound(g.routes[r]) :: g.routes[r].channel !in wakes
  }

  ghost predicate HolderOk(g: Registry, wakes: set<string>, r: string, h: Holder) {
    && r in g.routes
    && h.channel == ChannelName(r, h.generation)
    && h.generation <= g.routes[r].generation
    && (h.Arming? && h.generation == g.routes[r].generation ==> IsBound(g.routes[r]))
    && (h.Unbinding? && h.idle ==> h.channel !in wakes)
  }

  ghost predicate Guarded(g: Registry, wakes: set<string>, locks: map<string, Holder>, approved: set<string>) {
    && Registered(g)
    && WakesAreReached(g, wakes)
    && UnboundIsQuiet(g, wakes)
    && (forall r | r in locks :: HolderOk(g, wakes, r, locks[r]))
    && (forall c | c in approved :: !RouteChannelShape(c))
  }

  ghost predicate Fenced(f: Fence) {
    Good(f.world) && Guarded(f.registry, f.world.s.pending.Keys, f.locks, f.approved)
  }

  // ---------------------------------------------------------------- only arm adds a channel

  lemma PromoteKeys(s: State, channel: string, w: Wake, now: real, token: string)
    requires channel in s.pending
    ensures Promote(s, channel, w, now, token).pending.Keys <= s.pending.Keys
  {
    hide Promoted;
  }

  lemma StatusKeys(w: World, m: Moment)
    requires Good(w) && Enabled(w, m) && m.event.EStatus?
    ensures React(w.s, m).0.pending.Keys <= w.s.pending.Keys
  {
    hide Good, Promote, Read, Describe;
    var e := m.event;
    var t := TouchX(w.s, e.channel, e.lease, e.mode, m.now);
    if e.channel in t.pending {
      PromoteKeys(t, e.channel, t.pending[e.channel], m.now, m.token);
    }
  }

  lemma ClaimKeys(w: World, m: Moment)
    requires Good(w) && Enabled(w, m) && m.event.EClaim?
    ensures React(w.s, m).0.pending.Keys <= w.s.pending.Keys
  {
    hide Good, OtherClaimActive, ListenerBlocksDirect, LeaseMatches, RetriesCover;
  }

  lemma OutcomeKeys(w: World, m: Moment)
    requires Good(w) && Enabled(w, m) && (m.event.EFinalize? || m.event.EAck?)
    ensures React(w.s, m).0.pending.Keys <= w.s.pending.Keys
  {
    hide Good, Promote;
    var e := m.event;
    if m.event.EFinalize? && HoldsClaim(w.s, e.channel, e.claimId) {
      var f := FinalizedWake(w.s.pending[e.channel], e.name, e.outcome, e.detail, m.now);
      PromoteKeys(Cool(w.s.(pending := w.s.pending[e.channel := f]), e.channel, m.now), e.channel, f, m.now, m.token);
    } else if m.event.EAck? && HoldsClaim(w.s, e.channel, e.claimId) {
      PromoteKeys(Cool(Touch(w.s, e.channel, e.lease, m.now), e.channel, m.now), e.channel, w.s.pending[e.channel], m.now, m.token);
    }
  }

  lemma EditKeys(w: World, m: Moment)
    requires Good(w) && Enabled(w, m)
    requires m.event.EModelAck? || m.event.EObserve? || m.event.EMarkEscalation? || m.event.EResolve? || m.event.ECancel?
             || m.event.EInstall?
    ensures React(w.s, m).0.pending.Keys <= w.s.pending.Keys
  {
    hide Good;
  }

  lemma AuthKeys(w: World, m: Moment)
    requires Good(w) && Enabled(w, m)
    requires m.event.EMarkPreclaim? || m.event.EClearPreclaim? || m.event.EAuthorize?
    ensures React(w.s, m).0.pending.Keys <= w.s.pending.Keys
  {
    hide Good, BlockedWake, ReleasedWake, Releasable;
  }

  lemma OnlyArmAddsWakes(w: World, m: Moment)
    requires Good(w) && Enabled(w, m) && !m.event.EArm?
    ensures Good(Step(w, m)) && Step(w, m).s.pending.Keys <= w.s.pending.Keys
  {
    hide Good;
    StepKeepsGood(w, m);
    Effects(w, m);
    hide React;
    match m.event
    case EStatus(_, _, _, _) => StatusKeys(w, m);
    case EClaim(_, _, _, _) => ClaimKeys(w, m);
    case EFinalize(_, _, _, _, _) => OutcomeKeys(w, m);
    case EAck(_, _, _) => OutcomeKeys(w, m);
    case EMarkPreclaim(_, _, _, _) => AuthKeys(w, m);
    case EClearPreclaim(_, _, _) => AuthKeys(w, m);
    case EAuthorize(_, _) => AuthKeys(w, m);
    case ERestart => RestartKeys(w, m);
    case _ => EditKeys(w, m);
  }

  lemma Effects(w: World, m: Moment)
    ensures Step(w, m).s == React(w.s, m).0
  {
    hide React;
  }

  lemma RestartKeys(w: World, m: Moment)
    requires Good(w) && Enabled(w, m) && m.event.ERestart?
    ensures React(w.s, m).0.pending.Keys <= w.s.pending.Keys
  {
    hide Good, Load;
    RestartLosesNoWake(w, m.now);
  }

  lemma ArmAddsItsChannel(w: World, m: Moment)
    requires Good(w) && Enabled(w, m) && m.event.EArm?
    ensures Good(Step(w, m)) && Step(w, m).s.pending.Keys <= w.s.pending.Keys + {m.event.request.channel}
  {
    hide Good, ArmedWake, Coalesced, Duplicate, BatchFull, ValidArm;
    StepKeepsGood(w, m);
  }

  // ---------------------------------------------------------------- only unbind unbinds

  /** Every record stays, or moves to a later generation bound; new records are bound. */
  ghost predicate Binds(g: Registry, h: Registry) {
    && (forall r | r in g.routes ::
          r in h.routes
          && (h.routes[r] == g.routes[r] || (g.routes[r].generation < h.routes[r].generation && IsBound(h.routes[r]))))
    && (forall r | r in h.routes && r !in g.routes :: ValidRoute(r) && IsBound(h.routes[r]))
  }

  lemma QuietOpsBind(g: Registry, op: Op)
    requires op.OPrepareBind? || op.ORecordBind? || op.ODiscardBind? || op.OPendingBind? || op.OPrepareRollover?
             || op.ORecordRollover? || op.OAbortRollover? || op.ORecordDelivery? || op.OCompleteRollover?
    ensures Do(g, op).0.routes == g.routes
  {
    hide BindStaleness, BindProjectAllowed, RolloverProjectAllowed, ValidRoute, NewBind, Completable;
  }

  lemma CompletedBinds(g: Registry, r: string, token: string, supplied: Option<Target>, now: real)
    ensures Binds(g, CompleteBind(g, r, token, supplied, now).0)
  {
    hide SameTarget, BindProjectAllowed, BindStaleness, ChannelName;
  }

  lemma BootstrapBinds(g: Registry, r: string, t: Target)
    ensures Binds(g, Bootstrap(g, r, ChannelName(r, 0), t).0)
  {
    hide ChannelName;
  }

  lemma TakeoverBinds(g: Registry, r: string, t: Target)
    ensures Binds(g, Takeover(g, r, t).0)
  {
    hide ChannelName, ProjectIdentity;
  }

  lemma CommittedBinds(g: Registry, r: string, token: string)
    requires WellNamed(g)
    ensures Binds(g, CommitRollover(g, r, token).0)
  {
    hide ChannelName, ValidRoute;
  }

  lemma OnlyUnbindUnbinds(g: Registry, op: Op)
    requires WellNamed(g) && !op.OUnbind?
    ensures Binds(g, Do(g, op).0)
  {
    hide WellNamed, Bootstrap, PrepareBind, RecordBind, CompleteBind, DiscardBind, PendingBind, Unbind, PrepareRollover,
         RecordRollover, CommitRollover, AbortRollover, RecordDelivery, CompleteRollover, Takeover;
    match op
    case OCompleteBind(r, token, supplied, now) => CompletedBinds(g, r, token, supplied, now);
    case OBootstrap(r, t) => BootstrapBinds(g, r, t);
    case OTakeover(r, t) => TakeoverBinds(g, r, t);
    case OCommitRollover(r, token) => CommittedBinds(g, r, token);
    case _ => QuietOpsBind(g, op);
  }

  // ---------------------------------------------------------------- one lemma per kind of move

  lemma ChangeKeeps(g: Registry, wakes: set<string>, locks: map<string, Holder>, approved: set<string>, op: Op)
    requires Guarded(g, wakes, locks, approved) && !op.OUnbind?
    ensures Guarded(Do(g, op).0, wakes, locks, approved)
  {
    hide Do, ChannelName, ValidRoute, RouteChannelShape;
    var h := Do(g, op).0;
    StepEvolves(g, op);
    OnlyUnbindUnbinds(g, op);
    forall r | r in locks ensures HolderOk(h, wakes, r, locks[r]) {
      assert HolderOk(g, wakes, r, locks[r]);
    }
    forall r | r in h.routes && !IsBound(h.routes[r]) ensures h.routes[r].channel !in wakes {
      assert r in g.routes && h.routes[r] == g.routes[r];
    }
  }

  /** Fewer wakes and fewer locks break nothing. */
  lemma FewerKeeps(g: Registry, wakes: set<string>, locks: map<string, Holder>, approved: set<string>,
                   fewer: set<string>, left: map<string, Holder>)
    requires Guarded(g, wakes, locks, approved) && fewer <= wakes
    requires forall r | r in left :: r in locks && left[r] == locks[r]
    ensures Guarded(g, fewer, left, approved)
  {
    hide ChannelName, ValidRoute, RouteChannelShape, WellNamed;
    forall r | r in left ensures HolderOk(g, fewer, r, left[r]) {
      assert HolderOk(g, wakes, r, locks[r]);
    }
  }

  /** A new holder, read off the current record. */
  lemma HolderKeeps(g: Registry, wakes: set<string>, locks: map<string, Holder>, approved: set<string>, r: string, h: Holder)
    requires Guarded(g, wakes, locks, approved) && HolderOk(g, wakes, r, h)
    ensures Guarded(g, wakes, locks[r := h], approved)
  {
    hide ChannelName, ValidRoute, RouteChannelShape, WellNamed, HolderOk;
  }

  lemma ApproveKeeps(g: Registry, wakes: set<string>, locks: map<string, Holder>, approved: set<string>, channel: string)
    requires Guarded(g, wakes, locks, approved) && WakeRouteFor(g, channel).Plain?
    ensures Guarded(g, wakes, locks, approved + {channel})
  {
    hide ChannelName, ValidRoute, RouteChannelShape, WellNamed, HolderOk, RouteFor;
  }

  /** Arming a channel that has not the shape of a derived name. */
  lemma ArmPlainKeeps(g: Registry, wakes: set<string>, locks: map<string, Holder>, approved: set<string>, channel: string, more: set<string>)
    requires Guarded(g, wakes, locks, approved) && channel in approved && more <= wakes + {channel}
    ensures Guarded(g, more, locks, approved)
  {
    hide ChannelName, ValidRoute, RouteChannelShape;
    forall r, n: nat | ValidRoute(r) && ChannelName(r, n) in more ensures r in g.routes && n <= g.routes[r].generation {
      DerivedNamesAreReserved(r, n);
    }
    forall r | r in g.routes ensures g.routes[r].channel != channel {
      DerivedNamesAreReserved(r, g.routes[r].generation);
    }
    forall r | r in locks ensures HolderOk(g, more, r, locks[r]) {
      assert HolderOk(g, wakes, r, locks[r]);
      DerivedNamesAreReserved(r, locks[r].generation);
    }
  }

  /** Arming under the route lock: the generation read is bound or past, and nobody else holds the lock. */
  lemma ArmRoutedKeeps(g: Registry, wakes: set<string>, locks: map<string, Holder>, approved: set<string>, r: string, more: set<string>)
    requires Guarded(g, wakes, locks, approved) && r in locks && locks[r].Arming? && more <= wakes + {locks[r].channel}
    ensures Guarded(g, more, locks - {r}, approved)
  {
    hide ChannelName, ValidRoute, RouteChannelShape;
    var h := locks[r];
    assert HolderOk(g, wakes, r, h);
    forall q, n: nat | ValidRoute(q) && ChannelName(q, n) in more ensures q in g.routes && n <= g.routes[q].generation {
      if ChannelName(q, n) == h.channel {
        ChannelNameInjective(q, n, r, h.generation);
      }
    }
    forall q | q in g.routes && !IsBound(g.routes[q]) ensures g.routes[q].channel !in more {
      if g.routes[q].channel == h.channel {
        ChannelNameInjective(q, g.routes[q].generation, r, h.generation);
      }
    }
    forall q | q in locks && q != r ensures HolderOk(g, more, q, locks[q]) {
      assert HolderOk(g, wakes, q, locks[q]);
      if locks[q].channel == h.channel {
        ChannelNameInjective(q, locks[q].generation, r, h.generation);
      }
    }
  }

  lemma UnbindRecord(g: Registry, r: string, n: nat)
    requires WellNamed(g)
    ensures var h := Unbind(g, r, n).0;
            h == g || (r in g.routes && g.routes[r].generation == n && r in h.routes && h.routes == g.routes[r := h.routes[r]]
                       && (h.routes[r].generation > n || h.routes[r].channel == g.routes[r].channel))
  {
    hide ChannelName, ValidRoute;
  }

  lemma CommitKeeps(g: Registry, wakes: set<string>, locks: map<string, Holder>, approved: set<string>, r: string)
    requires Guarded(g, wakes, locks, approved) && r in locks && locks[r].Unbinding? && locks[r].idle
    ensures Guarded(Unbind(g, r, locks[r].generation).0, wakes, locks - {r}, approved)
  {
    hide ChannelName, ValidRoute, RouteChannelShape, Unbind;
    var n := locks[r].generation;
    var h := Unbind(g, r, n).0;
    UnbindEvolves(g, r, n);
    UnbindRecord(g, r, n);
    assert HolderOk(g, wakes, r, locks[r]);
    forall q | q in locks && q != r ensures HolderOk(h, wakes, q, locks[q]) {
      assert HolderOk(g, wakes, q, locks[q]);
    }
    forall q | q in h.routes && !IsBound(h.routes[q]) ensures h.routes[q].channel !in wakes {
      if h != g && q == r && h.routes[r].generation > n {
        assert h.routes[r].channel == ChannelName(r, h.routes[r].generation);
      }
    }
  }

  lemma IdleAnswer(s: State, m: Moment)
    requires m.event.EStatus? && React(s, m).1 == StatusOf(Idle, false)
    ensures m.event.channel !in React(s, m).0.pending
  {
    hide Status;
    IdleOrHeld(s, m.event.channel, m.event.lease, m.event.mode, m.now, m.event.backoff, m.token);
  }

  lemma IdleOrHeld(s: State, channel: string, lease: Option<string>, mode: Mode, now: real, backoff: real, token: string)
    requires Status(s, channel, lease, mode, now, backoff, token).1 == StatusOf(Idle, false)
    ensures channel !in Status(s, channel, lease, mode, now, backoff, token).0.pending
  {
    hide Read, StatusState, Ready;
  }

  lemma CheckKeeps(f: Fence, r: string, m: Moment)
    requires Fenced(f) && Allowed(f, CheckIdle(r, m))
    ensures Fenced(Play(f, CheckIdle(r, m)))
  {
    hide Good, Guarded, React, HolderOk, Enabled;
    var v := Step(f.world, m);
    OnlyArmAddsWakes(f.world, m);
    Effects(f.world, m);
    if React(f.world.s, m).1 == StatusOf(Idle, false) {
      IdleAnswer(f.world.s, m);
      FewerKeeps(f.registry, f.world.s.pending.Keys, f.locks, f.approved, v.s.pending.Keys, f.locks);
      var h := f.locks[r].(idle := true);
      IdleHolder(f.registry, v.s.pending.Keys, f.locks, f.approved, r);
      HolderKeeps(f.registry, v.s.pending.Keys, f.locks, f.approved, r, h);
    } else {
      FewerKeeps(f.registry, f.world.s.pending.Keys, f.locks, f.approved, v.s.pending.Keys, f.locks - {r});
    }
  }

  lemma IdleHolder(g: Registry, wakes: set<string>, locks: map<string, Holder>, approved: set<string>, r: string)
    requires Guarded(g, wakes, locks, approved) && r in locks && locks[r].Unbinding? && locks[r].channel !in wakes
    ensures HolderOk(g, wakes, r, locks[r].(idle := true))
  {
    hide ChannelName;
    assert HolderOk(g, wakes, r, locks[r]);
  }

  lemma BeginKeeps(f: Fence, v: Move)
    requires Fenced(f) && Allowed(f, v) && (v.BeginArm? || v.BeginUnbind?)
    ensures Fenced(Play(f, v))
  {
    hide Good, ChannelName, ValidRoute;
    var route := f.registry.routes[v.r];
    assert route.channel == ChannelName(v.r, route.generation);
    var h := if v.BeginArm? then Arming(route.generation, route.channel) else Unbinding(route.generation, route.channel, false);
    HolderKeeps(f.registry, f.world.s.pending.Keys, f.locks, f.approved, v.r, h);
  }

  lemma CrashKeeps(g: Registry, wakes: set<string>, locks: map<string, Holder>, approved: set<string>, fewer: set<string>)
    requires Guarded(g, wakes, locks, approved) && fewer <= wakes
    ensures Guarded(g, fewer, map[], {})
  {
    hide ChannelName, ValidRoute, RouteChannelShape, WellNamed;
  }

  lemma PlayKeepsFenced(f: Fence, v: Move)
    requires Fenced(f) && Allowed(f, v)
    ensures Fenced(Play(f, v))
  {
    hide Good, Guarded, Step, React, Do, Unbind, Enabled, WakeRouteFor, Wakeable;
    var wakes := f.world.s.pending.Keys;
    match v
    case Change(op) => ChangeKeeps(f.registry, wakes, f.locks, f.approved, op);
    case Coordinate(m) =>
      OnlyArmAddsWakes(f.world, m);
      FewerKeeps(f.registry, wakes, f.locks, f.approved, Step(f.world, m).s.pending.Keys, f.locks);
    case Approve(c) => ApproveKeeps(f.registry, wakes, f.locks, f.approved, c);
    case ArmPlain(m) =>
      ArmAddsItsChannel(f.world, m);
      ArmPlainKeeps(f.registry, wakes, f.locks, f.approved, m.event.request.channel, Step(f.world, m).s.pending.Keys);
    case BeginArm(_, _, _) => BeginKeeps(f, v);
    case ArmRouted(r, m) =>
      ArmAddsItsChannel(f.world, m);
      ArmRoutedKeeps(f.registry, wakes, f.locks, f.approved, r, Step(f.world, m).s.pending.Keys);
    case BeginUnbind(_, _) => BeginKeeps(f, v);
    case CheckIdle(r, m) => CheckKeeps(f, r, m);
    case CommitUnbind(r) => CommitKeeps(f.registry, wakes, f.locks, f.approved, r);
    case GiveUp(r) => FewerKeeps(f.registry, wakes, f.locks, f.approved, wakes, f.locks - {r});
    case Crash(m) =>
      OnlyArmAddsWakes(f.world, m);
      CrashKeeps(f.registry, wakes, f.locks, f.approved, Step(f.world, m).s.pending.Keys);
  }

  // ---------------------------------------------------------------- whole runs

  ghost predicate Playable(f: Fence, run: seq<Move>)
    decreases |run|
  {
    |run| == 0 || (Allowed(f, run[0]) && Playable(Play(f, run[0]), run[1..]))
  }

  ghost function PlayAll(f: Fence, run: seq<Move>): Fence
    requires Playable(f, run)
    decreases |run|
  {
    if |run| == 0 then f else PlayAll(Play(f, run[0]), run[1..])
  }

  lemma {:induction false} RunKeepsFenced(f: Fence, run: seq<Move>)
    requires Fenced(f) && Playable(f, run)
    ensures Fenced(PlayAll(f, run))
    decreases |run|
  {
    hide Fenced, Allowed, Play;
    if |run| > 0 {
      PlayKeepsFenced(f, run[0]);
      RunKeepsFenced(Play(f, run[0]), run[1..]);
    }
  }

  function Opening(now: real, preflightRequired: bool): Fence {
    Fence(EMPTY, Start(now, preflightRequired), map[], {})
  }

  /** In any interleaving of arming, unbinding, binding, rollover, takeover and crashes, an unbound route's channel holds no wake. */
  lemma UnboundRoutesHoldNoWake(now: real, preflightRequired: bool, run: seq<Move>, r: string)
    requires 0.0 <= now && Playable(Opening(now, preflightRequired), run)
    requires var f := PlayAll(Opening(now, preflightRequired), run); r in f.registry.routes && !IsBound(f.registry.routes[r])
    ensures var f := PlayAll(Opening(now, preflightRequired), run); f.registry.routes[r].channel !in f.world.s.pending
  {
    hide Good, Allowed, Play, PlayAll, Playable;
    StartIsGood(now, preflightRequired);
    RunKeepsFenced(Opening(now, preflightRequired), run);
  }

  /** Nor does any generation a route has not reached: a wake never waits for a conversation to come. */
  lemma WakesBelongToReachedGenerations(now: real, preflightRequired: bool, run: seq<Move>, r: string, n: nat)
    requires 0.0 <= now && Playable(Opening(now, preflightRequired), run) && ValidRoute(r)
    requires ChannelName(r, n) in PlayAll(Opening(now, preflightRequired), run).world.s.pending
    ensures var g := PlayAll(Opening(now, preflightRequired), run).registry;
            r in g.routes && n <= g.routes[r].generation && (n == g.routes[r].generation ==> IsBound(g.routes[r]))
  {
    hide Good, Allowed, Play, PlayAll, Playable, ChannelName, ValidRoute;
    StartIsGood(now, preflightRequired);
    RunKeepsFenced(Opening(now, preflightRequired), run);
  }
}
