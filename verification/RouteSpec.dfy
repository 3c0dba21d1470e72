/**
 The route registry (`app/coordinator/routes.py`) as functions of the registry file: every operation
 loads it, changes it and saves it in one step.
 */
module RouteSpec {
  import opened Prelude
  import opened ChannelNames

  const CURRENT_BIND_TTL := 600.0

  /** What a canonical chat URL parses to. */
  datatype Target = Target(url: string, project: Option<string>, conversation: string)

  /** A route record; an unbound one has no target. */
  datatype Route = Route(channel: string, generation: nat, target: Option<Target>)

  datatype Rollover = Rollover(
    token: string, candidate: Option<Target>, sourceGeneration: nat, targetGeneration: nat,
    sourceConversation: string, project: Option<string>, channel: string)

  datatype RolloverState = Aborted | Committed | Complete
  datatype BootstrapDelivery = Unsent | Sending | NotSubmitted | Uncertain | OwnerInputRequired

  datatype LastRollover = LastRollover(rollover: Rollover, state: RolloverState, bootstrapSent: bool, delivery: BootstrapDelivery)

  datatype Bind = Bind(
    token: string, candidate: Option<Target>, sourceGeneration: nat, channel: string, session: Option<string>,
    allowProjectChange: bool, createdAt: real, bootstrap: bool)

  datatype Registry = Registry(
    routes: map<string, Route>, rollovers: map<string, Rollover>, binds: map<string, Bind>,
    last: map<string, LastRollover>)

  const EMPTY: Registry := Registry(map[], map[], map[], map[])

  datatype Refusal = InvalidArgument | PolicyViolation

  datatype Answer =
    | Refused(why: Refusal)
    | RouteIs(route: Route, changed: bool)
    | BindIs(bind: Bind)
    | RolloverIs(rollover: Rollover)
    | Done(value: bool)

  // ---------------------------------------------------------------- projects

  /** `g-p-` and 32 hex digits, alone or before a dash: the part of a project id that survives renames. */
  predicate HasStableId(s: string) {
    && |s| >= 36
    && s[..4] == "g-p-"
    && (forall i | 4 <= i < 36 :: IsHex(s[i]))
    && (|s| == 36 || s[36] == '-')
  }

  function ProjectIdentity(project: Option<string>): Option<string> {
    if project.Some? && HasStableId(project.value) then Some(Lower(project.value[..36])) else project
  }

  /** The target is the one the route already has, or the same conversation without a project. */
  predicate SameTarget(current: Target, target: Target) {
    && current.conversation == target.conversation
    && (ProjectIdentity(current.project) == ProjectIdentity(target.project)
        || (current.project.Some? && target.project.None?))
  }

  predicate BindProjectAllowed(route: Route, target: Target, allowProjectChange: bool) {
    var project := if route.target.Some? then route.target.value.project else None;
    || allowProjectChange
    || ProjectIdentity(target.project) == ProjectIdentity(project)
    || (target.project.None? && project.Some? && route.target.value.conversation == target.conversation)
  }

  predicate RolloverProjectAllowed(pending: Option<string>, candidate: Option<string>) {
    || candidate == pending
    || (candidate.Some? && pending.Some?
        && |pending.value| + 1 <= |candidate.value|
        && candidate.value[..|pending.value| + 1] == pending.value + "-")
  }

  // ---------------------------------------------------------------- lookups

  predicate IsBound(route: Route) {
    route.target.Some?
  }

  datatype Lookup = Active(route: string) | Pending(route: string) | Unregistered

  /** `route_for_channel`: active routes first, then pending rollovers. */
  ghost function RouteFor(g: Registry, channel: string): Lookup {
    if exists r :: r in g.routes && g.routes[r].channel == channel then
      var r :| r in g.routes && g.routes[r].channel == channel; Active(r)
    else if exists r :: r in g.rollovers && g.rollovers[r].channel == channel then
      var r :| r in g.rollovers && g.rollovers[r].channel == channel; Pending(r)
    else Unregistered
  }

  datatype WakeRoute = Rejected | Plain | Routed(route: string)

  /** `wake_route_for_channel`: reserved names that are not an active route cannot be targeted. */
  ghost function WakeRouteFor(g: Registry, channel: string): WakeRoute {
    match RouteFor(g, channel)
    case Active(r) => Routed(r)
    case Pending(_) => Rejected
    case Unregistered => if RouteChannelShape(channel) then Rejected else Plain
  }

  /** `require_wakeable_route` succeeds. */
  predicate Wakeable(g: Registry, r: string, expectedGeneration: Option<nat>, expectedChannel: Option<string>) {
    && ValidRoute(r) && r in g.routes && IsBound(g.routes[r])
    && (expectedGeneration.Some? ==> expectedGeneration.value == g.routes[r].generation)
    && (expectedChannel.Some? ==> expectedChannel.value == g.routes[r].channel)
    && !(r in g.rollovers && g.rollovers[r].sourceGeneration == g.routes[r].generation)
  }

  // ---------------------------------------------------------------- creating a route

  /** `bootstrap`: an existing route is left as it is. */
  function Bootstrap(g: Registry, r: string, channel: string, target: Target): (Registry, Answer) {
    if !ValidRoute(r) then (g, Refused(InvalidArgument))
    else if r in g.routes then (g, RouteIs(g.routes[r], false))
    else
      var route := Route(channel, 0, Some(target));
      (g.(routes := g.routes[r := route]), RouteIs(route, true))
  }

  // ---------------------------------------------------------------- current-chat binds

  datatype Staleness = Fresh | Expired | GenerationChanged

  function BindStaleness(b: Bind, g: Registry, r: string, now: real): Staleness {
    if now - b.createdAt > CURRENT_BIND_TTL then Expired
    else if b.bootstrap then (if r in g.routes then GenerationChanged else Fresh)
    else if r !in g.routes || b.sourceGeneration != g.routes[r].generation then GenerationChanged
    else Fresh
  }

  function DropBind(g: Registry, r: string): Registry {
    g.(binds := g.binds - {r})
  }

  function NewBind(g: Registry, r: string, session: Option<string>, allowProjectChange: bool, now: real, token: string): Bind {
    if r in g.routes
    then Bind(token, None, g.routes[r].generation, g.routes[r].channel, session, allowProjectChange, now, false)
    else Bind(token, None, 0, ChannelName(r, 0), session, allowProjectChange, now, true)
  }

  function PrepareBind(g: Registry, r: string, session: Option<string>, allowProjectChange: bool, bootstrapIfMissing: bool,
                       now: real, token: string): (Registry, Answer)
  {
    if !ValidRoute(r) || (r !in g.routes && !bootstrapIfMissing) then (g, Refused(InvalidArgument))
    else if r in g.binds && BindStaleness(g.binds[r], g, r, now) == Fresh then
      if g.binds[r].session == session && g.binds[r].allowProjectChange == allowProjectChange
      then (g, BindIs(g.binds[r]))
      else (g, Refused(PolicyViolation))
    else
      var b := NewBind(g, r, session, allowProjectChange, now, token);
      (g.(binds := g.binds[r := b]), BindIs(b))
  }

  predicate HasBind(g: Registry, r: string, token: string) {
    r in g.binds && g.binds[r].token == token
  }

  function RecordBind(g: Registry, r: string, token: string, target: Target, now: real): (Registry, Answer) {
    if !ValidRoute(r) || !HasBind(g, r, token) || (!g.binds[r].bootstrap && r !in g.routes)
    then (g, Refused(InvalidArgument))
    else
      var b := g.binds[r];
      var stale := BindStaleness(b, g, r, now);
      if stale == Expired then (DropBind(g, r), Refused(InvalidArgument))
      else if stale == GenerationChanged && !b.bootstrap then (g, Refused(PolicyViolation))
      else if b.candidate.Some? then (g, Refused(PolicyViolation))
      else if !b.bootstrap && !BindProjectAllowed(g.routes[r], target, b.allowProjectChange) then (g, Refused(PolicyViolation))
      else
        var c := b.(candidate := Some(target));
        (g.(binds := g.binds[r := c]), BindIs(c))
  }

  /** A bootstrap bind creates generation 0, or finds the route created meanwhile. */
  function CompleteBootstrapBind(g: Registry, r: string, target: Target): (Registry, Answer) {
    if r in g.routes then
      var route := g.routes[r];
      if IsBound(route) && route.generation == 0 && SameTarget(route.target.value, target)
      then (DropBind(g, r), RouteIs(route, false))
      else (DropBind(g, r), Refused(PolicyViolation))
    else
      var route := Route(ChannelName(r, 0), 0, Some(target));
      (DropBind(g, r).(routes := g.routes[r := route]), RouteIs(route, true))
  }

  /** A bind of an existing route keeps it when the target is the same, else starts the next generation. */
  function CompleteRouteBind(g: Registry, r: string, target: Target): (Registry, Answer)
    requires r in g.routes
  {
    var route := g.routes[r];
    if IsBound(route) && SameTarget(route.target.value, target) then (DropBind(g, r), RouteIs(route, false))
    else
      var next := Route(ChannelName(r, route.generation + 1), route.generation + 1, Some(target));
      (DropBind(g, r).(routes := g.routes[r := next]), RouteIs(next, true))
  }

  /** `complete_current_bind`; `supplied` is the optional URL of the call. */
  function CompleteBind(g: Registry, r: string, token: string, supplied: Option<Target>, now: real): (Registry, Answer) {
    if !ValidRoute(r) || !HasBind(g, r, token) || (!g.binds[r].bootstrap && r !in g.routes)
    then (g, Refused(InvalidArgument))
    else
      var b := g.binds[r];
      var stale := BindStaleness(b, g, r, now);
      if stale == Expired then (DropBind(g, r), Refused(InvalidArgument))
      else if stale == GenerationChanged && !b.bootstrap then (g, Refused(PolicyViolation))
      else if supplied.None? && b.candidate.None? then (g, Refused(PolicyViolation))
      else
        var target := if supplied.Some? then supplied.value else b.candidate.value;
        if b.bootstrap then CompleteBootstrapBind(g, r, target)
        else if !BindProjectAllowed(g.routes[r], target, b.allowProjectChange) then (g, Refused(PolicyViolation))
        else CompleteRouteBind(g, r, target)
  }

  function DiscardBind(g: Registry, r: string, token: string): (Registry, Answer) {
    if !ValidRoute(r) then (g, Refused(InvalidArgument))
    else if !HasBind(g, r, token) then (g, Done(false))
    else (DropBind(g, r), Done(true))
  }

  /** `pending_current_bind` forgets a stale bind on the way. */
  function PendingBind(g: Registry, r: string, now: real): (Registry, Answer) {
    if !ValidRoute(r) then (g, Refused(InvalidArgument))
    else if r !in g.binds then (g, Done(false))
    else if BindStaleness(g.binds[r], g, r, now) != Fresh then (DropBind(g, r), Done(false))
    else (g, BindIs(g.binds[r]))
  }

  // ---------------------------------------------------------------- unbinding

  /** `unbind`: a pending rollover is aborted and its reserved generation skipped. */
  function Unbind(g: Registry, r: string, expectedGeneration: nat): (Registry, Answer) {
    if !ValidRoute(r) || r !in g.routes then (g, Refused(InvalidArgument))
    else if g.routes[r].generation != expectedGeneration then (g, Refused(PolicyViolation))
    else if r in g.rollovers then
      var pending := g.rollovers[r];
      var generation :=
        if pending.targetGeneration > expectedGeneration + 1 then pending.targetGeneration else expectedGeneration + 1;
      var route := Route(ChannelName(r, generation), generation, None);
      (Registry(g.routes[r := route], g.rollovers - {r}, g.binds - {r},
                g.last[r := LastRollover(pending, Aborted, false, Unsent)]),
       RouteIs(route, true))
    else
      var route := Route(g.routes[r].channel, expectedGeneration, None);
      (g.(routes := g.routes[r := route], binds := g.binds - {r}), RouteIs(route, true))
  }

  // ---------------------------------------------------------------- rollover

  function PrepareRollover(g: Registry, r: string, token: string): (Registry, Answer) {
    if !ValidRoute(r) || r !in g.routes then (g, Refused(InvalidArgument))
    else if !IsBound(g.routes[r]) then (g, Refused(PolicyViolation))
    else if r in g.rollovers then
      if g.rollovers[r].sourceGeneration == g.routes[r].generation then (g, RolloverIs(g.rollovers[r]))
      else (g, Refused(PolicyViolation))
    else
      var route := g.routes[r];
      var pending := Rollover(token, None, route.generation, route.generation + 1, route.target.value.conversation,
                              route.target.value.project, ChannelName(r, route.generation + 1));
      (g.(rollovers := g.rollovers[r := pending]), RolloverIs(pending))
  }

  predicate HasRollover(g: Registry, r: string, token: string) {
    r in g.rollovers && g.rollovers[r].token == token
  }

  function RecordRollover(g: Registry, r: string, token: string, target: Target): (Registry, Answer) {
    if !ValidRoute(r) || r !in g.routes || !HasRollover(g, r, token) then (g, Refused(InvalidArgument))
    else
      var pending := g.rollovers[r];
      if g.routes[r].generation != pending.sourceGeneration then (g, Refused(PolicyViolation))
      else if !RolloverProjectAllowed(pending.project, target.project) then (g, Refused(PolicyViolation))
      else if target.conversation == pending.sourceConversation then (g, Refused(InvalidArgument))
      else
        var recorded := pending.(candidate := Some(target));
        (g.(rollovers := g.rollovers[r := recorded]), RolloverIs(recorded))
  }

  function CommitRollover(g: Registry, r: string, token: string): (Registry, Answer) {
    if !ValidRoute(r) || r !in g.routes || !HasRollover(g, r, token) then (g, Refused(InvalidArgument))
    else
      var pending := g.rollovers[r];
      if pending.candidate.None? || g.routes[r].generation != pending.sourceGeneration then (g, Refused(PolicyViolation))
      else
        var candidate := pending.candidate.value;
        var route := Route(pending.channel, pending.targetGeneration, Some(candidate.(project := pending.project)));
        (Registry(g.routes[r := route], g.rollovers - {r}, g.binds,
                  g.last[r := LastRollover(pending, Committed, false, Unsent)]),
         RouteIs(route, true))
  }

  function AbortRollover(g: Registry, r: string, token: string): (Registry, Answer) {
    if !ValidRoute(r) then (g, Refused(InvalidArgument))
    else if !HasRollover(g, r, token) then (g, Done(false))
    else
      (Registry(g.routes, g.rollovers - {r}, g.binds,
                g.last[r := LastRollover(g.rollovers[r], Aborted, false, Unsent)]), Done(true))
  }

  /** `rollover_for_completion` succeeds: the last rollover is committed and still the active route. */
  predicate Completable(g: Registry, r: string, token: string) {
    && ValidRoute(r) && r in g.last && r in g.routes
    && var last := g.last[r];
    && last.rollover.token == token
    && !last.state.Aborted?
    && last.rollover.candidate.Some?
    && IsBound(g.routes[r])
    && g.routes[r].generation == last.rollover.targetGeneration
    && g.routes[r].channel == last.rollover.channel
    && g.routes[r].target.value.url == last.rollover.candidate.value.url
    && g.routes[r].target.value.conversation == last.rollover.candidate.value.conversation
  }

  function RecordDelivery(g: Registry, r: string, token: string, state: BootstrapDelivery): (Registry, Answer) {
    if !Completable(g, r, token) then (g, Refused(InvalidArgument))
    else (g.(last := g.last[r := g.last[r].(delivery := state)]), Done(true))
  }

  function CompleteRollover(g: Registry, r: string, token: string): (Registry, Answer) {
    if !Completable(g, r, token) then (g, Refused(InvalidArgument))
    else (g.(last := g.last[r := g.last[r].(state := Complete, bootstrapSent := true)]), Done(true))
  }

  // ---------------------------------------------------------------- takeover

  function Takeover(g: Registry, r: string, target: Target): (Registry, Answer) {
    if !ValidRoute(r) then (g, Refused(InvalidArgument))
    else if r in g.rollovers then (g, Refused(PolicyViolation))
    else if r in g.routes && IsBound(g.routes[r])
         && ProjectIdentity(target.project) != ProjectIdentity(g.routes[r].target.value.project)
    then (g, Refused(PolicyViolation))
    else
      var generation := (if r in g.routes then g.routes[r].generation else 0) + 1;
      var route := Route(ChannelName(r, generation), generation, Some(target));
      (g.(routes := g.routes[r := route]), RouteIs(route, true))
  }
}
