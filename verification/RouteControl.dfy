/**
 `app/coordinator/route_control.py`: cancelling wakes and unbinding a route, each under its lock, over the
 coordinator, the registry and the job service's durable waiters themselves.
 */
module RouteControl {
  import opened Prelude
  import opened ChannelNames
  import opened Wakes
  import opened CoordinatorSpec
  import opened Coordinator
  import opened RouteSpec
  import opened RouteSafety
  import opened Routes
  import opened RouteFence

  /** Nothing on the channel but, at most, a finished wake with an empty queue, and nobody holds its X endpoint. */
  predicate Quiet(s: State, channel: string, now: real) {
    && ValidChannel(channel) && channel !in s.leases
    && (channel in s.pending ==>
          s.pending[channel].modelAcknowledged && !LeaseActive(s.pending[channel], now) && s.pending[channel].queued == [])
  }

  /** A wake `cancel_pending` takes away. */
  predicate Cancellable(w: Wake) {
    w.claimId.None? && !w.delivered && !DeliveryBlocked(w)
  }

  predicate CanDrop(s: State, channel: string) {
    ValidChannel(channel) && (channel in s.pending ==> Cancellable(s.pending[channel]))
  }

  /** The poll of `unbind`, made without a lease id, answers idle exactly for a quiet channel. */
  lemma IdleIsQuiet(s: State, channel: string, now: real, backoff: real, token: string)
    ensures var (t, r) := Status(s, channel, None, X, now, backoff, token);
            && (r == StatusOf(Idle, false) <==> Quiet(s, channel, now))
            && (r == StatusOf(Idle, false) ==> t.pending == s.pending - {channel})
  {
    hide Read, Describe, Ready, Promoted, LeaseActive, ValidChannel, LiveCooldowns, LiveGlobal;
    AWakeIsNotIdle(now);
    assert channel !in s.pending ==> s.pending - {channel} == s.pending;
  }

  lemma AWakeIsNotIdle(now: real)
    ensures forall w, reading :: !Describe(w, reading, now).Idle?
  {
  }

  lemma CancelledIsGone(s: State, channel: string, now: real)
    ensures var (t, r) := Cancel(s, channel, now);
            && (r.Failed? <==> !CanDrop(s, channel))
            && (!r.Failed? ==> t.pending == s.pending - {channel} && t.leases == s.leases)
  {
    hide ValidChannel, LiveCooldowns, LiveGlobal;
    assert channel !in s.pending ==> s.pending - {channel} == s.pending;
  }

  /** The record of the route after `unbind` at its own generation. */
  lemma UnbindAtOwnGeneration(g: Registry, r: string, wakes: set<string>)
    requires Registered(g) && r in g.routes && WakesAreReached(g, wakes) && g.routes[r].channel !in wakes
    ensures var (h, a) := Unbind(g, r, g.routes[r].generation);
            && a.RouteIs? && r in h.routes && h.routes[r] == a.route && !IsBound(a.route) && a.route.channel !in wakes
            && h.routes == g.routes[r := a.route]
  {
    hide ChannelName, ValidRoute;
  }

  /** A persisted callback that will arm a wake for this generation of the route once its jobs end. */
  datatype Waiter = Waiter(id: string, r: string, generation: nat)

  function Matching(waiters: set<Waiter>, r: string, n: nat): set<Waiter> {
    set w | w in waiters && w.r == r && w.generation == n
  }

  /** The durable waiters of the job service, as far as they belong to the coordinator's handler. */
  class DurableWaiters {
    var stored: set<Waiter>
    /** Those whose callback is running. */
    var firing: set<Waiter>

    constructor ()
      ensures stored == {} && firing == {}
    {
      stored, firing := {}, {};
    }

    /** `cancel_durable_waiters` refuses while one of them is firing. */
    method Cancel(r: string, n: nat) returns (ok: bool)
      modifies this`stored
      ensures ok <==> Matching(firing, r, n) == {}
      ensures stored == if ok then old(stored) - Matching(old(stored), r, n) else old(stored)
    {
      if Matching(firing, r, n) != {} { return false; }
      stored := stored - Matching(stored, r, n);
      ok := true;
    }
  }

  class RouteControlService {
    const routes: RouteRegistry
    const coordinator: CoordinatorService
    const waiters: DurableWaiters

    constructor (routes: RouteRegistry, coordinator: CoordinatorService, waiters: DurableWaiters)
      ensures this.routes == routes && this.coordinator == coordinator && this.waiters == waiters
    {
      this.routes, this.coordinator, this.waiters := routes, coordinator, waiters;
    }

    predicate Known(r: string, expectedGeneration: Option<nat>)
      reads this, routes
    {
      && ValidRoute(r) && r in routes.file.routes
      && (expectedGeneration.Some? ==> expectedGeneration.value == routes.file.routes[r].generation)
    }

    ghost function Wakes(): set<string>
      reads coordinator, coordinator.pending.Values
    {
      coordinator.View().pending.Keys
    }

    /** The route is known, and nothing on its channel stops `cancel_pending`. */
    ghost predicate CanCancel(r: string, expectedGeneration: Option<nat>)
      reads this, routes, coordinator, coordinator.pending.Values
    {
      && Known(r, expectedGeneration)
      && CanDrop(coordinator.View(), routes.file.routes[r].channel)
    }

    ghost predicate NoneFiring(r: string)
      requires r in routes.file.routes
      reads this, routes, waiters
    {
      Matching(waiters.firing, r, routes.file.routes[r].generation) == {}
    }

    /** `cancel_wakes`: a waiter that is firing makes it fail after the wake is gone. */
    method CancelWakes(r: string, now: real) returns (ok: bool)
      requires coordinator.Valid()
      modifies coordinator, waiters`stored
      ensures coordinator.Valid()
      ensures ok <==> old(CanCancel(r, None) && NoneFiring(r))
      ensures coordinator.View().pending
           == if old(CanCancel(r, None)) then old(coordinator.View()).pending - {routes.file.routes[r].channel}
              else old(coordinator.View()).pending
      ensures waiters.stored
           == if ok then old(waiters.stored) - Matching(old(waiters.stored), r, routes.file.routes[r].generation) else old(waiters.stored)
      ensures !old(CanCancel(r, None)) ==> coordinator.View() == old(coordinator.View())
    {
      hide CoordinatorSpec.Cancel, CanDrop, ValidRoute;
      if !ValidRoute(r) || r !in routes.file.routes { return false; }
      var route := routes.file.routes[r];
      CancelledIsGone(coordinator.View(), route.channel, now);
      FailedCancel(coordinator.View(), route.channel, now);
      var cancelled := coordinator.Cancel(route.channel, now);
      if cancelled.Failed? { return false; }
      ok := waiters.Cancel(r, route.generation);
    }

    /** `unbind` refuses a route with a stored waiter or a channel that is not quiet; it leaves a channel without wakes. */
    method Unbind(r: string, expectedGeneration: Option<nat>, now: real, backoff: real, token: string) returns (a: Answer)
      requires coordinator.Valid() && now >= 0.0
      requires Registered(routes.file) && WakesAreReached(routes.file, Wakes())
      modifies routes, coordinator
      ensures coordinator.Valid()
      ensures a.RouteIs? <==>
                && old(Known(r, expectedGeneration))
                && Quiet(old(coordinator.View()), old(routes.file).routes[r].channel, now)
                && Matching(waiters.stored, r, old(routes.file).routes[r].generation) == {}
      ensures a.RouteIs? ==> (routes.file, a) == RouteSpec.Unbind(old(routes.file), r, old(routes.file).routes[r].generation)
      ensures a.RouteIs? ==> !IsBound(a.route) && a.route.channel !in coordinator.View().pending
      ensures a.RouteIs? ==> coordinator.View().pending == old(coordinator.View()).pending - {old(routes.file).routes[r].channel}
      ensures !a.RouteIs? ==> a.Refused? && routes.file == old(routes.file)
      // refused or not, the coordinator was polled and no more
      ensures coordinator.View()
           == if old(Known(r, expectedGeneration))
              then CoordinatorSpec.Status(old(coordinator.View()), old(routes.file).routes[r].channel, None, X, now, backoff, token).0
              else old(coordinator.View())
    {
      hide CoordinatorSpec.Status, RouteSpec.Unbind, Quiet, Registered, WakesAreReached, ValidRoute;
      if !ValidRoute(r) || r !in routes.file.routes { return Refused(RouteSpec.InvalidArgument); }
      var route := routes.file.routes[r];
      if expectedGeneration.Some? && expectedGeneration.value != route.generation { return Refused(RouteSpec.PolicyViolation); }
      IdleIsQuiet(coordinator.View(), route.channel, now, backoff, token);
      FewerWakes(routes.file, Wakes(), Wakes() - {route.channel});
      var status := coordinator.Status(route.channel, None, X, now, backoff, token);
      if status != StatusOf(Idle, false) { return Refused(RouteSpec.PolicyViolation); }
      if Matching(waiters.stored, r, route.generation) != {} { return Refused(RouteSpec.PolicyViolation); }
      assert Wakes() == old(Wakes()) - {route.channel};
      UnbindAtOwnGeneration(routes.file, r, Wakes());
      a := routes.Unbind(r, route.generation);
    }

    /** `unbind_and_cancel`: the same after the wake and the waiters were cancelled. What was cancelled stays cancelled
        when a later step refuses: with a delivery lease on record the route stays bound without its wake and waiters. */
    method UnbindAndCancel(r: string, expectedGeneration: Option<nat>, now: real, backoff: real, token: string) returns (a: Answer)
      requires coordinator.Valid() && now >= 0.0
      requires Registered(routes.file) && WakesAreReached(routes.file, Wakes())
      modifies routes, coordinator, waiters`stored
      ensures coordinator.Valid()
      ensures a.RouteIs? <==>
                && old(CanCancel(r, expectedGeneration) && NoneFiring(r))
                && old(routes.file).routes[r].channel !in old(coordinator.View()).leases
      ensures a.RouteIs? ==> (routes.file, a) == RouteSpec.Unbind(old(routes.file), r, old(routes.file).routes[r].generation)
      ensures a.RouteIs? ==> !IsBound(a.route) && a.route.channel !in coordinator.View().pending
      ensures !a.RouteIs? ==> a.Refused? && routes.file == old(routes.file)
      ensures coordinator.View().pending
           == if old(CanCancel(r, expectedGeneration)) then old(coordinator.View()).pending - {old(routes.file).routes[r].channel}
              else old(coordinator.View()).pending
      ensures waiters.stored
           == if old(CanCancel(r, expectedGeneration) && NoneFiring(r))
              then old(waiters.stored) - Matching(old(waiters.stored), r, old(routes.file).routes[r].generation)
              else old(waiters.stored)
    {
      hide CoordinatorSpec.Status, CoordinatorSpec.Cancel, RouteSpec.Unbind, Registered, WakesAreReached, ValidRoute, ValidChannel,
           Cancellable;
      if !ValidRoute(r) || r !in routes.file.routes { return Refused(RouteSpec.InvalidArgument); }
      var route := routes.file.routes[r];
      if expectedGeneration.Some? && expectedGeneration.value != route.generation { return Refused(RouteSpec.PolicyViolation); }
      CancelledIsGone(coordinator.View(), route.channel, now);
      FailedCancel(coordinator.View(), route.channel, now);
      FewerWakes(routes.file, Wakes(), Wakes() - {route.channel});
      var cancelled := coordinator.Cancel(route.channel, now);
      if cancelled.Failed? { return Refused(RouteSpec.PolicyViolation); }
      var free := waiters.Cancel(r, route.generation);
      if !free { return Refused(RouteSpec.PolicyViolation); }
      ghost var t := coordinator.View();
      assert t.pending - {route.channel} == t.pending;
      IdleIsQuiet(t, route.channel, now, backoff, token);
      PollOfNothing(t, route.channel, now, backoff, token);
      var status := coordinator.Status(route.channel, None, X, now, backoff, token);
      if status != StatusOf(Idle, false) { return Refused(RouteSpec.PolicyViolation); }
      assert Matching(waiters.stored, r, route.generation) == {};
      assert Wakes() == old(Wakes()) - {route.channel};
      UnbindAtOwnGeneration(routes.file, r, Wakes());
      a := routes.Unbind(r, route.generation);
    }
  }

  lemma PollOfNothing(s: State, channel: string, now: real, backoff: real, token: string)
    requires channel !in s.pending
    ensures Status(s, channel, None, X, now, backoff, token).0.pending == s.pending
  {
    hide ValidChannel;
  }

  lemma FewerWakes(g: Registry, wakes: set<string>, fewer: set<string>)
    requires WakesAreReached(g, wakes) && fewer <= wakes
    ensures WakesAreReached(g, fewer)
  {
  }

  lemma FailedCancel(s: State, channel: string, now: real)
    ensures Cancel(s, channel, now).1.Failed? ==> Cancel(s, channel, now).0 == s
  {
  }
}
