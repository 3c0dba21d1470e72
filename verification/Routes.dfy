/**
 `RouteRegistry` in its own form: every method loads the registry file, changes the tables it holds
 and saves it, or refuses and leaves it as it was. `AsyncRLock` is the re-entrant route lock.
 */
module Routes {
  import opened Prelude
  import opened ChannelNames
  import opened RouteLocks
  import opened RouteSpec

  class RouteRegistry {
    /** The registry file. */
    var file: Registry

    constructor ()
      ensures file == EMPTY
    {
      file := EMPTY;
    }

    method Bootstrap(r: string, channel: string, target: Target) returns (a: Answer)
      modifies this
      ensures (file, a) == RouteSpec.Bootstrap(old(file), r, channel, target)
    {
      if !ValidRoute(r) { return Refused(InvalidArgument); }
      var data := file;
      if r !in data.routes {
        data := data.(routes := data.routes[r := Route(channel, 0, Some(target))]);
        file := data;
        return RouteIs(data.routes[r], true);
      }
      a := RouteIs(data.routes[r], false);
    }

    method PrepareBind(r: string, session: Option<string>, allowProjectChange: bool, bootstrapIfMissing: bool, now: real, token: string)
      returns (a: Answer)
      modifies this
      ensures (file, a) == RouteSpec.PrepareBind(old(file), r, session, allowProjectChange, bootstrapIfMissing, now, token)
    {
      hide BindStaleness;
      if !ValidRoute(r) { return Refused(InvalidArgument); }
      var data := file;
      if r !in data.routes && !bootstrapIfMissing { return Refused(InvalidArgument); }
      if r in data.binds {
        var existing := data.binds[r];
        if BindStaleness(existing, data, r, now) == Fresh {
          if existing.session == session && existing.allowProjectChange == allowProjectChange {
            return BindIs(existing);
          }
          return Refused(PolicyViolation);
        }
        data := data.(binds := data.binds - {r});
      }
      var isBootstrap := r !in data.routes;
      var channel := if isBootstrap then ChannelName(r, 0) else data.routes[r].channel;
      var source := if isBootstrap then 0 else data.routes[r].generation;
      var pending := Bind(token, None, source, channel, session, allowProjectChange, now, isBootstrap);
      data := data.(binds := data.binds[r := pending]);
      assert data.binds == old(file).binds[r := pending];
      file := data;
      a := BindIs(pending);
    }

    method RecordBind(r: string, token: string, target: Target, now: real) returns (a: Answer)
      modifies this
      ensures (file, a) == RouteSpec.RecordBind(old(file), r, token, target, now)
    {
      hide BindStaleness, BindProjectAllowed;
      if !ValidRoute(r) { return Refused(InvalidArgument); }
      var data := file;
      if r !in data.binds || data.binds[r].token != token { return Refused(InvalidArgument); }
      var pending := data.binds[r];
      if !pending.bootstrap && r !in data.routes { return Refused(InvalidArgument); }
      var stale := BindStaleness(pending, data, r, now);
      if stale == Expired {
        file := data.(binds := data.binds - {r});
        return Refused(InvalidArgument);
      }
      if stale == GenerationChanged && !pending.bootstrap { return Refused(PolicyViolation); }
      if pending.candidate.Some? { return Refused(PolicyViolation); }
      if !pending.bootstrap && !BindProjectAllowed(data.routes[r], target, pending.allowProjectChange) {
        return Refused(PolicyViolation);
      }
      pending := pending.(candidate := Some(target));
      data := data.(binds := data.binds[r := pending]);
      file := data;
      a := BindIs(pending);
    }

    method CompleteBind(r: string, token: string, supplied: Option<Target>, now: real) returns (a: Answer)
      modifies this
      ensures (file, a) == RouteSpec.CompleteBind(old(file), r, token, supplied, now)
    {
      hide BindStaleness, BindProjectAllowed, SameTarget;
      if !ValidRoute(r) { return Refused(InvalidArgument); }
      var data := file;
      if r !in data.binds || data.binds[r].token != token { return Refused(InvalidArgument); }
      var pending := data.binds[r];
      if !pending.bootstrap && r !in data.routes { return Refused(InvalidArgument); }
      var stale := BindStaleness(pending, data, r, now);
      if stale == Expired {
        file := data.(binds := data.binds - {r});
        return Refused(InvalidArgument);
      }
      if stale == GenerationChanged && !pending.bootstrap { return Refused(PolicyViolation); }
      if supplied.None? && pending.candidate.None? { return Refused(PolicyViolation); }
      var target := if supplied.Some? then supplied.value else pending.candidate.value;
      data := data.(binds := data.binds - {r});
      if pending.bootstrap {
        if r in data.routes {
          file := data;
          var current := data.routes[r];
          if IsBound(current) && current.generation == 0 && SameTarget(current.target.value, target) {
            return RouteIs(current, false);
          }
          return Refused(PolicyViolation);
        }
        var created := Route(ChannelName(r, 0), 0, Some(target));
        data := data.(routes := data.routes[r := created]);
        file := data;
        return RouteIs(created, true);
      }
      var route := data.routes[r];
      if !BindProjectAllowed(route, target, pending.allowProjectChange) { return Refused(PolicyViolation); }
      if IsBound(route) && SameTarget(route.target.value, target) {
        file := data;
        return RouteIs(route, false);
      }
      var generation := route.generation + 1;
      route := Route(ChannelName(r, generation), generation, Some(target));
      data := data.(routes := data.routes[r := route]);
      file := data;
      a := RouteIs(route, true);
    }

    method DiscardBind(r: string, token: string) returns (a: Answer)
      modifies this
      ensures (file, a) == RouteSpec.DiscardBind(old(file), r, token)
    {
      if !ValidRoute(r) { return Refused(InvalidArgument); }
      if r !in file.binds || file.binds[r].token != token { return Done(false); }
      file := file.(binds := file.binds - {r});
      a := Done(true);
    }

    method PendingBind(r: string, now: real) returns (a: Answer)
      modifies this
      ensures (file, a) == RouteSpec.PendingBind(old(file), r, now)
    {
      if !ValidRoute(r) { return Refused(InvalidArgument); }
      if r !in file.binds { return Done(false); }
      if BindStaleness(file.binds[r], file, r, now) != Fresh {
        file := file.(binds := file.binds - {r});
        return Done(false);
      }
      a := BindIs(file.binds[r]);
    }

    method Unbind(r: string, expectedGeneration: nat) returns (a: Answer)
      modifies this
      ensures (file, a) == RouteSpec.Unbind(old(file), r, expectedGeneration)
    {
      if !ValidRoute(r) { return Refused(InvalidArgument); }
      var data := file;
      if r !in data.routes { return Refused(InvalidArgument); }
      var current := data.routes[r].generation;
      if current != expectedGeneration { return Refused(PolicyViolation); }
      var generation, channel := current, data.routes[r].channel;
      if r in data.rollovers {
        var pending := data.rollovers[r];
        generation := if pending.targetGeneration > current + 1 then pending.targetGeneration else current + 1;
        channel := ChannelName(r, generation);
        data := data.(last := data.last[r := LastRollover(pending, Aborted, false, Unsent)]);
        data := data.(rollovers := data.rollovers - {r});
      }
      var route := Route(channel, generation, None);
      data := data.(routes := data.routes[r := route]);
      data := data.(binds := data.binds - {r});
      file := data;
      a := RouteIs(route, true);
    }

    method PrepareRollover(r: string, token: string) returns (a: Answer)
      modifies this
      ensures (file, a) == RouteSpec.PrepareRollover(old(file), r, token)
    {
      if !ValidRoute(r) { return Refused(InvalidArgument); }
      var data := file;
      if r !in data.routes { return Refused(InvalidArgument); }
      var route := data.routes[r];
      if !IsBound(route) { return Refused(PolicyViolation); }
      if r in data.rollovers {
        if data.rollovers[r].sourceGeneration == route.generation { return RolloverIs(data.rollovers[r]); }
        return Refused(PolicyViolation);
      }
      var target := route.generation + 1;
      var pending := Rollover(token, None, route.generation, target, route.target.value.conversation,
                              route.target.value.project, ChannelName(r, target));
      data := data.(rollovers := data.rollovers[r := pending]);
      file := data;
      a := RolloverIs(pending);
    }

    method RecordRollover(r: string, token: string, target: Target) returns (a: Answer)
      modifies this
      ensures (file, a) == RouteSpec.RecordRollover(old(file), r, token, target)
    {
      if !ValidRoute(r) { return Refused(InvalidArgument); }
      var data := file;
      if r !in data.routes || r !in data.rollovers || data.rollovers[r].token != token { return Refused(InvalidArgument); }
      var pending := data.rollovers[r];
      if data.routes[r].generation != pending.sourceGeneration { return Refused(PolicyViolation); }
      if !RolloverProjectAllowed(pending.project, target.project) { return Refused(PolicyViolation); }
      if target.conversation == pending.sourceConversation { return Refused(InvalidArgument); }
      pending := pending.(candidate := Some(target));
      data := data.(rollovers := data.rollovers[r := pending]);
      file := data;
      a := RolloverIs(pending);
    }

    method CommitRollover(r: string, token: string) returns (a: Answer)
      modifies this
      ensures (file, a) == RouteSpec.CommitRollover(old(file), r, token)
    {
      if !ValidRoute(r) { return Refused(InvalidArgument); }
      var data := file;
      if r !in data.routes || r !in data.rollovers || data.rollovers[r].token != token { return Refused(InvalidArgument); }
      var pending := data.rollovers[r];
      if pending.candidate.None? { return Refused(PolicyViolation); }
      if data.routes[r].generation != pending.sourceGeneration { return Refused(PolicyViolation); }
      var target := pending.candidate.value.(project := pending.project);
      var committed := Route(pending.channel, pending.targetGeneration, Some(target));
      data := data.(routes := data.routes[r := committed]);
      data := data.(last := data.last[r := LastRollover(pending, Committed, false, Unsent)]);
      data := data.(rollovers := data.rollovers - {r});
      file := data;
      a := RouteIs(committed, true);
    }

    method AbortRollover(r: string, token: string) returns (a: Answer)
      modifies this
      ensures (file, a) == RouteSpec.AbortRollover(old(file), r, token)
    {
      if !ValidRoute(r) { return Refused(InvalidArgument); }
      var data := file;
      if r !in data.rollovers || data.rollovers[r].token != token { return Done(false); }
      data := data.(last := data.last[r := LastRollover(data.rollovers[r], Aborted, false, Unsent)]);
      data := data.(rollovers := data.rollovers - {r});
      file := data;
      a := Done(true);
    }

    method RecordDelivery(r: string, token: string, delivery: BootstrapDelivery) returns (a: Answer)
      modifies this
      ensures (file, a) == RouteSpec.RecordDelivery(old(file), r, token, delivery)
    {
      if !Completable(file, r, token) { return Refused(InvalidArgument); }
      var last := file.last[r].(delivery := delivery);
      file := file.(last := file.last[r := last]);
      a := Done(true);
    }

    method CompleteRollover(r: string, token: string) returns (a: Answer)
      modifies this
      ensures (file, a) == RouteSpec.CompleteRollover(old(file), r, token)
    {
      if !Completable(file, r, token) { return Refused(InvalidArgument); }
      var last := file.last[r].(state := Complete, bootstrapSent := true);
      file := file.(last := file.last[r := last]);
      a := Done(true);
    }

    method Takeover(r: string, target: Target) returns (a: Answer)
      modifies this
      ensures (file, a) == RouteSpec.Takeover(old(file), r, target)
    {
      if !ValidRoute(r) { return Refused(InvalidArgument); }
      var data := file;
      if r in data.rollovers { return Refused(PolicyViolation); }
      if r in data.routes && IsBound(data.routes[r]) {
        if ProjectIdentity(target.project) != ProjectIdentity(data.routes[r].target.value.project) {
          return Refused(PolicyViolation);
        }
      }
      var generation := (if r in data.routes then data.routes[r].generation else 0) + 1;
      var route := Route(ChannelName(r, generation), generation, Some(target));
      data := data.(routes := data.routes[r := route]);
      file := data;
      a := RouteIs(route, true);
    }
  }

  /** The re-entrant lock: `locked` is the inner `asyncio.Lock`. */
  class AsyncRLock {
    var locked: bool
    var owner: Option<Task>
    var count: nat

    constructor ()
      ensures Valid() && View() == FREE
    {
      locked, owner, count := false, None, 0;
    }

    /** The inner lock is taken exactly while some task owns the outer one, with a positive depth. */
    predicate Valid()
      reads this
    {
      (locked <==> owner.Some?) && (owner.Some? <==> count > 0)
    }

    function View(): Lock
      reads this
    {
      Lock(owner, count)
    }

    /** One attempt: a task that does not own the lock has to wait while it is taken. */
    method Acquire(task: Task) returns (acquired: bool)
      requires Valid()
      modifies this
      ensures Valid()
      ensures acquired <==> CanAcquire(old(View()), task)
      ensures View() == if acquired then Acquired(old(View()), task) else old(View())
    {
      if owner.Some? && owner.value == task {
        count := count + 1;
        return true;
      }
      if locked {
        return false;
      }
      locked := true;
      owner := Some(task);
      count := 1;
      acquired := true;
    }

    /** Only the owner may release; the last release hands the lock back. */
    method Release(task: Task) returns (ok: bool)
      requires Valid()
      modifies this
      ensures Valid()
      ensures ok <==> old(owner) == Some(task)
      ensures View() == if ok then Released(old(View())) else old(View())
    {
      if owner != Some(task) {
        return false;
      }
      count := count - 1;
      if count == 0 {
        owner := None;
        locked := false;
      }
      ok := true;
    }
  }
}
