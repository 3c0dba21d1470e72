/** The conditions of the registry's smaller operations, in plain terms, and exactly what each of them changes. */
module RouteEdits {
  import opened Prelude
  import opened ChannelNames
  import opened RouteSpec

  // ---------------------------------------------------------------- projects

  /** `g-p-` and 32 hex digits in front. */
  predicate Stable(p: string) {
    |p| >= 36 && p[..4] == "g-p-" && (forall i | 4 <= i < 36 :: IsHex(p[i])) && (|p| == 36 || p[36] == '-')
  }

  /** The same project under possibly different names. */
  predicate SameProject(a: Option<string>, b: Option<string>) {
    || a == b
    || (a.Some? && b.Some? && Stable(a.value) && Stable(b.value)
        && forall i | 0 <= i < 36 :: LowerChar(a.value[i]) == LowerChar(b.value[i]))
  }

  lemma SameProjectWhen(a: Option<string>, b: Option<string>)
    ensures ProjectIdentity(a) == ProjectIdentity(b) <==> SameProject(a, b)
  {
    StableStays(a);
    StableStays(b);
    if a.Some? && b.Some? && Stable(a.value) && Stable(b.value) {
      var x, y := Lower(a.value[..36]), Lower(b.value[..36]);
      assert forall i | 0 <= i < 36 :: x[i] == LowerChar(a.value[i]) && y[i] == LowerChar(b.value[i]);
      if forall i | 0 <= i < 36 :: LowerChar(a.value[i]) == LowerChar(b.value[i]) {
        assert x == y;
      }
    }
  }

  lemma StableStays(a: Option<string>)
    ensures a.Some? && Stable(a.value) ==> ProjectIdentity(a).Some? && Stable(ProjectIdentity(a).value)
    ensures !(a.Some? && Stable(a.value)) ==> ProjectIdentity(a) == a
  {
    if a.Some? && Stable(a.value) {
      var l := Lower(a.value[..36]);
      assert a.value[0] == a.value[..4][0] && a.value[1] == a.value[..4][1] && a.value[2] == a.value[..4][2] && a.value[3] == a.value[..4][3];
      assert l[..4] == "g-p-";
      forall i | 4 <= i < 36 ensures IsHex(l[i]) {
        assert IsHex(a.value[i]);
      }
    }
  }

  // ---------------------------------------------------------------- binds

  /** Prepared within ten minutes, and the route is still where it was. */
  predicate StillFresh(g: Registry, r: string, b: Bind, now: real) {
    now - b.createdAt <= 600.0
    && if b.bootstrap then r !in g.routes else r in g.routes && g.routes[r].generation == b.sourceGeneration
  }

  lemma FreshWhen(g: Registry, r: string, b: Bind, now: real)
    ensures BindStaleness(b, g, r, now) == Fresh <==> StillFresh(g, r, b, now)
    ensures BindStaleness(b, g, r, now) == Expired <==> now - b.createdAt > 600.0
  {
  }

  /** Preparing a bind gives the one under way back, refuses a different one, and replaces a stale one. */
  lemma PrepareBindWhen(g: Registry, r: string, session: Option<string>, allow: bool, missing: bool, now: real, token: string)
    ensures var (h, a) := PrepareBind(g, r, session, allow, missing, now, token);
            if !ValidRoute(r) || (r !in g.routes && !missing) then h == g && a == Refused(InvalidArgument)
            else if r in g.binds && StillFresh(g, r, g.binds[r], now) then
              h == g && a == if g.binds[r].session == session && g.binds[r].allowProjectChange == allow then BindIs(g.binds[r])
                             else Refused(PolicyViolation)
            else
              && a.BindIs? && h.binds == g.binds[r := a.bind] && h.routes == g.routes && h.rollovers == g.rollovers && h.last == g.last
              && a.bind.token == token && a.bind.candidate.None? && a.bind.session == session && a.bind.allowProjectChange == allow
              && a.bind.createdAt == now && (a.bind.bootstrap <==> r !in g.routes)
              && a.bind.sourceGeneration == (if r in g.routes then g.routes[r].generation else 0)
  {
    hide ChannelName, ValidRoute, BindStaleness;
    if r in g.binds {
      FreshWhen(g, r, g.binds[r], now);
    }
  }

  /** The target may be bound: a change of project was allowed, or there is none, or the URL only lost its project part. */
  predicate MayBind(g: Registry, r: string, b: Bind, t: Target) {
    || b.bootstrap
    || (r in g.routes
        && (|| b.allowProjectChange
            || SameProject(t.project, if g.routes[r].target.Some? then g.routes[r].target.value.project else None)
            || (t.project.None? && g.routes[r].target.Some? && g.routes[r].target.value.project.Some?
                && g.routes[r].target.value.conversation == t.conversation)))
  }

  /** The bind can be used: prepared within ten minutes, for the generation the route still has. */
  predicate Usable(g: Registry, r: string, b: Bind, now: real) {
    now - b.createdAt <= 600.0 && (b.bootstrap || (r in g.routes && g.routes[r].generation == b.sourceGeneration))
  }

  /** A candidate is recorded once, for a usable bind of this token. */
  lemma RecordBindWhen(g: Registry, r: string, token: string, t: Target, now: real)
    requires ValidRoute(r)
    ensures var (h, a) := RecordBind(g, r, token, t, now);
            && (a.BindIs? <==> r in g.binds && g.binds[r].token == token && Usable(g, r, g.binds[r], now)
                               && g.binds[r].candidate.None? && MayBind(g, r, g.binds[r], t))
            && (a.BindIs? ==> h == g.(binds := g.binds[r := g.binds[r].(candidate := Some(t))]) && a.bind == h.binds[r])
            && (!a.BindIs? ==> a.Refused? && (h == g || h == g.(binds := g.binds - {r})))
  {
    hide ChannelName, ValidRoute, ProjectIdentity, SameProject;
    if r in g.routes {
      SameProjectWhen(t.project, if g.routes[r].target.Some? then g.routes[r].target.value.project else None);
    }
  }

  /** A bind completes exactly when it is usable and its target may be bound; a first bind that came too late only if nothing else is bound. */
  lemma CompleteBindWhen(g: Registry, r: string, token: string, supplied: Option<Target>, now: real)
    requires ValidRoute(r)
    ensures CompleteBind(g, r, token, supplied, now).1.RouteIs?
       <==> r in g.binds && g.binds[r].token == token && Usable(g, r, g.binds[r], now)
            && (supplied.Some? || g.binds[r].candidate.Some?)
            && var t := if supplied.Some? then supplied.value else g.binds[r].candidate.value;
            && MayBind(g, r, g.binds[r], t)
            && (g.binds[r].bootstrap && r in g.routes ==>
                  g.routes[r].generation == 0 && g.routes[r].target.Some? && SameChat(g.routes[r].target.value, t))
  {
    hide ChannelName, ValidRoute, ProjectIdentity, SameProject;
    if r in g.routes && r in g.binds && (supplied.Some? || g.binds[r].candidate.Some?) {
      var t := if supplied.Some? then supplied.value else g.binds[r].candidate.value;
      SameProjectWhen(t.project, if g.routes[r].target.Some? then g.routes[r].target.value.project else None);
    }
  }

  /** The same conversation, in the same project or addressed without one. */
  predicate SameChat(current: Target, t: Target) {
    current.conversation == t.conversation
    && (SameProject(t.project, current.project) || (current.project.Some? && t.project.None?))
  }

  /** A completed bind leaves the record alone exactly if it already was bound to this chat. */
  lemma CompleteBindChanges(g: Registry, r: string, token: string, supplied: Option<Target>, now: real)
    requires CompleteBind(g, r, token, supplied, now).1.RouteIs? && r in g.binds && (supplied.Some? || g.binds[r].candidate.Some?)
    ensures var t := if supplied.Some? then supplied.value else g.binds[r].candidate.value;
            CompleteBind(g, r, token, supplied, now).1.changed
            <==> !(r in g.routes && g.routes[r].target.Some? && SameChat(g.routes[r].target.value, t))
  {
    hide ChannelName, ValidRoute, ProjectIdentity, SameProject, BindProjectAllowed, BindStaleness;
    if r in g.routes && g.routes[r].target.Some? {
      var t := if supplied.Some? then supplied.value else g.binds[r].candidate.value;
      SameProjectWhen(t.project, g.routes[r].target.value.project);
    }
  }

  /** Discarding takes exactly the named bind; looking a bind up forgets it when it is stale. */
  lemma DiscardAndPending(g: Registry, r: string, token: string, now: real)
    requires ValidRoute(r)
    ensures var (h, a) := DiscardBind(g, r, token);
            var named := r in g.binds && g.binds[r].token == token;
            a == Done(named) && h == if named then g.(binds := g.binds - {r}) else g
    ensures var (h, a) := PendingBind(g, r, now);
            if r in g.binds && StillFresh(g, r, g.binds[r], now) then h == g && a == BindIs(g.binds[r])
            else a == Done(false) && h == g.(binds := g.binds - {r})
  {
    hide ValidRoute, BindStaleness;
    if r in g.binds {
      FreshWhen(g, r, g.binds[r], now);
    } else {
      assert g.binds - {r} == g.binds;
    }
  }

  // ---------------------------------------------------------------- rollovers

  /** One rollover at a time: prepared for the next generation of a bound route, and given back while the route stays. */
  lemma PrepareRolloverWhen(g: Registry, r: string, token: string)
    requires ValidRoute(r)
    ensures var (h, a) := PrepareRollover(g, r, token);
            if r !in g.routes then h == g && a == Refused(InvalidArgument)
            else if g.routes[r].target.None? then h == g && a == Refused(PolicyViolation)
            else if r in g.rollovers then
              h == g && a == if g.rollovers[r].sourceGeneration == g.routes[r].generation then RolloverIs(g.rollovers[r])
                             else Refused(PolicyViolation)
            else
              && a.RolloverIs? && h == g.(rollovers := g.rollovers[r := a.rollover])
              && a.rollover.token == token && a.rollover.candidate.None?
              && a.rollover.sourceGeneration == g.routes[r].generation && a.rollover.targetGeneration == g.routes[r].generation + 1
              && a.rollover.sourceConversation == g.routes[r].target.value.conversation
              && a.rollover.project == g.routes[r].target.value.project
              && a.rollover.channel == ChannelName(r, g.routes[r].generation + 1)
  {
    hide ChannelName, ValidRoute;
  }

  /** The candidate's project is the rollover's, or that name with something behind a dash. */
  predicate Continues(project: Option<string>, candidate: Option<string>) {
    candidate == project
    || (candidate.Some? && project.Some? && project.value + "-" <= candidate.value)
  }

  /** A candidate is another conversation of the same project, recorded while the route has not moved. */
  lemma RecordRolloverWhen(g: Registry, r: string, token: string, t: Target)
    requires ValidRoute(r)
    ensures var (h, a) := RecordRollover(g, r, token, t);
            && (a.RolloverIs? <==>
                  && r in g.routes && r in g.rollovers && g.rollovers[r].token == token
                  && g.routes[r].generation == g.rollovers[r].sourceGeneration
                  && Continues(g.rollovers[r].project, t.project) && t.conversation != g.rollovers[r].sourceConversation)
            && (a.RolloverIs? ==> h == g.(rollovers := g.rollovers[r := g.rollovers[r].(candidate := Some(t))]) && a.rollover == h.rollovers[r])
            && (!a.RolloverIs? ==> a.Refused? && h == g)
  {
    hide ChannelName, ValidRoute;
    if r in g.rollovers && g.rollovers[r].project.Some? && t.project.Some? {
      PrefixIsTake(g.rollovers[r].project.value + "-", t.project.value);
    }
  }

  lemma PrefixIsTake(a: string, b: string)
    ensures a <= b <==> |a| <= |b| && b[..|a|] == a
  {
  }

  /** A rollover commits exactly while its candidate is recorded and the route has not moved. */
  lemma CommitRolloverWhen(g: Registry, r: string, token: string)
    requires ValidRoute(r)
    ensures var (h, a) := CommitRollover(g, r, token);
            && (a.RouteIs? <==>
                  && r in g.routes && r in g.rollovers && g.rollovers[r].token == token && g.rollovers[r].candidate.Some?
                  && g.routes[r].generation == g.rollovers[r].sourceGeneration)
            && (!a.RouteIs? ==> a.Refused? && h == g)
            && (a.RouteIs? ==> h.binds == g.binds && h.rollovers == g.rollovers - {r} && r in h.last && h.last - {r} == g.last - {r}
                               && h.last[r].rollover == g.rollovers[r] && h.last[r].state.Committed?)
  {
    hide ChannelName, ValidRoute;
  }

  /** An aborted rollover is remembered as aborted and can no longer commit or be completed. */
  lemma AbortRolloverWhen(g: Registry, r: string, token: string)
    requires ValidRoute(r)
    ensures var (h, a) := AbortRollover(g, r, token);
            var named := r in g.rollovers && g.rollovers[r].token == token;
            && a == Done(named) && (!named ==> h == g)
            && (named ==> h.routes == g.routes && h.binds == g.binds && h.rollovers == g.rollovers - {r}
                          && r in h.last && h.last - {r} == g.last - {r} && h.last[r].rollover == g.rollovers[r] && h.last[r].state.Aborted?
                          && !CommitRollover(h, r, token).1.RouteIs? && !Completable(h, r, token))
  {
    hide ChannelName, ValidRoute;
  }

  /** Recording a delivery state or the completion touches that one field of the last rollover. */
  lemma DeliveryWhen(g: Registry, r: string, token: string, d: BootstrapDelivery)
    ensures var (h, a) := RecordDelivery(g, r, token, d);
            && (a == Done(true) <==> Completable(g, r, token)) && (a != Done(true) ==> h == g)
            && (a == Done(true) ==> h == g.(last := g.last[r := g.last[r].(delivery := d)]))
    ensures var (h, a) := CompleteRollover(g, r, token);
            && (a == Done(true) <==> Completable(g, r, token)) && (a != Done(true) ==> h == g)
            && (a == Done(true) ==>
                  && h.routes == g.routes && h.rollovers == g.rollovers && h.binds == g.binds && h.last - {r} == g.last - {r}
                  && r in h.last && h.last[r].bootstrapSent && h.last[r].state.Complete? && h.last[r].rollover == g.last[r].rollover
                  && h.last[r].delivery == g.last[r].delivery && Completable(h, r, token))
  {
    hide ValidRoute;
  }

  /** A takeover needs the project of the route it takes over, and no rollover under way. */
  lemma TakeoverWhen(g: Registry, r: string, t: Target)
    requires ValidRoute(r)
    ensures var (h, a) := Takeover(g, r, t);
            && (a.RouteIs? <==> r !in g.rollovers
                                && (r in g.routes && g.routes[r].target.Some? ==> SameProject(t.project, g.routes[r].target.value.project)))
            && (!a.RouteIs? ==> a == Refused(PolicyViolation) && h == g)
            && (a.RouteIs? ==> h.rollovers == g.rollovers && h.binds == g.binds && h.last == g.last)
  {
    hide ChannelName, ValidRoute, ProjectIdentity, SameProject;
    if r in g.routes && g.routes[r].target.Some? {
      SameProjectWhen(t.project, g.routes[r].target.value.project);
    }
  }

  // ---------------------------------------------------------------- where wakes may go

  /** A wake may be armed for a route that is bound, where the caller thinks it is, and not about to roll over. */
  lemma WakeableWhen(g: Registry, r: string, n: Option<nat>, c: Option<string>)
    ensures Wakeable(g, r, n, c) <==>
              && ValidRoute(r) && r in g.routes && g.routes[r].target.Some?
              && (n == None || n == Some(g.routes[r].generation)) && (c == None || c == Some(g.routes[r].channel))
              && (r in g.rollovers ==> g.rollovers[r].sourceGeneration != g.routes[r].generation)
  {
    hide ValidRoute;
  }

  /** A channel is an active route's, or refused because it is reserved, or nobody's. */
  lemma WakeRouteWhen(g: Registry, c: string)
    ensures var a := WakeRouteFor(g, c);
            && (a.Routed? <==> exists r :: r in g.routes && g.routes[r].channel == c)
            && (a.Routed? ==> a.route in g.routes && g.routes[a.route].channel == c)
            && (a.Plain? <==> && (forall r | r in g.routes :: g.routes[r].channel != c)
                              && (forall r | r in g.rollovers :: g.rollovers[r].channel != c) && !RouteChannelShape(c))
  {
    hide RouteChannelShape;
  }
}
