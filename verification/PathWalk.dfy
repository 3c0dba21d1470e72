/**
 The symlink walk of `app/executors/openrouter_worker.py`: one component at a time, targets spliced into the
 pending components, at most 40 links. `Walk` is that algorithm without its set of seen states, `Nested` the
 recursive resolution it stands for.
 */
module PathWalk {
  import opened Prelude

  /** Components below the root. */
  type Path = seq<string>

  datatype Target = Target(absolute: bool, parts: seq<string>)

  type Links = map<Path, Target>

  const MAX_LINKS := 40

  /** `External` accepts a direct external interpreter, the other two are errors. */
  datatype Verdict = External | Unsupported | Mismatch

  datatype Outcome = Reached(path: Path) | Stopped(verdict: Verdict) | Cyclic

  datatype Hop = Follow | Stop(verdict: Verdict)

  /** `onLink` is asked with the link, its target and whether components are still pending behind it. */
  datatype Policy = Policy(authorised: Path -> bool, onLink: (Path, Target, bool) -> Hop)

  const FREE: Policy := Policy(p => true, (c, t, more) => Follow)

  function Parent(p: Path): Path {
    if p == [] then [] else p[..|p| - 1]
  }

  function Start(resolved: Path, t: Target): Path {
    if t.absolute then [] else resolved
  }

  /** The outcome and the links followed, from a resolved prefix with `left` links to go. */
  function Walk(links: Links, pol: Policy, resolved: Path, pending: seq<string>, left: nat): (Outcome, seq<Path>)
    decreases left, |pending|
  {
    if pending == [] then (Reached(resolved), [])
    else
      var part, rest := pending[0], pending[1..];
      if part == "" || part == "." then Walk(links, pol, resolved, rest, left)
      else if part == ".." then Walk(links, pol, Parent(resolved), rest, left)
      else
        var c := resolved + [part];
        if !pol.authorised(c) then (Stopped(Unsupported), [])
        else if c !in links then Walk(links, pol, c, rest, left)
        else if left == 0 then (Cyclic, [])
        else
          var hop := pol.onLink(c, links[c], rest != []);
          if hop.Stop? then (Stopped(hop.verdict), [])
          else
            var r := Walk(links, pol, Start(resolved, links[c]), links[c].parts + rest, left - 1);
            (r.0, [c] + r.1)
  }

  /** Recursive resolution: a link's target is resolved on its own before the components behind it; `more` says whether any enclosing level still has some. */
  function Nested(links: Links, pol: Policy, resolved: Path, parts: seq<string>, left: nat, more: bool): (r: (Outcome, seq<Path>))
    ensures |r.1| <= left
    decreases left, |parts|
  {
    if parts == [] then (Reached(resolved), [])
    else
      var part, rest := parts[0], parts[1..];
      if part == "" || part == "." then Nested(links, pol, resolved, rest, left, more)
      else if part == ".." then Nested(links, pol, Parent(resolved), rest, left, more)
      else
        var c := resolved + [part];
        if !pol.authorised(c) then (Stopped(Unsupported), [])
        else if c !in links then Nested(links, pol, c, rest, left, more)
        else if left == 0 then (Cyclic, [])
        else
          var behind := rest != [] || more;
          var hop := pol.onLink(c, links[c], behind);
          if hop.Stop? then (Stopped(hop.verdict), [])
          else
            var t := Nested(links, pol, Start(resolved, links[c]), links[c].parts, left - 1, behind);
            if !t.0.Reached? then (t.0, [c] + t.1)
            else
              var r := Nested(links, pol, t.0.path, rest, left - 1 - |t.1|, more);
              (r.0, [c] + t.1 + r.1)
  }

  // ---------------------------------------------------------------- splicing is nesting

  /** Continue the walk with `pending` after a nested resolution. */
  function Then(links: Links, pol: Policy, first: (Outcome, seq<Path>), pending: seq<string>, left: nat): (Outcome, seq<Path>)
    requires |first.1| <= left
  {
    if !first.0.Reached? then first
    else
      var r := Walk(links, pol, first.0.path, pending, left - |first.1|);
      (r.0, first.1 + r.1)
  }

  lemma {:induction false} SpliceIsNesting(links: Links, pol: Policy, resolved: Path, a: seq<string>, b: seq<string>, left: nat)
    ensures Walk(links, pol, resolved, a + b, left) == Then(links, pol, Nested(links, pol, resolved, a, left, b != []), b, left)
    decreases left, |a|
  {
    if a == [] {
      assert a + b == b;
      var w := Walk(links, pol, resolved, b, left).1;
      assert [] + w == w;
    } else {
      var part, rest := a[0], a[1..];
      assert (a + b)[0] == part && (a + b)[1..] == rest + b;
      if part == "" || part == "." {
        SpliceIsNesting(links, pol, resolved, rest, b, left);
      } else if part == ".." {
        SpliceIsNesting(links, pol, Parent(resolved), rest, b, left);
      } else {
        var c := resolved + [part];
        if pol.authorised(c) && c !in links {
          SpliceIsNesting(links, pol, c, rest, b, left);
        } else if pol.authorised(c) && left > 0 {
          var behind := rest != [] || b != [];
          assert (rest + b != []) == behind;
          if pol.onLink(c, links[c], behind).Follow? {
            SpliceLink(links, pol, resolved, c, rest, b, left);
          }
        }
      }
    }
  }

  /** The same for what follows one link. */
  lemma {:induction false} SpliceLink(links: Links, pol: Policy, resolved: Path, c: Path, rest: seq<string>, b: seq<string>, left: nat)
    requires c in links && left > 0
    ensures (var t := Nested(links, pol, Start(resolved, links[c]), links[c].parts, left - 1, rest != [] || b != []);
             var w := Walk(links, pol, Start(resolved, links[c]), links[c].parts + (rest + b), left - 1);
             if !t.0.Reached? then w == t
             else
               var n := Nested(links, pol, t.0.path, rest, left - 1 - |t.1|, b != []);
               (w.0, [c] + w.1) == Then(links, pol, (n.0, [c] + t.1 + n.1), b, left))
    decreases left, 0
  {
    var s := Start(resolved, links[c]);
    assert rest + b != [] <==> rest != [] || b != [];
    SpliceIsNesting(links, pol, s, links[c].parts, rest + b, left - 1);
    var t := Nested(links, pol, s, links[c].parts, left - 1, rest + b != []);
    if t.0.Reached? {
      SpliceIsNesting(links, pol, t.0.path, rest, b, left - 1 - |t.1|);
      var n := Nested(links, pol, t.0.path, rest, left - 1 - |t.1|, b != []);
      var w := Walk(links, pol, t.0.path, rest + b, left - 1 - |t.1|);
      assert [c] + (t.1 + n.1) == [c] + t.1 + n.1;
      if n.0.Reached? {
        var z := Walk(links, pol, n.0.path, b, left - 1 - |t.1| - |n.1|).1;
        assert [c] + (t.1 + (n.1 + z)) == [c] + t.1 + n.1 + z;
      }
    }
  }

  /** The spliced walk computes the nested resolution, outcome and links alike, cyclic maps included. */
  lemma WalkIsNested(links: Links, pol: Policy, resolved: Path, parts: seq<string>, left: nat)
    ensures Walk(links, pol, resolved, parts, left) == Nested(links, pol, resolved, parts, left, false)
  {
    SpliceIsNesting(links, pol, resolved, parts, [], left);
    assert parts + [] == parts;
    var n := Nested(links, pol, resolved, parts, left, false);
    assert n.1 + [] == n.1;
  }

  // ---------------------------------------------------------------- what the walk guarantees

  /** Every ancestor of an authorised path is authorised. */
  ghost predicate ClosedUnderParent(pol: Policy) {
    forall p: Path, k: nat | k <= |p| && pol.authorised(p) :: pol.authorised(p[..k])
  }

  /** No prefix of the path is a link. */
  ghost predicate LinkFree(links: Links, p: Path) {
    forall k | 0 <= k <= |p| :: p[..k] !in links
  }

  ghost predicate Good(links: Links, pol: Policy, p: Path) {
    LinkFree(links, p) && pol.authorised(p)
  }

  lemma ParentStaysGood(links: Links, pol: Policy, p: Path)
    requires Good(links, pol, p) && ClosedUnderParent(pol)
    ensures Good(links, pol, Parent(p))
  {
    var q := Parent(p);
    assert q == p[..|q|];
    assert pol.authorised(p[..|q|]);
    forall k | 0 <= k <= |q| ensures q[..k] !in links {
      assert q[..k] == p[..k];
    }
  }

  lemma ChildIsGood(links: Links, pol: Policy, p: Path, part: string)
    requires Good(links, pol, p) && pol.authorised(p + [part]) && p + [part] !in links
    ensures Good(links, pol, p + [part])
  {
    var q := p + [part];
    forall k | 0 <= k <= |q| ensures q[..k] !in links {
      assert k <= |p| ==> q[..k] == p[..k];
      assert q[..|q|] == q;
    }
  }

  lemma RootIsGood(links: Links, pol: Policy, p: Path)
    requires Good(links, pol, p) && ClosedUnderParent(pol)
    ensures Good(links, pol, [])
  {
    var root: Path := [];
    assert p[..0] == root && pol.authorised(p[..0]);
    assert root[..0] == root;
  }

  /** A path the walk reaches has no link in it and is authorised; every link followed was authorised too. */
  lemma {:induction false} ReachedIsGood(links: Links, pol: Policy, resolved: Path, pending: seq<string>, left: nat)
    requires ClosedUnderParent(pol) && Good(links, pol, resolved)
    ensures var w := Walk(links, pol, resolved, pending, left);
            && (w.0.Reached? ==> Good(links, pol, w.0.path))
            && (forall c | c in w.1 :: c in links && pol.authorised(c) && LinkFree(links, Parent(c)))
            && |w.1| <= left
    decreases left, |pending|
  {
    hide Good, ClosedUnderParent, LinkFree;
    if pending != [] {
      var part, rest := pending[0], pending[1..];
      if part == "" || part == "." {
        ReachedIsGood(links, pol, resolved, rest, left);
      } else if part == ".." {
        ParentStaysGood(links, pol, resolved);
        ReachedIsGood(links, pol, Parent(resolved), rest, left);
      } else {
        var c := resolved + [part];
        if pol.authorised(c) && c !in links {
          ChildIsGood(links, pol, resolved, part);
          ReachedIsGood(links, pol, c, rest, left);
        } else if pol.authorised(c) && left > 0 {
          RootIsGood(links, pol, resolved);
          GoodParts(links, pol, resolved);
          assert Parent(c) == resolved;
          ReachedIsGood(links, pol, Start(resolved, links[c]), links[c].parts + rest, left - 1);
        }
      }
    }
  }

  lemma GoodParts(links: Links, pol: Policy, p: Path)
    requires Good(links, pol, p)
    ensures LinkFree(links, p) && pol.authorised(p)
  {
  }

  /** A policy only ever stops a walk; what it lets through is where the path leads without any policy. */
  lemma {:induction false} PolicyOnlyStops(links: Links, pol: Policy, resolved: Path, pending: seq<string>, left: nat)
    requires !Walk(links, pol, resolved, pending, left).0.Stopped?
    ensures Walk(links, FREE, resolved, pending, left) == Walk(links, pol, resolved, pending, left)
    decreases left, |pending|
  {
    if pending != [] {
      var part, rest := pending[0], pending[1..];
      if part == "" || part == "." {
        PolicyOnlyStops(links, pol, resolved, rest, left);
      } else if part == ".." {
        PolicyOnlyStops(links, pol, Parent(resolved), rest, left);
      } else {
        var c := resolved + [part];
        if c !in links {
          PolicyOnlyStops(links, pol, c, rest, left);
        } else if left > 0 {
          PolicyOnlyStops(links, pol, Start(resolved, links[c]), links[c].parts + rest, left - 1);
        }
      }
    }
  }

  // ---------------------------------------------------------------- seen states

  datatype State = State(resolved: Path, pending: seq<string>)

  function From(links: Links, pol: Policy, s: State, left: nat): (Outcome, seq<Path>) {
    Walk(links, pol, s.resolved, s.pending, left)
  }

  /** A walk that finishes within its budget does the same with a larger one. */
  lemma {:induction false} LargerBudget(links: Links, pol: Policy, resolved: Path, pending: seq<string>, left: nat, larger: nat)
    requires left <= larger && Walk(links, pol, resolved, pending, left).0 != Cyclic
    ensures Walk(links, pol, resolved, pending, larger) == Walk(links, pol, resolved, pending, left)
    decreases left, |pending|
  {
    if pending != [] {
      var part, rest := pending[0], pending[1..];
      if part == "" || part == "." {
        LargerBudget(links, pol, resolved, rest, left, larger);
      } else if part == ".." {
        LargerBudget(links, pol, Parent(resolved), rest, left, larger);
      } else {
        var c := resolved + [part];
        if pol.authorised(c) && c !in links {
          LargerBudget(links, pol, c, rest, left, larger);
        } else if pol.authorised(c) && left > 0 && pol.onLink(c, links[c], rest != []).Follow? {
          LargerBudget(links, pol, Start(resolved, links[c]), links[c].parts + rest, left - 1, larger - 1);
        }
      }
    }
  }

  /** The walk came through every seen state: with a larger budget, or with the same and more components to go. */
  ghost predicate CameThrough(links: Links, pol: Policy, seen: map<State, nat>, now: State, left: nat) {
    forall s | s in seen ::
      && (seen[s] > left || (seen[s] == left && |s.pending| > |now.pending|))
      && From(links, pol, s, seen[s]).0 == From(links, pol, now, left).0
      && |From(links, pol, s, seen[s]).1| == |From(links, pol, now, left).1| + (seen[s] - left)
  }

  /** So a state seen before can only lead to the end of the budget: rejecting it changes no outcome. */
  lemma SeenAgainIsCyclic(links: Links, pol: Policy, seen: map<State, nat>, now: State, left: nat)
    requires CameThrough(links, pol, seen, now, left) && now in seen
    ensures From(links, pol, now, left).0 == Cyclic
  {
    if From(links, pol, now, left).0 != Cyclic {
      LargerBudget(links, pol, now.resolved, now.pending, left, seen[now]);
    }
  }

  /** One turn of the loop, from a new state to the next. */
  lemma MoveOn(links: Links, pol: Policy, seen: map<State, nat>, now: State, left: nat, next: State, less: nat)
    requires CameThrough(links, pol, seen, now, left) && now !in seen
    requires less < left || (less == left && |next.pending| < |now.pending|)
    requires From(links, pol, now, left).0 == From(links, pol, next, less).0
    requires |From(links, pol, now, left).1| == |From(links, pol, next, less).1| + (left - less)
    ensures CameThrough(links, pol, seen[now := left], next, less)
  {
    hide From;
  }

  // ---------------------------------------------------------------- the loops

  /** The first link followed directly below `dir`. */
  function FirstBelow(dir: Path, followed: seq<Path>): Option<Path> {
    if followed == [] then None
    else if Parent(followed[0]) == dir then Some(followed[0])
    else FirstBelow(dir, followed[1..])
  }

  function OrElse(a: Option<Path>, b: Option<Path>): Option<Path> {
    if a.Some? then a else b
  }

  /**
   What a loop keeps: it came through the states seen, and the rest of the walk, after the first link below
   `dir` found so far, gives what the whole walk gives.
   */
  ghost predicate Underway(links: Links, pol: Policy, dir: Path, whole: (Outcome, seq<Path>), seen: map<State, nat>,
                           now: State, left: nat, found: Option<Path>)
  {
    && CameThrough(links, pol, seen, now, left)
    && From(links, pol, now, left).0 == whole.0
    && OrElse(found, FirstBelow(dir, From(links, pol, now, left).1)) == FirstBelow(dir, whole.1)
  }

  lemma SetOut(links: Links, pol: Policy, dir: Path, start: State, left: nat)
    ensures Underway(links, pol, dir, From(links, pol, start, left), map[], start, left, None)
  {
  }

  lemma SeenAgain(links: Links, pol: Policy, dir: Path, whole: (Outcome, seq<Path>), seen: map<State, nat>, now: State, left: nat, found: Option<Path>)
    requires Underway(links, pol, dir, whole, seen, now, left, found) && now in seen
    ensures whole.0 == Cyclic
  {
    SeenAgainIsCyclic(links, pol, seen, now, left);
  }

  /** An ordinary component, an empty one or a step up. */
  lemma PlainTurn(links: Links, pol: Policy, dir: Path, whole: (Outcome, seq<Path>), seen: map<State, nat>, now: State, left: nat,
                  found: Option<Path>, next: State)
    requires Underway(links, pol, dir, whole, seen, now, left, found) && now !in seen && now.pending != []
    requires next.pending == now.pending[1..]
    requires (var part := now.pending[0];
              if part == "" || part == "." then next.resolved == now.resolved
              else if part == ".." then next.resolved == Parent(now.resolved)
              else next.resolved == now.resolved + [part] && next.resolved !in links && pol.authorised(next.resolved))
    ensures Underway(links, pol, dir, whole, seen[now := left], next, left, found)
  {
    MoveOn(links, pol, seen, now, left, next, left);
  }

  lemma LinkTurn(links: Links, pol: Policy, dir: Path, whole: (Outcome, seq<Path>), seen: map<State, nat>, now: State, left: nat,
                 found: Option<Path>, c: Path, next: State)
    requires Underway(links, pol, dir, whole, seen, now, left, found) && now !in seen && now.pending != [] && left > 0
    requires now.pending[0] != "" && now.pending[0] != "." && now.pending[0] != ".."
    requires c == now.resolved + [now.pending[0]] && c in links && pol.authorised(c)
    requires pol.onLink(c, links[c], now.pending[1..] != []).Follow?
    requires next == State(Start(now.resolved, links[c]), links[c].parts + now.pending[1..])
    ensures Underway(links, pol, dir, whole, seen[now := left], next, left - 1,
                     if found.None? && Parent(c) == dir then Some(c) else found)
  {
    var rest := From(links, pol, next, left - 1);
    assert From(links, pol, now, left) == (rest.0, [c] + rest.1);
    MoveOn(links, pol, seen, now, left, next, left - 1);
    assert ([c] + rest.1)[1..] == rest.1;
  }

  /** How a walk ends at its next component. */
  lemma Ending(links: Links, pol: Policy, dir: Path, whole: (Outcome, seq<Path>), seen: map<State, nat>, now: State, left: nat, found: Option<Path>)
    requires Underway(links, pol, dir, whole, seen, now, left, found)
    ensures now.pending == [] ==> whole.0 == Reached(now.resolved) && found == FirstBelow(dir, whole.1)
    ensures now.pending != [] && now.pending[0] != "" && now.pending[0] != "." && now.pending[0] != ".." ==>
              var c := now.resolved + [now.pending[0]];
              && (!pol.authorised(c) ==> whole.0 == Stopped(Unsupported))
              && (pol.authorised(c) && c in links && left == 0 ==> whole.0 == Cyclic)
              && (pol.authorised(c) && c in links && left > 0 && pol.onLink(c, links[c], now.pending[1..] != []).Stop? ==>
                    whole.0 == Stopped(pol.onLink(c, links[c], now.pending[1..] != []).verdict))
  {
  }
}
