/**
 The two users of the walk in `app/executors/openrouter_worker.py`, loops and all: the validator of a
 repository's interpreter chain and the check of an alias below the managed-Python root.
 */
module Interpreters {
  import opened Prelude
  import opened PathWalk
  import opened KernelPaths

  /** `path.relative_to(root)` succeeds. */
  predicate Within(path: Path, root: Path) {
    |root| <= |path| && path[..|root|] == root
  }

  predicate WithinAny(path: Path, roots: seq<Path>) {
    exists r | r in roots :: Within(path, r)
  }

  /** Inside a root, or on the way to one. */
  predicate Authorised(path: Path, roots: seq<Path>) {
    exists r | r in roots :: Within(path, r) || Within(r, path)
  }

  predicate HasLinkComponent(links: Links, cursor: Path, parts: seq<string>)
    decreases |parts|
  {
    if parts == [] then false
    else if parts[0] == "" || parts[0] == "." then HasLinkComponent(links, cursor, parts[1..])
    else if parts[0] == ".." then true
    else cursor + [parts[0]] in links || HasLinkComponent(links, cursor + [parts[0]], parts[1..])
  }

  /** An absolute target outside every root: tolerated only as the last hop, and only when it is a plain path. */
  function ValidatorHop(links: Links, roots: seq<Path>, t: Target, more: bool): Hop {
    if !t.absolute || WithinAny(t.parts, roots) || Authorised(t.parts, roots) then Follow
    else if more || HasLinkComponent(links, [], t.parts) || ".." in t.parts then Stop(Unsupported)
    else Stop(External)
  }

  function ValidatorPolicy(links: Links, roots: seq<Path>): Policy {
    Policy(p => Authorised(p, roots), (c, t, more) => ValidatorHop(links, roots, t, more))
  }

  function Validated(links: Links, roots: seq<Path>, interpreter: Path): Outcome {
    if !WithinAny(interpreter, roots) then
      if HasLinkComponent(links, [], interpreter) || ".." in interpreter then Stopped(Unsupported) else Stopped(External)
    else Walk(links, ValidatorPolicy(links, roots), [], interpreter, MAX_LINKS).0
  }

  lemma AuthorisedClosed(p: Path, k: nat, roots: seq<Path>)
    requires k <= |p| && Authorised(p, roots)
    ensures Authorised(p[..k], roots)
  {
    var r :| r in roots && (Within(p, r) || Within(r, p));
    if Within(p, r) {
      if k >= |r| {
        assert p[..k][..|r|] == r;
      } else {
        assert r[..k] == p[..k];
      }
    } else {
      assert r[..k] == p[..k];
    }
  }

  lemma ValidatorIsClosed(links: Links, roots: seq<Path>)
    ensures ClosedUnderParent(ValidatorPolicy(links, roots))
  {
    var pol := ValidatorPolicy(links, roots);
    forall p: Path, k: nat | k <= |p| && pol.authorised(p) ensures pol.authorised(p[..k]) {
      AuthorisedClosed(p, k, roots);
    }
  }

  /** `_validate_repo_venv_python_chain` on an absolute path. */
  method ValidateChain(links: Links, roots: seq<Path>, interpreter: Path) returns (outcome: Outcome)
    requires [] !in links
    ensures outcome == Validated(links, roots, interpreter)
    ensures outcome.Reached? ==> LinkFree(links, outcome.path) && Authorised(outcome.path, roots)
  {
    hide Walk, Underway, LinkFree, HasLinkComponent, Authorised, WithinAny, Good, ClosedUnderParent;
    if !WithinAny(interpreter, roots) {
      if HasLinkComponent(links, [], interpreter) || ".." in interpreter { return Stopped(Unsupported); }
      return Stopped(External);
    }
    ghost var pol := ValidatorPolicy(links, roots);
    ghost var whole := Walk(links, pol, [], interpreter, MAX_LINKS);
    ValidatorIsClosed(links, roots);
    var pending, resolved: Path, count := interpreter, [], 0;
    var seen: set<State> := {};
    ghost var came: map<State, nat> := map[];
    ghost var found: Option<Path> := None;
    RootAuthorised(links, roots, interpreter);
    SetOut(links, pol, [], State(resolved, pending), MAX_LINKS);
    while pending != []
      invariant 0 <= count <= MAX_LINKS
      invariant Good(links, pol, resolved)
      invariant came.Keys == seen && Underway(links, pol, [], whole, came, State(resolved, pending), MAX_LINKS - count, found)
      decreases MAX_LINKS - count, |pending|
    {
      ghost var left, now := MAX_LINKS - count, State(resolved, pending);
      if State(resolved, pending) in seen {
        SeenAgain(links, pol, [], whole, came, now, left, found);
        return Cyclic;
      }
      seen := seen + {State(resolved, pending)};
      Ending(links, pol, [], whole, came, now, left, found);
      var part := pending[0];
      pending := pending[1..];
      if part == "" || part == "." {
        PlainTurn(links, pol, [], whole, came, now, left, found, State(resolved, pending));
      } else if part == ".." {
        ParentStaysGood(links, pol, resolved);
        resolved := if resolved != [] then resolved[..|resolved| - 1] else resolved;
        PlainTurn(links, pol, [], whole, came, now, left, found, State(resolved, pending));
        GoodParts(links, pol, resolved);
        // the parent of an authorised path is authorised
        if !Authorised(resolved, roots) {
          assert false;
          return Stopped(Unsupported);
        }
      } else {
        var candidate := resolved + [part];
        if !Authorised(candidate, roots) { return Stopped(Unsupported); }
        if candidate in links {
          count := count + 1;
          if count > MAX_LINKS { return Cyclic; }
          var target := links[candidate];
          RootIsGood(links, pol, resolved);
          if target.absolute {
            if !WithinAny(target.parts, roots) && !Authorised(target.parts, roots) {
              if pending != [] || HasLinkComponent(links, [], target.parts) || ".." in target.parts {
                return Stopped(Unsupported);
              }
              return Stopped(External);
            }
            resolved := [];
          }
          LinkTurn(links, pol, [], whole, came, now, left, found, candidate, State(resolved, target.parts + pending));
          pending := target.parts + pending;
          if found.None? && Parent(candidate) == [] { found := Some(candidate); }
        } else {
          ChildIsGood(links, pol, resolved, part);
          resolved := candidate;
          PlainTurn(links, pol, [], whole, came, now, left, found, State(resolved, pending));
        }
      }
      came := came[now := left];
    }
    Ending(links, pol, [], whole, came, State(resolved, pending), MAX_LINKS - count, found);
    GoodParts(links, pol, resolved);
    outcome := Reached(resolved);
  }

  lemma RootAuthorised(links: Links, roots: seq<Path>, interpreter: Path)
    requires [] !in links && WithinAny(interpreter, roots)
    ensures Good(links, ValidatorPolicy(links, roots), [])
  {
    var r :| r in roots && Within(interpreter, r);
    var root: Path := [];
    assert Within(r, root);
    assert root[..0] == root;
  }

  // ---------------------------------------------------------------- the alias check

  /** Links right below the managed root must lead to the verified prefix; `realPath` resolves strictly. */
  function AliasPolicy(repo: Path, uv: Path, prefix: Path, realPath: Path -> Option<Path>): Policy {
    Policy(p => Authorised(p, [repo, uv]),
           (c, t, more) => if Parent(c) == uv && realPath(c) != Some(prefix) then Stop(Mismatch) else Follow)
  }

  /** `bin/python...` directly below the verified prefix. */
  predicate IsInterpreter(path: Path, prefix: Path) {
    && Within(path, prefix) && |path| == |prefix| + 2
    && path[|prefix|] == "bin"
    && |path[|prefix| + 1]| >= 6 && path[|prefix| + 1][..6] == "python"
  }

  datatype Alias = Prefix(path: Path) | Rejected(cyclic: bool)

  /** The first alias followed, or the verified prefix itself. */
  function Verified(links: Links, repo: Path, uv: Path, prefix: Path, realPath: Path -> Option<Path>, interpreter: Path): Alias {
    var w := Walk(links, AliasPolicy(repo, uv, prefix, realPath), [], interpreter, MAX_LINKS);
    if !w.0.Reached? then Rejected(w.0.Cyclic?)
    else if !IsInterpreter(w.0.path, prefix) then Rejected(false)
    else Prefix(OrElse(FirstBelow(uv, w.1), Some(prefix)).value)
  }

  /** `_verified_uv_alias_prefix` on an absolute path. */
  method VerifiedAliasPrefix(links: Links, repo: Path, uv: Path, prefix: Path, realPath: Path -> Option<Path>, interpreter: Path)
    returns (r: Alias)
    ensures r == Verified(links, repo, uv, prefix, realPath, interpreter)
  {
    hide Walk, Underway, FirstBelow, Authorised, IsInterpreter;
    ghost var pol := AliasPolicy(repo, uv, prefix, realPath);
    ghost var whole := Walk(links, pol, [], interpreter, MAX_LINKS);
    var pending, resolved: Path, count := interpreter, [], 0;
    var alias: Option<Path> := None;
    var seen: set<State> := {};
    ghost var came: map<State, nat> := map[];
    SetOut(links, pol, uv, State(resolved, pending), MAX_LINKS);
    while pending != []
      invariant 0 <= count <= MAX_LINKS
      invariant came.Keys == seen && Underway(links, pol, uv, whole, came, State(resolved, pending), MAX_LINKS - count, alias)
      decreases MAX_LINKS - count, |pending|
    {
      ghost var left, now := MAX_LINKS - count, State(resolved, pending);
      if State(resolved, pending) in seen {
        SeenAgain(links, pol, uv, whole, came, now, left, alias);
        return Rejected(true);
      }
      seen := seen + {State(resolved, pending)};
      Ending(links, pol, uv, whole, came, now, left, alias);
      var part := pending[0];
      pending := pending[1..];
      if part == "" || part == "." {
        PlainTurn(links, pol, uv, whole, came, now, left, alias, State(resolved, pending));
      } else if part == ".." {
        resolved := if resolved != [] then resolved[..|resolved| - 1] else resolved;
        PlainTurn(links, pol, uv, whole, came, now, left, alias, State(resolved, pending));
      } else {
        var candidate := resolved + [part];
        if !Authorised(candidate, [repo, uv]) { return Rejected(false); }
        if candidate in links {
          count := count + 1;
          if count > MAX_LINKS { return Rejected(true); }
          ghost var before := alias;
          if Parent(candidate) == uv {
            if realPath(candidate) != Some(prefix) { return Rejected(false); }
            if alias.None? { alias := Some(candidate); }
          }
          var target := links[candidate];
          pending := target.parts + pending;
          if target.absolute { resolved := []; }
          LinkTurn(links, pol, uv, whole, came, now, left, before, candidate, State(resolved, pending));
        } else {
          resolved := candidate;
          PlainTurn(links, pol, uv, whole, came, now, left, alias, State(resolved, pending));
        }
      }
      came := came[now := left];
    }
    Ending(links, pol, uv, whole, came, State(resolved, pending), MAX_LINKS - count, alias);
    if !IsInterpreter(resolved, prefix) { return Rejected(false); }
    r := Prefix(if alias.Some? then alias.value else prefix);
  }

  /** Every alias on the way was checked. */
  lemma {:induction false} AliasesLeadToPrefix(links: Links, repo: Path, uv: Path, prefix: Path, realPath: Path -> Option<Path>,
                                               resolved: Path, pending: seq<string>, left: nat)
    ensures forall c | c in Walk(links, AliasPolicy(repo, uv, prefix, realPath), resolved, pending, left).1 && Parent(c) == uv
              :: realPath(c) == Some(prefix)
    decreases left, |pending|
  {
    hide Authorised;
    var pol := AliasPolicy(repo, uv, prefix, realPath);
    if pending != [] {
      var part, rest := pending[0], pending[1..];
      if part == "" || part == "." {
        AliasesLeadToPrefix(links, repo, uv, prefix, realPath, resolved, rest, left);
      } else if part == ".." {
        AliasesLeadToPrefix(links, repo, uv, prefix, realPath, Parent(resolved), rest, left);
      } else {
        var c := resolved + [part];
        if pol.authorised(c) && c !in links {
          AliasesLeadToPrefix(links, repo, uv, prefix, realPath, c, rest, left);
        } else if pol.authorised(c) && left > 0 && pol.onLink(c, links[c], rest != []).Follow? {
          AliasesLeadToPrefix(links, repo, uv, prefix, realPath, Start(resolved, links[c]), links[c].parts + rest, left - 1);
        }
      }
    }
  }

  /** From `from`, the components lead to `to` when links are simply followed, however many there are. */
  ghost predicate Leads(links: Links, from: Path, parts: seq<string>, to: Path) {
    exists n: nat :: Walk(links, FREE, from, parts, n).0 == Reached(to)
  }

  /** `Path.resolve(strict=True)`: where links lead to, for a path that exists. */
  ghost predicate Resolves(links: Links, realPath: Path -> Option<Path>) {
    forall c | realPath(c).Some? :: Leads(links, [], c, realPath(c).value)
  }

  /** An accepted interpreter really is one below the verified prefix, and every alias used to get there leads to it. */
  lemma AcceptedIsBelowPrefix(links: Links, repo: Path, uv: Path, prefix: Path, realPath: Path -> Option<Path>, interpreter: Path)
    requires [] !in links && Verified(links, repo, uv, prefix, realPath, interpreter).Prefix?
    ensures var w := Walk(links, FREE, [], interpreter, MAX_LINKS);
            && w.0.Reached? && IsInterpreter(w.0.path, prefix) && LinkFree(links, w.0.path)
            && (forall c | c in w.1 && Parent(c) == uv :: realPath(c) == Some(prefix) && (Resolves(links, realPath) ==> Leads(links, [], c, prefix)))
            && var alias := Verified(links, repo, uv, prefix, realPath, interpreter).path;
               FirstIn(alias, uv, w.1) || (alias == prefix && forall c | c in w.1 :: Parent(c) != uv)
  {
    hide Walk, IsInterpreter, Leads;
    var pol := AliasPolicy(repo, uv, prefix, realPath);
    forall p: Path, k: nat | k <= |p| && pol.authorised(p) ensures pol.authorised(p[..k]) {
      AuthorisedClosed(p, k, [repo, uv]);
    }
    var root: Path := [];
    assert Within(repo, root) && repo in [repo, uv] && root[..0] == root;
    assert Good(links, pol, root);
    ReachedIsGood(links, pol, [], interpreter, MAX_LINKS);
    PolicyOnlyStops(links, pol, [], interpreter, MAX_LINKS);
    AliasesLeadToPrefix(links, repo, uv, prefix, realPath, [], interpreter, MAX_LINKS);
    FirstIsThere(uv, Walk(links, pol, [], interpreter, MAX_LINKS).1);
  }

  /** The first of the followed links that lies right below `dir`. */
  ghost predicate FirstIn(c: Path, dir: Path, followed: seq<Path>) {
    Parent(c) == dir && exists k :: 0 <= k < |followed| && followed[k] == c && forall j | 0 <= j < k :: Parent(followed[j]) != dir
  }

  lemma {:induction false} FirstIsThere(dir: Path, followed: seq<Path>)
    ensures FirstBelow(dir, followed).Some? ==> FirstIn(FirstBelow(dir, followed).value, dir, followed)
    ensures FirstBelow(dir, followed).None? ==> forall c | c in followed :: Parent(c) != dir
  {
    if followed != [] {
      var rest := followed[1..];
      if Parent(followed[0]) == dir {
        assert followed[0] == FirstBelow(dir, followed).value;
      } else {
        FirstIsThere(dir, rest);
        assert forall j | 0 < j < |followed| :: followed[j] == rest[j - 1];
      }
    }
  }

  /** Without a policy it does not matter whether components are still pending. */
  lemma {:induction false} FreeIgnoresMore(links: Links, resolved: Path, parts: seq<string>, left: nat, more: bool)
    ensures Nested(links, FREE, resolved, parts, left, more) == Nested(links, FREE, resolved, parts, left, false)
    decreases left, |parts|
  {
    if parts != [] {
      var part, rest := parts[0], parts[1..];
      if part == "" || part == "." {
        FreeIgnoresMore(links, resolved, rest, left, more);
      } else if part == ".." {
        FreeIgnoresMore(links, Parent(resolved), rest, left, more);
      } else {
        var c := resolved + [part];
        if c !in links {
          FreeIgnoresMore(links, c, rest, left, more);
        } else if left > 0 {
          var s := Start(resolved, links[c]);
          FreeIgnoresMore(links, s, links[c].parts, left - 1, rest != [] || more);
          FreeIgnoresMore(links, s, links[c].parts, left - 1, rest != []);
          var t := Nested(links, FREE, s, links[c].parts, left - 1, false);
          if t.0.Reached? {
            FreeIgnoresMore(links, t.0.path, rest, left - 1 - |t.1|, more);
          }
        }
      }
    }
  }

  /** Where a path leads is unique. */
  lemma LeadsToOne(links: Links, from: Path, parts: seq<string>, n: nat, m: nat)
    requires Walk(links, FREE, from, parts, n).0.Reached? && Walk(links, FREE, from, parts, m).0.Reached?
    ensures Walk(links, FREE, from, parts, n) == Walk(links, FREE, from, parts, m)
  {
    LargerBudget(links, FREE, from, parts, n, n + m);
    LargerBudget(links, FREE, from, parts, m, n + m);
  }

  /** What an alias is mounted for: everything behind it is what is behind the prefix it leads to. */
  lemma AliasStandsForPrefix(links: Links, alias: Path, prefix: Path, rest: seq<string>, to: Path)
    requires Leads(links, [], alias, prefix)
    ensures Leads(links, [], alias + rest, to) <==> Leads(links, prefix, rest, to)
  {
    hide Walk, Nested;
    var k: nat :| Walk(links, FREE, [], alias, k).0 == Reached(prefix);
    if n: nat :| Walk(links, FREE, [], alias + rest, n).0 == Reached(to) {
      SpliceIsNesting(links, FREE, [], alias, rest, n);
      FreeIgnoresMore(links, [], alias, n, rest != []);
      WalkIsNested(links, FREE, [], alias, n);
      LeadsToOne(links, [], alias, k, n);
      assert Walk(links, FREE, prefix, rest, n - |Walk(links, FREE, [], alias, n).1|).0 == Reached(to);
    }
    if n: nat :| Walk(links, FREE, prefix, rest, n).0 == Reached(to) {
      var m := k + n;
      LargerBudget(links, FREE, [], alias, k, m);
      SpliceIsNesting(links, FREE, [], alias, rest, m);
      FreeIgnoresMore(links, [], alias, m, rest != []);
      WalkIsNested(links, FREE, [], alias, k);
      WalkIsNested(links, FREE, [], alias, m);
      LargerBudget(links, FREE, prefix, rest, n, m - |Walk(links, FREE, [], alias, k).1|);
      assert Walk(links, FREE, [], alias + rest, m).0 == Reached(to);
    }
  }

  // ---------------------------------------------------------------- what the verdicts mean

  /** Accepted inside the roots: the kernel reaches this very path, within 40 links and through permitted components only. */
  lemma ValidatedIsKernelPath(links: Links, roots: seq<Path>, interpreter: Path, p: Path)
    ensures Validated(links, roots, interpreter) == Reached(p)
       <==> WithinAny(interpreter, roots) && Resolved(links, ValidatorPolicy(links, roots), [], interpreter, p, 40)
  {
    hide Walk, Takes;
    WalkIsKernel(links, ValidatorPolicy(links, roots), [], interpreter, p, 40);
  }

  /** The alias check accepts exactly when the kernel reaches an interpreter of the prefix through components and links it permits. */
  lemma VerifiedIsKernelPath(links: Links, repo: Path, uv: Path, prefix: Path, realPath: Path -> Option<Path>, interpreter: Path)
    ensures Verified(links, repo, uv, prefix, realPath, interpreter).Prefix?
       <==> exists p :: Resolved(links, AliasPolicy(repo, uv, prefix, realPath), [], interpreter, p, 40) && IsInterpreter(p, prefix)
  {
    hide Walk, Takes, IsInterpreter, Resolved;
    var pol := AliasPolicy(repo, uv, prefix, realPath);
    forall p ensures Walk(links, pol, [], interpreter, 40).0 == Reached(p) <==> Resolved(links, pol, [], interpreter, p, 40) {
      WalkIsKernel(links, pol, [], interpreter, p, 40);
    }
    var w := Walk(links, pol, [], interpreter, 40).0;
    if w.Reached? {
      assert Resolved(links, pol, [], interpreter, w.path, 40);
    }
  }

  /** The components that are names. */
  function Tidy(parts: seq<string>): Path {
    if parts == [] then []
    else if parts[0] == "" || parts[0] == "." then Tidy(parts[1..])
    else [parts[0]] + Tidy(parts[1..])
  }

  lemma {:induction false} PlainIsReached(links: Links, cursor: Path, parts: seq<string>, left: nat)
    requires !HasLinkComponent(links, cursor, parts)
    ensures Walk(links, FREE, cursor, parts, left) == (Reached(cursor + Tidy(parts)), [])
    decreases |parts|
  {
    if parts == [] {
      assert cursor + [] == cursor;
    } else if parts[0] == "" || parts[0] == "." {
      PlainIsReached(links, cursor, parts[1..], left);
    } else {
      PlainIsReached(links, cursor + [parts[0]], parts[1..], left);
      assert cursor + [parts[0]] + Tidy(parts[1..]) == cursor + ([parts[0]] + Tidy(parts[1..]));
    }
  }

  /** A path outside every root that no link takes part in. */
  predicate Outside(links: Links, roots: seq<Path>, path: Path) {
    !WithinAny(path, roots) && !HasLinkComponent(links, [], path) && ".." !in path
  }

  lemma {:induction false} ExternalWalk(links: Links, roots: seq<Path>, resolved: Path, pending: seq<string>, left: nat) returns (target: Path)
    requires Walk(links, ValidatorPolicy(links, roots), resolved, pending, left).0 == Stopped(External)
    ensures Outside(links, roots, target) && Walk(links, FREE, resolved, pending, left).0 == Reached(Tidy(target))
    decreases left, |pending|
  {
    hide Authorised, WithinAny, HasLinkComponent;
    var pol := ValidatorPolicy(links, roots);
    var part, rest := pending[0], pending[1..];
    var c := resolved + [part];
    if part == "" || part == "." {
      target := ExternalWalk(links, roots, resolved, rest, left);
    } else if part == ".." {
      target := ExternalWalk(links, roots, Parent(resolved), rest, left);
    } else if c !in links {
      target := ExternalWalk(links, roots, c, rest, left);
    } else if pol.onLink(c, links[c], rest != []).Follow? {
      target := ExternalWalk(links, roots, Start(resolved, links[c]), links[c].parts + rest, left - 1);
    } else {
      target := links[c].parts;
      assert target + rest == target;
      PlainIsReached(links, [], target, left - 1);
      assert [] + Tidy(target) == Tidy(target);
    }
  }

  /** Accepted as external: within 40 links the kernel ends at a plain path outside every root. */
  lemma ExternalIsKernelPath(links: Links, roots: seq<Path>, interpreter: Path) returns (target: Path)
    requires Validated(links, roots, interpreter) == Stopped(External)
    ensures Outside(links, roots, target) && Resolved(links, FREE, [], interpreter, Tidy(target), 40)
  {
    hide Walk, Takes, Tidy, HasLinkComponent;
    if WithinAny(interpreter, roots) {
      target := ExternalWalk(links, roots, [], interpreter, 40);
    } else {
      target := interpreter;
      PlainIsReached(links, [], interpreter, 40);
      assert [] + Tidy(target) == Tidy(target);
    }
    WalkIsKernel(links, FREE, [], interpreter, Tidy(target), 40);
  }
}
