/**
 Which interpreters the validator lets pass as external: those whose last hop, and no other, is a link to a plain path
 outside every root.
 */
module ExternalTargets {
  import opened Prelude
  import opened PathWalk
  import opened KernelPaths
  import opened Interpreters

  /** The way to the last link of a path: to the directory of the last component, and on through its target if that is a link to follow. */
  datatype Approach = At(way: Trip) | Via(way: Trip, middle: Path, next: Approach)

  function Crossed(a: Approach): nat {
    match a
    case At(way) => Hops(way)
    case Via(way, _, next) => Hops(way) + 1 + Crossed(next)
  }

  /** The kernel comes to the permitted link `c` with no component left behind it. */
  predicate Approaches(links: Links, pol: Policy, a: Approach, from: Path, parts: seq<string>, c: Path) {
    && parts != []
    && var name := parts[|parts| - 1];
    && IsName(name)
    && match a
       case At(way) =>
         && c != [] && c[|c| - 1] == name && Takes(links, pol, way, from, parts[..|parts| - 1], c[..|c| - 1], true)
         && pol.authorised(c) && c in links
       case Via(way, middle, next) =>
         && Takes(links, pol, way, from, parts[..|parts| - 1], middle, true)
         && pol.authorised(middle + [name]) && middle + [name] in links
         && var t := links[middle + [name]];
         && pol.onLink(middle + [name], t, false).Follow?
         && Approaches(links, pol, next, if t.absolute then [] else middle, t.parts, c)
  }

  /** A target the validator neither follows nor refuses: a plain path outside every root and on the way to none. */
  predicate Tolerated(links: Links, roots: seq<Path>, t: Target) {
    t.absolute && Outside(links, roots, t.parts) && !Authorised(t.parts, roots)
  }

  ghost predicate EndsOutside(links: Links, roots: seq<Path>, from: Path, parts: seq<string>, left: nat) {
    exists a, c :: Approaches(links, ValidatorPolicy(links, roots), a, from, parts, c) && c in links
                   && Crossed(a) < left && Tolerated(links, roots, links[c])
  }

  /** Nothing is external while components are pending. */
  lemma {:induction false} NotInTheMiddle(links: Links, roots: seq<Path>, from: Path, parts: seq<string>, left: nat)
    ensures Nested(links, ValidatorPolicy(links, roots), from, parts, left, true).0 != Stopped(External)
    decreases left, |parts|
  {
    hide Authorised, WithinAny, HasLinkComponent;
    var pol := ValidatorPolicy(links, roots);
    if parts != [] {
      var part, rest := parts[0], parts[1..];
      var c := from + [part];
      if part == "" || part == "." {
        NotInTheMiddle(links, roots, from, rest, left);
      } else if part == ".." {
        NotInTheMiddle(links, roots, Parent(from), rest, left);
      } else if c !in links {
        NotInTheMiddle(links, roots, c, rest, left);
      } else if left > 0 {
        var t := Nested(links, pol, Start(from, links[c]), links[c].parts, left - 1, true);
        NotInTheMiddle(links, roots, Start(from, links[c]), links[c].parts, left - 1);
        if t.0.Reached? {
          NotInTheMiddle(links, roots, t.0.path, rest, left - 1 - |t.1|);
        }
      }
    }
  }

  /** The walk up to the last component, and the last component. */
  lemma LastComponent(links: Links, pol: Policy, from: Path, parts: seq<string>, left: nat)
    requires parts != []
    ensures var n := Nested(links, pol, from, parts[..|parts| - 1], left, true);
            Walk(links, pol, from, parts, left).0
              == if n.0.Reached? then Walk(links, pol, n.0.path, [parts[|parts| - 1]], left - |n.1|).0 else n.0
  {
    hide Walk, Nested;
    var front, last := parts[..|parts| - 1], [parts[|parts| - 1]];
    assert parts == front + last;
    SpliceIsNesting(links, pol, from, front, last, left);
  }

  lemma WalkOne(links: Links, pol: Policy, d: Path, name: string, left: nat)
    requires IsName(name)
    ensures var c := d + [name];
            Walk(links, pol, d, [name], left).0
              == if !pol.authorised(c) then Stopped(Unsupported)
                 else if c !in links then Reached(c)
                 else if left == 0 then Cyclic
                 else if pol.onLink(c, links[c], false).Stop? then Stopped(pol.onLink(c, links[c], false).verdict)
                 else Walk(links, pol, Start(d, links[c]), links[c].parts, left - 1).0
  {
    var c := d + [name];
    if pol.authorised(c) && c in links && left > 0 {
      assert links[c].parts + [] == links[c].parts;
    }
  }

  /** A link is followed unless its target is absolute and away from every root; of those only the last may be tolerated. */
  lemma HopWhen(links: Links, roots: seq<Path>, t: Target, more: bool)
    ensures var hop := ValidatorHop(links, roots, t, more);
            && (hop.Follow? <==> !t.absolute || exists r | r in roots :: Within(t.parts, r) || Within(r, t.parts))
            && (hop == Stop(External) <==> !more && Tolerated(links, roots, t))
            && (hop.Follow? || hop == Stop(External) || hop == Stop(Unsupported))
  {
    hide HasLinkComponent;
    assert WithinAny(t.parts, roots) ==> Authorised(t.parts, roots);
  }

  lemma {:induction false} ExternalEnds(links: Links, roots: seq<Path>, from: Path, parts: seq<string>, left: nat)
    returns (a: Approach, c: Path)
    requires Walk(links, ValidatorPolicy(links, roots), from, parts, left).0 == Stopped(External)
    ensures Approaches(links, ValidatorPolicy(links, roots), a, from, parts, c) && c in links
    ensures Crossed(a) < left && Tolerated(links, roots, links[c])
    decreases left
  {
    hide Authorised, Outside, HasLinkComponent, WithinAny, Takes, Nested, Tolerated;
    var pol := ValidatorPolicy(links, roots);
    var front, name := parts[..|parts| - 1], parts[|parts| - 1];
    LastComponent(links, pol, from, parts, left);
    NotInTheMiddle(links, roots, from, front, left);
    var n := Nested(links, pol, from, front, left, true);
    var d := n.0.path;
    var way := NestedIsTrip(links, pol, from, front, left, true);
    assert IsName(name);
    var spare := left - |n.1|;
    WalkOne(links, pol, d, name, spare);
    var l := d + [name];
    HopWhen(links, roots, links[l], false);
    if pol.onLink(l, links[l], false).Stop? {
      a, c := At(way), l;
      assert c[..|c| - 1] == d;
    } else {
      var next;
      next, c := ExternalEnds(links, roots, Start(d, links[l]), links[l].parts, spare - 1);
      a := Via(way, d, next);
    }
  }

  lemma {:induction false} EndsExternal(links: Links, roots: seq<Path>, a: Approach, from: Path, parts: seq<string>, c: Path, left: nat)
    requires Approaches(links, ValidatorPolicy(links, roots), a, from, parts, c) && c in links
    requires Crossed(a) < left && Tolerated(links, roots, links[c])
    ensures Walk(links, ValidatorPolicy(links, roots), from, parts, left).0 == Stopped(External)
    decreases a
  {
    hide Authorised, Outside, HasLinkComponent, WithinAny, Takes, Nested, Tolerated, Walk;
    var pol := ValidatorPolicy(links, roots);
    var front, name := parts[..|parts| - 1], parts[|parts| - 1];
    LastComponent(links, pol, from, parts, left);
    var d := if a.At? then c[..|c| - 1] else a.middle;
    TripIsNested(links, pol, a.way, from, front, d, left, true);
    var spare := left - Hops(a.way);
    WalkOne(links, pol, d, name, spare);
    match a
    case At(way) =>
      assert d + [name] == c;
      HopWhen(links, roots, links[c], false);
    case Via(way, middle, next) =>
      EndsExternal(links, roots, next, Start(d, links[d + [name]]), links[d + [name]].parts, c, spare - 1);
  }

  /** Accepted as external exactly when the interpreter is a plain path outside every root, or its last hop leads to one. */
  lemma ExternalExactlyWhen(links: Links, roots: seq<Path>, interpreter: Path)
    ensures Validated(links, roots, interpreter) == Stopped(External)
       <==> if WithinAny(interpreter, roots) then EndsOutside(links, roots, [], interpreter, 40) else Outside(links, roots, interpreter)
  {
    hide Walk, HasLinkComponent, Approaches, Tolerated;
    var pol := ValidatorPolicy(links, roots);
    if WithinAny(interpreter, roots) {
      if Walk(links, pol, [], interpreter, 40).0 == Stopped(External) {
        var a, c := ExternalEnds(links, roots, [], interpreter, 40);
      }
      if EndsOutside(links, roots, [], interpreter, 40) {
        var a, c :| Approaches(links, pol, a, [], interpreter, c) && c in links && Crossed(a) < 40 && Tolerated(links, roots, links[c]);
        EndsExternal(links, roots, a, [], interpreter, c, 40);
      }
    }
  }
}
