/**
 How the kernel resolves a path, one component after the other, as evidence of its own: the walk of the worker reaches
 a path exactly when the kernel does so through permitted components, within the same number of links.
 */
module KernelPaths {
  import opened Prelude
  import opened PathWalk

  /** One way through a list of components: what was done with each of them in turn. */
  datatype Trip =
    | Arrived
    /** An empty component or a dot. */
    | Stay(rest: Trip)
    | Up(rest: Trip)
    /** A component that is no link. */
    | Down(rest: Trip)
    /** A link: its target leads to `middle`, where the trip goes on. */
    | Through(body: Trip, middle: Path, rest: Trip)

  function Hops(t: Trip): nat {
    match t
    case Arrived => 0
    case Stay(rest) => Hops(rest)
    case Up(rest) => Hops(rest)
    case Down(rest) => Hops(rest)
    case Through(body, _, rest) => 1 + Hops(body) + Hops(rest)
  }

  predicate IsName(part: string) {
    part != "" && part != "." && part != ".."
  }

  /**
   From directory `from`, the components lead to `to`. An absolute target starts at the root, a relative one in the
   directory that holds the link; `..` leaves the directory reached so far, and the root is its own parent.
   */
  predicate Takes(links: Links, pol: Policy, t: Trip, from: Path, parts: seq<string>, to: Path, more: bool) {
    match t
    case Arrived => parts == [] && to == from
    case Stay(rest) => parts != [] && (parts[0] == "" || parts[0] == ".") && Takes(links, pol, rest, from, parts[1..], to, more)
    case Up(rest) =>
      && parts != [] && parts[0] == ".."
      && (if |from| == 0 then Takes(links, pol, rest, from, parts[1..], to, more)
          else Takes(links, pol, rest, from[..|from| - 1], parts[1..], to, more))
    case Down(rest) =>
      && parts != [] && IsName(parts[0]) && from + [parts[0]] !in links && pol.authorised(from + [parts[0]])
      && Takes(links, pol, rest, from + [parts[0]], parts[1..], to, more)
    case Through(body, middle, rest) =>
      && parts != [] && IsName(parts[0]) && from + [parts[0]] in links && pol.authorised(from + [parts[0]])
      && var link := from + [parts[0]];
      && pol.onLink(link, links[link], |parts| > 1 || more).Follow?
      && (links[link].absolute ==> Takes(links, pol, body, [], links[link].parts, middle, |parts| > 1 || more))
      && (!links[link].absolute ==> Takes(links, pol, body, from, links[link].parts, middle, |parts| > 1 || more))
      && Takes(links, pol, rest, middle, parts[1..], to, more)
  }

  /** Resolvable within `left` links. */
  ghost predicate Resolved(links: Links, pol: Policy, from: Path, parts: seq<string>, to: Path, left: nat) {
    exists t :: Takes(links, pol, t, from, parts, to, false) && Hops(t) <= left
  }

  // ---------------------------------------------------------------- a trip is what the walk does

  /** One link resolved, and the rest behind it. */
  lemma NestedAtLink(links: Links, pol: Policy, from: Path, parts: seq<string>, left: nat, more: bool)
    requires parts != [] && IsName(parts[0]) && from + [parts[0]] in links
    ensures var c, rest := from + [parts[0]], parts[1..];
            var behind := |parts| > 1 || more;
            var n := Nested(links, pol, from, parts, left, more);
            if !(left > 0 && pol.authorised(c) && pol.onLink(c, links[c], behind).Follow?) then !n.0.Reached?
            else
              var first := Nested(links, pol, if links[c].absolute then [] else from, links[c].parts, left - 1, behind);
              if !first.0.Reached? then !n.0.Reached?
              else
                var on := Nested(links, pol, first.0.path, rest, left - 1 - |first.1|, more);
                n.0 == on.0 && |n.1| == 1 + |first.1| + |on.1|
  {
    assert parts[1..] != [] <==> |parts| > 1;
  }

  lemma {:induction false} TripIsNested(links: Links, pol: Policy, t: Trip, from: Path, parts: seq<string>, to: Path, left: nat, more: bool)
    requires Takes(links, pol, t, from, parts, to, more) && Hops(t) <= left
    ensures var n := Nested(links, pol, from, parts, left, more); n.0 == Reached(to) && |n.1| == Hops(t)
    decreases t, 1
  {
    match t
    case Arrived =>
    case Stay(rest) => TripIsNested(links, pol, rest, from, parts[1..], to, left, more);
    case Up(rest) => TripIsNested(links, pol, rest, Parent(from), parts[1..], to, left, more);
    case Down(rest) => TripIsNested(links, pol, rest, from + [parts[0]], parts[1..], to, left, more);
    case Through(_, _, _) => LinkTripIsNested(links, pol, t, from, parts, to, left, more);
  }

  lemma {:induction false} LinkTripIsNested(links: Links, pol: Policy, t: Trip, from: Path, parts: seq<string>, to: Path, left: nat, more: bool)
    requires t.Through? && Takes(links, pol, t, from, parts, to, more) && Hops(t) <= left
    ensures var n := Nested(links, pol, from, parts, left, more); n.0 == Reached(to) && |n.1| == Hops(t)
    decreases t, 0
  {
    hide Nested;
    var c, rest := from + [parts[0]], parts[1..];
    var start: Path := if links[c].absolute then [] else from;
    var behind := |parts| > 1 || more;
    NestedAtLink(links, pol, from, parts, left, more);
    TripIsNested(links, pol, t.body, start, links[c].parts, t.middle, left - 1, behind);
    TripIsNested(links, pol, t.rest, t.middle, rest, to, left - 1 - Hops(t.body), more);
  }

  lemma {:induction false} NestedIsTrip(links: Links, pol: Policy, from: Path, parts: seq<string>, left: nat, more: bool) returns (t: Trip)
    requires Nested(links, pol, from, parts, left, more).0.Reached?
    ensures var n := Nested(links, pol, from, parts, left, more);
            Takes(links, pol, t, from, parts, n.0.path, more) && Hops(t) == |n.1|
    decreases left, |parts|, 1
  {
    if parts == [] {
      t := Arrived;
    } else {
      var part, rest := parts[0], parts[1..];
      var c := from + [part];
      if part == "" || part == "." {
        t := NestedIsTrip(links, pol, from, rest, left, more);
        t := Stay(t);
      } else if part == ".." {
        t := NestedIsTrip(links, pol, Parent(from), rest, left, more);
        t := Up(t);
      } else if c !in links {
        t := NestedIsTrip(links, pol, c, rest, left, more);
        t := Down(t);
      } else {
        t := NestedLinkIsTrip(links, pol, from, parts, left, more);
      }
    }
  }

  lemma {:induction false} NestedLinkIsTrip(links: Links, pol: Policy, from: Path, parts: seq<string>, left: nat, more: bool) returns (t: Trip)
    requires parts != [] && IsName(parts[0]) && from + [parts[0]] in links
    requires Nested(links, pol, from, parts, left, more).0.Reached?
    ensures var n := Nested(links, pol, from, parts, left, more);
            Takes(links, pol, t, from, parts, n.0.path, more) && Hops(t) == |n.1|
    decreases left, |parts|, 0
  {
    hide Nested;
    var c, rest := from + [parts[0]], parts[1..];
    var behind := |parts| > 1 || more;
    NestedAtLink(links, pol, from, parts, left, more);
    var start: Path := if links[c].absolute then [] else from;
    var first := Nested(links, pol, start, links[c].parts, left - 1, behind);
    var body := NestedIsTrip(links, pol, start, links[c].parts, left - 1, behind);
    var on := NestedIsTrip(links, pol, first.0.path, rest, left - 1 - |first.1|, more);
    t := Through(body, first.0.path, on);
  }

  /** The spliced walk reaches a path exactly when the kernel does, through permitted components and within the budget. */
  lemma WalkIsKernel(links: Links, pol: Policy, from: Path, parts: seq<string>, to: Path, left: nat)
    ensures Walk(links, pol, from, parts, left).0 == Reached(to) <==> Resolved(links, pol, from, parts, to, left)
  {
    hide Walk, Nested, Takes;
    WalkIsNested(links, pol, from, parts, left);
    if Walk(links, pol, from, parts, left).0 == Reached(to) {
      var t := NestedIsTrip(links, pol, from, parts, left, false);
      NestedLength(links, pol, from, parts, left);
    }
    if t :| Takes(links, pol, t, from, parts, to, false) && Hops(t) <= left {
      TripIsNested(links, pol, t, from, parts, to, left, false);
    }
  }

  lemma NestedLength(links: Links, pol: Policy, from: Path, parts: seq<string>, left: nat)
    ensures |Nested(links, pol, from, parts, left, false).1| <= left
  {
  }
}
