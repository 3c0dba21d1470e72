/** What change plans promise: one simultaneous update in any order, a stable plan identity, and idempotence. */
module ChangeLaws {
  import opened Prelude
  import opened ChangeSpec
  import Text

  // ---------------------------------------------------------------- plans

  /** The path crosses no link and its parent is a directory. */
  predicate Placed(t: Tree, p: Path) {
    p != [] && !CrossesLink(t, p) && IsDir(t, ParentOf(p))
  }

  /** No path takes part in two operations, and none is listed twice. */
  ghost predicate Separate(ops: seq<Operation>) {
    && (forall a, b | a in ops && b in ops && a != b :: PathsOf(a) !! PathsOf(b))
    && (forall a | a in ops :: multiset(ops)[a] == 1)
  }

  /** A normalised plan whose preconditions hold. */
  ghost predicate Applicable(t: Tree, ops: seq<Operation>, tracked: set<Path>, hash: Hash) {
    && Separate(ops)
    && AllReady(t, ops, tracked, hash)
    && (forall op, p | op in ops && p in PathsOf(op) :: Placed(t, p))
  }

  predicate Mentions(ops: seq<Operation>, p: Path) {
    exists op | op in ops :: p in PathsOf(op)
  }

  predicate SameAt(t: Tree, u: Tree, p: Path) {
    (p in t <==> p in u) && (p in t ==> t[p] == u[p])
  }

  /** What one operation makes of its own paths, given the tree before the whole plan. */
  predicate Done(t: Tree, u: Tree, op: Operation) {
    match op
    case Create(p, c) => p in u && u[p] == File(c, DEFAULT_MODE)
    case Update(p, c, _) => p in u && u[p] == File(c, ModeAt(t, p))
    case Delete(p, _) => p !in u
    case Rename(s, d, _) => s !in u && s in t && d in u && u[d] == t[s]
  }

  /** The simultaneous update: every operation done, every other path as before. */
  ghost predicate Accomplished(t: Tree, u: Tree, ops: seq<Operation>) {
    && (forall op | op in ops :: Done(t, u, op))
    && (forall p | !Mentions(ops, p) :: SameAt(t, u, p))
  }

  /** Directories and links stay where they are. */
  ghost predicate SameSkeleton(t: Tree, u: Tree) {
    forall p: Path :: (p in t && !t[p].File? ==> SameAt(t, u, p)) && (p in u && !u[p].File? ==> SameAt(t, u, p))
  }

  // ---------------------------------------------------------------- applying in order

  lemma OwnPaths(op: Operation)
    ensures if op.Rename? then op.source in PathsOf(op) && op.destination in PathsOf(op) else op.path in PathsOf(op)
  {
  }

  lemma LinkCrosses(t: Tree, p: Path)
    ensures p != [] && p in t && t[p].Link? ==> CrossesLink(t, p)
  {
    assert p[..|p|] == p;
  }

  /** A path that may be created is free, a path that is changed holds a file. */
  lemma ReadyShape(t: Tree, op: Operation, tracked: set<Path>, hash: Hash)
    requires Ready(t, op, tracked, hash) && forall p | p in PathsOf(op) :: Placed(t, p)
    ensures op.Create? ==> op.path !in t
    ensures op.Update? || op.Delete? ==> op.path in t && t[op.path].File?
    ensures op.Rename? ==> op.source in t && t[op.source].File? && op.destination !in t && op.source != op.destination
  {
    OwnPaths(op);
    forall p | p in PathsOf(op) ensures p != [] && (p in t ==> !t[p].Link?) {
      LinkCrosses(t, p);
    }
  }

  lemma OneDone(t: Tree, op: Operation, tracked: set<Path>, hash: Hash)
    requires Ready(t, op, tracked, hash) && forall p | p in PathsOf(op) :: Placed(t, p)
    ensures ApplyOne(t, op).Some?
    ensures var u := ApplyOne(t, op).value;
            && Done(t, u, op) && SameSkeleton(t, u)
            && (forall p | p !in PathsOf(op) :: SameAt(t, u, p))
  {
    ReadyShape(t, op, tracked, hash);
    OwnPaths(op);
  }

  lemma SkeletonKeepsPlaces(t: Tree, u: Tree, p: Path)
    requires SameSkeleton(t, u)
    ensures IsDir(t, p) <==> IsDir(u, p)
    ensures CrossesLink(t, p) <==> CrossesLink(u, p)
    ensures Placed(t, p) <==> Placed(u, p)
  {
    assert forall k | 0 < k <= |p| :: (p[..k] in t && t[p[..k]].Link?) <==> (p[..k] in u && u[p[..k]].Link?);
    assert forall q: Path :: IsDir(t, q) <==> IsDir(u, q);
  }

  lemma ReadyElsewhere(t: Tree, u: Tree, op: Operation, tracked: set<Path>, hash: Hash)
    requires Ready(t, op, tracked, hash) && forall p | p in PathsOf(op) :: SameAt(t, u, p)
    ensures Ready(u, op, tracked, hash)
  {
    OwnPaths(op);
  }

  lemma DoneElsewhere(s: Tree, t: Tree, u: Tree, op: Operation)
    requires Done(t, u, op) && forall p | p in PathsOf(op) :: SameAt(s, t, p)
    ensures Done(s, u, op)
  {
    OwnPaths(op);
  }

  lemma DoneStays(s: Tree, t: Tree, u: Tree, op: Operation)
    requires Done(s, t, op) && forall p | p in PathsOf(op) :: SameAt(t, u, p)
    ensures Done(s, u, op)
  {
    OwnPaths(op);
  }

  lemma SeparateRest(ops: seq<Operation>)
    requires Separate(ops) && ops != []
    ensures Separate(ops[1..]) && ops[0] !in ops[1..]
    ensures forall op | op in ops[1..] :: op in ops && PathsOf(ops[0]) !! PathsOf(op)
  {
    var first, rest := ops[0], ops[1..];
    assert ops == [first] + rest;
    assert multiset(ops) == multiset([first]) + multiset(rest);
    assert multiset(ops)[first] == 1 + multiset(rest)[first];
    forall a | a in rest ensures multiset(rest)[a] == 1 {
      assert multiset(rest)[a] >= 1 && multiset(ops)[a] == 1;
    }
  }

  lemma RestApplicable(t: Tree, u: Tree, ops: seq<Operation>, tracked: set<Path>, hash: Hash)
    requires Applicable(t, ops, tracked, hash) && ops != [] && SameSkeleton(t, u)
    requires forall p | p !in PathsOf(ops[0]) :: SameAt(t, u, p)
    ensures Applicable(u, ops[1..], tracked, hash)
  {
    hide Ready, SameAt, Placed, SameSkeleton, Separate;
    SeparateRest(ops);
    var rest := ops[1..];
    forall op | op in rest ensures Ready(u, op, tracked, hash) {
      assert op in ops && Ready(t, op, tracked, hash);
      ReadyElsewhere(t, u, op, tracked, hash);
    }
    forall op, p | op in rest && p in PathsOf(op) ensures Placed(u, p) {
      assert op in ops && Placed(t, p);
      SkeletonKeepsPlaces(t, u, p);
    }
  }

  lemma SkeletonTransitive(s: Tree, t: Tree, u: Tree)
    requires SameSkeleton(s, t) && SameSkeleton(t, u)
    ensures SameSkeleton(s, u)
  {
    forall p: Path ensures (p in s && !s[p].File? ==> SameAt(s, u, p)) && (p in u && !u[p].File? ==> SameAt(s, u, p)) {
    }
  }

  lemma Chained(s: Tree, t: Tree, u: Tree, ops: seq<Operation>)
    requires ops != [] && Separate(ops)
    requires Done(s, t, ops[0]) && forall p | p !in PathsOf(ops[0]) :: SameAt(s, t, p)
    requires Accomplished(t, u, ops[1..])
    ensures Accomplished(s, u, ops)
  {
    hide Done, Separate, SameAt;
    SeparateRest(ops);
    var first, rest := ops[0], ops[1..];
    assert ops == [first] + rest;
    forall p | p in PathsOf(first) ensures SameAt(t, u, p) {
      assert !Mentions(rest, p);
    }
    DoneStays(s, t, u, first);
    forall op | op in rest ensures Done(s, u, op) {
      DoneElsewhere(s, t, u, op);
    }
    forall p | !Mentions(ops, p) ensures SameAt(s, u, p) {
      assert first in ops;
      assert !Mentions(rest, p);
      SameAtTransitive(s, t, u, p);
    }
  }

  lemma SameAtTransitive(s: Tree, t: Tree, u: Tree, p: Path)
    requires SameAt(s, t, p) && SameAt(t, u, p)
    ensures SameAt(s, u, p)
  {
  }

  /** Applied in the given order, every operation succeeds and the plan as a whole is accomplished. */
  lemma {:induction false} PlanApplies(t: Tree, ops: seq<Operation>, tracked: set<Path>, hash: Hash)
    requires Applicable(t, ops, tracked, hash)
    ensures var r := ApplyAll(t, ops); r.1 == |ops| && Accomplished(t, r.0, ops) && SameSkeleton(t, r.0)
    decreases |ops|
  {
    hide Ready, Placed, Done, SameAt, Separate, SameSkeleton, ApplyOne;
    if ops == [] {
      Unchanged(t);
    } else {
      assert ops[0] in ops;
      OneDone(t, ops[0], tracked, hash);
      var u := ApplyOne(t, ops[0]).value;
      RestApplicable(t, u, ops, tracked, hash);
      PlanApplies(u, ops[1..], tracked, hash);
      var v := ApplyAll(u, ops[1..]).0;
      Chained(t, u, v, ops);
      SkeletonTransitive(t, u, v);
    }
  }

  lemma Unchanged(t: Tree)
    ensures Accomplished(t, t, []) && SameSkeleton(t, t)
  {
  }

  // ---------------------------------------------------------------- any order

  lemma AccomplishedOnce(t: Tree, u: Tree, v: Tree, ops: seq<Operation>)
    requires Accomplished(t, u, ops) && Accomplished(t, v, ops)
    requires forall op | op in ops && op.Rename? :: op.source != op.destination
    ensures u == v
  {
    forall p: Path ensures SameAt(u, v, p) {
      if Mentions(ops, p) {
        var op :| op in ops && p in PathsOf(op);
        assert Done(t, u, op) && Done(t, v, op);
      }
    }
    assert u.Keys == v.Keys by {
      forall p: Path ensures p in u <==> p in v {
        assert SameAt(u, v, p);
      }
    }
    forall p | p in u ensures u[p] == v[p] {
      assert SameAt(u, v, p);
    }
  }

  lemma SameMembers(ops: seq<Operation>, order: seq<Operation>)
    requires multiset(order) == multiset(ops)
    ensures forall op :: op in order <==> op in ops
  {
    forall op ensures op in order <==> op in ops {
      assert op in order <==> op in multiset(order);
      assert op in ops <==> op in multiset(ops);
    }
  }

  /** Any order of the operations gives the same tree, and none of them fails. */
  lemma AnyOrder(t: Tree, ops: seq<Operation>, order: seq<Operation>, tracked: set<Path>, hash: Hash)
    requires Applicable(t, ops, tracked, hash) && multiset(order) == multiset(ops)
    ensures ApplyAll(t, order).0 == ApplyAll(t, ops).0 && ApplyAll(t, order).1 == |order|
  {
    SameMembers(ops, order);
    hide ApplyAll, Ready, Placed, Done, SameAt, SameSkeleton;
    assert Applicable(t, order, tracked, hash);
    PlanApplies(t, ops, tracked, hash);
    PlanApplies(t, order, tracked, hash);
    assert Accomplished(t, ApplyAll(t, order).0, ops) by {
      assert forall p :: Mentions(ops, p) <==> Mentions(order, p);
    }
    forall op | op in ops && op.Rename? ensures op.source != op.destination {
      assert Ready(t, op, tracked, hash);
      assert forall p | p in PathsOf(op) :: Placed(t, p);
      ReadyShape(t, op, tracked, hash);
    }
    AccomplishedOnce(t, ApplyAll(t, order).0, ApplyAll(t, ops).0, ops);
  }

  /** An accomplished plan passes the check of the final state. */
  lemma AccomplishedIsFinal(t: Tree, u: Tree, ops: seq<Operation>, tracked: set<Path>, hash: Hash)
    requires Applicable(t, ops, tracked, hash) && Accomplished(t, u, ops)
    ensures AllFinal(u, ops, hash)
  {
    hide Separate;
    forall op | op in ops ensures Final(u, op, hash) {
      assert Ready(t, op, tracked, hash) && Done(t, u, op);
      OwnPaths(op);
      ReadyShape(t, op, tracked, hash);
      forall p | p in PathsOf(op) ensures p != [] {
        assert Placed(t, p);
      }
    }
  }

  // ---------------------------------------------------------------- normalised plans

  lemma InsideIsDisjoint<T>(a: set<T>, b: set<T>, outer: set<T>)
    requires a <= outer && b * outer == {}
    ensures a !! b
  {
    assert forall x :: x in a && x in b ==> x in b * outer;
  }

  lemma SeparateGrows(ops: seq<Operation>, op: Operation, occupied: set<Path>)
    requires Separate(ops) && PathsOf(op) * occupied == {} && forall a | a in ops :: PathsOf(a) <= occupied
    ensures Separate(ops + [op])
  {
    var more := ops + [op];
    SomePath(op);
    forall a | a in ops ensures PathsOf(a) !! PathsOf(op) {
      InsideIsDisjoint(PathsOf(a), PathsOf(op), occupied);
    }
    assert op !in ops;
    assert multiset(more) == multiset(ops) + multiset{op};
    forall a | a in more ensures multiset(more)[a] == 1 {
      if a != op {
        assert multiset(ops)[a] == 1;
      } else {
        assert multiset(ops)[op] == 0;
      }
    }
  }

  lemma {:induction false} NormalPlan(t: Tree, raws: seq<Raw>)
    requires NormalAll(t, raws).Some?
    ensures var p := NormalAll(t, raws).value;
            && |p.ops| == |raws| && Separate(p.ops)
            && (forall op | op in p.ops :: PathsOf(op) <= p.occupied)
            && (forall op, q | op in p.ops && q in PathsOf(op) :: Placed(t, q))
  {
    hide Placed, NormalOperation, Separate, PathsOf;
    if raws == [] {
      EmptyIsSeparate();
    } else {
      var front := raws[..|raws| - 1];
      NormalPlan(t, front);
      var p := NormalAll(t, front).value;
      OperationPlaced(t, raws[|raws| - 1]);
      SeparateGrows(p.ops, NormalOperation(t, raws[|raws| - 1]).value, p.occupied);
    }
  }

  lemma EmptyIsSeparate()
    ensures Separate([])
  {
  }

  lemma SomePath(op: Operation)
    ensures PathsOf(op) != {}
  {
    assert (if op.Rename? then op.source else op.path) in PathsOf(op);
  }

  lemma OperationPlaced(t: Tree, raw: Raw)
    requires NormalOperation(t, raw).Some?
    ensures forall q | q in PathsOf(NormalOperation(t, raw).value) :: Placed(t, q)
  {
    hide CrossesLink, ParsesAsHex, ValidContent, PosixParts;
  }

  /** So a plan that was normalised and whose preconditions hold is applicable. */
  lemma NormalizedIsApplicable(t: Tree, raws: seq<Raw>, tracked: set<Path>, hash: Hash)
    requires Normalized(t, raws).Some? && AllReady(t, Normalized(t, raws).value, tracked, hash)
    ensures Applicable(t, Normalized(t, raws).value, tracked, hash)
  {
    hide NormalAll, Separate, Ready, Placed;
    NormalPlan(t, raws);
  }

  // ---------------------------------------------------------------- feeding a plan back

  lemma {:induction false} MeaningfulIds(parts: seq<string>)
    requires forall x | x in parts :: x != "" && x != "."
    ensures Meaningful(parts) == parts
  {
    if parts != [] {
      assert forall x | x in parts[1..] :: x in parts;
      MeaningfulIds(parts[1..]);
      assert parts[0] in parts && parts == [parts[0]] + parts[1..];
    }
  }

  lemma FreeOfSlash(part: string)
    requires !Text.Contains(part, "/")
    ensures '/' !in part && Text.JoinsCleanly(part, "/", 0)
  {
    if '/' in part {
      var i :| 0 <= i < |part| && part[i] == '/';
      assert part[i..i + 1] == "/";
      assert Text.OccursAt(part, "/", i);
    }
    assert part + "/"[..0] == part;
  }

  /** Components survive `as_posix` and parsing again. */
  lemma PosixRoundTrip(p: Path)
    requires p != [] && forall x | x in p :: x != "" && x != "." && !Text.Contains(x, "/")
    ensures PosixParts(Posix(p)) == p
  {
    assert Text.LongestBorder("/", 0) by {
      assert "/"[..0] == "/"[1..];
    }
    forall x | x in p ensures Text.JoinsCleanly(x, "/", 0) {
      FreeOfSlash(x);
    }
    Text.CleanPartsRoundTrip(p, "/", 0);
    MeaningfulIds(p);
  }

  lemma {:induction false} JoinChars(parts: seq<string>, c: char)
    requires c != '/' && forall x | x in parts :: c !in x
    ensures c !in Text.Join(parts, "/")
  {
    if |parts| > 1 {
      assert forall x | x in parts[1..] :: x in parts;
      JoinChars(parts[1..], c);
    }
  }

  lemma {:induction false} SplitChars(s: string, c: char)
    requires c !in s
    ensures forall x | x in Text.Split(s, "/") :: c !in x
    decreases |s|
  {
    var i := Text.Find(s, "/", 0);
    if i != -1 {
      SplitChars(s[i + 1..], c);
    }
  }

  lemma JoinStarts(p: Path)
    requires p != [] && p[0] != ""
    ensures Posix(p) != "" && Posix(p)[0] == p[0][0]
  {
  }

  lemma PathAgain(t: Tree, value: string)
    requires NormalPath(t, value).Some?
    ensures NormalPath(t, Posix(NormalPath(t, value).value)) == NormalPath(t, value)
  {
    hide Text.Split, Text.Join, Meaningful, CrossesLink, IsDir, Text.Contains;
    var p := NormalPath(t, value).value;
    PartsOfValue(value);
    PosixRoundTrip(p);
    JoinStarts(p);
    FreeOfSlash(p[0]);
    JoinChars(p, '\0');
  }

  lemma PartsOfValue(value: string)
    requires '\0' !in value
    ensures forall x | x in PosixParts(value) :: x != "" && x != "." && !Text.Contains(x, "/") && '\0' !in x
  {
    Text.SplitPiecesAreFree(value, "/");
    SplitChars(value, '\0');
  }

  // Lower-casing keeps what the hash check looks at.

  lemma LowerHexGroups(s: string)
    ensures HexGroups(s) ==> HexGroups(Lower(s))
  {
    var l := Lower(s);
    forall i | 0 <= i < |s| ensures (IsHex(s[i]) ==> IsHex(l[i])) && (s[i] == '_' ==> l[i] == '_') {
    }
  }

  lemma LowerPrefixedHex(s: string)
    ensures PrefixedHex(s) ==> PrefixedHex(Lower(s))
  {
    hide HexGroups;
    LowerHexGroups(s);
    var l := Lower(s);
    if |s| > 2 {
      LowerHexGroups(s[2..]);
      LowerHexGroups(s[3..]);
      assert Lower(s[2..]) == l[2..] && Lower(s[3..]) == l[3..];
    }
  }

  lemma {:induction false} LowerStripLeft(s: string)
    ensures StripLeft(Lower(s)) == Lower(StripLeft(s))
  {
    if |s| > 0 {
      assert Lower(s)[1..] == Lower(s[1..]);
      LowerStripLeft(s[1..]);
    }
  }

  lemma {:induction false} LowerStripRight(s: string)
    ensures StripRight(Lower(s)) == Lower(StripRight(s))
  {
    if |s| > 0 {
      assert Lower(s)[..|s| - 1] == Lower(s[..|s| - 1]);
      LowerStripRight(s[..|s| - 1]);
    }
  }

  lemma LowerParses(s: string)
    requires ParsesAsHex(s)
    ensures ParsesAsHex(Lower(s))
  {
    hide PrefixedHex, StripLeft, StripRight;
    LowerStripLeft(s);
    LowerStripRight(StripLeft(s));
    var body := Strip(s);
    assert Strip(Lower(s)) == Lower(body);
    LowerPrefixedHex(body);
    if |body| > 0 {
      LowerPrefixedHex(body[1..]);
      assert Lower(body[1..]) == Lower(body)[1..];
    }
  }

  lemma HashAgain(value: string)
    requires NormalHash(value).Some?
    ensures NormalHash(NormalHash(value).value) == NormalHash(value)
  {
    hide ParsesAsHex;
    LowerParses(value[7..]);
    var l := Lower(value);
    assert l[7..] == Lower(value[7..]);
    assert l[..7] == "sha256:" by {
      assert forall i | 0 <= i < 7 :: l[i] == LowerChar(value[..7][i]);
      assert l[..7] == Lower("sha256:");
    }
    assert Lower(l) == l;
  }

  lemma OperationAgain(t: Tree, raw: Raw)
    requires NormalOperation(t, raw).Some?
    ensures NormalOperation(t, ToRaw(NormalOperation(t, raw).value)) == NormalOperation(t, raw)
  {
    hide NormalPath, NormalHash, ValidContent, Posix;
    var op := NormalOperation(t, raw).value;
    if op.Rename? {
      PathAgain(t, raw.fields["source"]);
      PathAgain(t, raw.fields["destination"]);
    } else {
      PathAgain(t, raw.fields["path"]);
    }
    if !op.Create? {
      HashAgain(raw.fields["expected_sha256"]);
    }
  }

  lemma StepAgain(t: Tree, p: Progress, raw: Raw)
    requires NormalStep(t, p, raw).Some?
    ensures NormalOperation(t, raw).Some? && NormalStep(t, p, raw).value.ops == p.ops + [NormalOperation(t, raw).value]
    ensures NormalStep(t, p, ToRaw(NormalOperation(t, raw).value)) == NormalStep(t, p, raw)
  {
    hide NormalOperation, ToRaw;
    OperationAgain(t, raw);
  }

  lemma {:induction false} AllAgain(t: Tree, raws: seq<Raw>)
    requires NormalAll(t, raws).Some?
    ensures NormalAll(t, ToRaws(NormalAll(t, raws).value.ops)) == NormalAll(t, raws)
  {
    hide NormalOperation, ToRaw, NormalStep;
    if raws != [] {
      var front := raws[..|raws| - 1];
      AllAgain(t, front);
      var p := NormalAll(t, front).value;
      var raw := raws[|raws| - 1];
      StepAgain(t, p, raw);
      var op := NormalOperation(t, raw).value;
      var again := ToRaws(p.ops + [op]);
      assert again[..|again| - 1] == ToRaws(p.ops);
      assert again[|again| - 1] == ToRaw(op);
    }
  }

  /** Normalising a plan's own operations gives the plan back, so it re-derives the same plan id. */
  lemma PlanIsStable(t: Tree, raws: seq<Raw>, base: string, planId: (string, seq<Operation>) -> string)
    requires Normalized(t, raws).Some?
    ensures Normalized(t, ToRaws(Normalized(t, raws).value)) == Normalized(t, raws)
    ensures planId(base, Normalized(t, ToRaws(Normalized(t, raws).value)).value) == planId(base, Normalized(t, raws).value)
  {
    hide NormalAll;
    AllAgain(t, raws);
    NormalPlan(t, raws);
  }

  // ---------------------------------------------------------------- applying again

  lemma OperationOnSkeleton(t: Tree, u: Tree, raw: Raw)
    requires SameSkeleton(t, u)
    ensures NormalOperation(t, raw) == NormalOperation(u, raw)
  {
    hide PosixParts, NormalHash, ValidContent, CrossesLink, IsDir, SameSkeleton;
    forall value: string ensures NormalPath(t, value) == NormalPath(u, value) {
      var p := PosixParts(value);
      SkeletonKeepsPlaces(t, u, p);
      SkeletonKeepsPlaces(t, u, ParentOf(p));
    }
    hide NormalPath;
  }

  lemma {:induction false} NormalOnSkeleton(t: Tree, u: Tree, raws: seq<Raw>)
    requires SameSkeleton(t, u)
    ensures NormalAll(t, raws) == NormalAll(u, raws)
  {
    hide NormalOperation, SameSkeleton;
    if raws != [] {
      NormalOnSkeleton(t, u, raws[..|raws| - 1]);
      OperationOnSkeleton(t, u, raws[|raws| - 1]);
    }
  }

  /** After a plan was applied, the same request normalises to the same plan and finds everything done. */
  lemma AppliedPlanIsFinal(t: Tree, raws: seq<Raw>, tracked: set<Path>, hash: Hash)
    requires Normalized(t, raws).Some? && AllReady(t, Normalized(t, raws).value, tracked, hash)
    ensures var ops := Normalized(t, raws).value; var u := ApplyAll(t, ops).0;
            && ApplyAll(t, ops).1 == |ops|
            && Accomplished(t, u, ops)
            && AllFinal(u, ops, hash)
            && Normalized(u, raws) == Some(ops)
  {
    hide NormalAll, AllReady, ApplyAll, AllFinal, Accomplished, Applicable, SameSkeleton;
    var ops := Normalized(t, raws).value;
    NormalizedIsApplicable(t, raws, tracked, hash);
    PlanApplies(t, ops, tracked, hash);
    AccomplishedIsFinal(t, ApplyAll(t, ops).0, ops, tracked, hash);
    NormalOnSkeleton(t, ApplyAll(t, ops).0, raws);
  }
}
