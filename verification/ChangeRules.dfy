/**
 The rules of change plans, each in plain terms: which raw operations make a plan, what their paths and digests may be,
 what has to hold before one is applied, and what its final check establishes.
 */
module ChangeRules {
  import opened Prelude
  import opened ChangeSpec
  import opened ChangeLaws
  import Text

  // ---------------------------------------------------------------- plans

  /** The content of all operations together, in bytes. */
  function AllBytes(ops: seq<Operation>): nat {
    if ops == [] then 0
    else AllBytes(ops[..|ops| - 1])
         + match ops[|ops| - 1]
           case Create(_, c) => Utf8Length(c)
           case Update(_, c, _) => Utf8Length(c)
           case _ => 0
  }

  /** No two of these operations share a path. */
  ghost predicate Disjoint(ops: seq<Operation>) {
    forall i, j | 0 <= i < j < |ops| :: PathsOf(ops[i]) !! PathsOf(ops[j])
  }

  ghost predicate AllNormal(t: Tree, raws: seq<Raw>, ops: seq<Operation>) {
    |ops| == |raws| && forall i | 0 <= i < |raws| :: NormalOperation(t, raws[i]) == Some(ops[i])
  }

  /** What the loop has collected: these operations, their paths and the size of their content. */
  ghost predicate Collected(p: Progress) {
    && Disjoint(p.ops) && p.bytes == AllBytes(p.ops)
    && (forall q :: q in p.occupied <==> exists i :: 0 <= i < |p.ops| && q in PathsOf(p.ops[i]))
  }

  lemma LoopTakes(t: Tree, p: Progress, raw: Raw)
    requires NormalStep(t, p, raw).Some? && Collected(p)
    ensures var n := NormalStep(t, p, raw).value;
            NormalOperation(t, raw).Some? && n.ops == p.ops + [NormalOperation(t, raw).value] && Collected(n)
  {
    hide NormalOperation, PathsOf, Utf8Length;
    var op, n := NormalOperation(t, raw).value, NormalStep(t, p, raw).value;
    forall i, j | 0 <= i < j < |n.ops| ensures PathsOf(n.ops[i]) !! PathsOf(n.ops[j]) {
      if j == |p.ops| {
        forall q | q in PathsOf(p.ops[i]) ensures q !in PathsOf(op) {
          assert q in p.occupied && q !in PathsOf(op) * p.occupied;
        }
      }
    }
    forall q ensures q in n.occupied <==> exists i :: 0 <= i < |n.ops| && q in PathsOf(n.ops[i]) {
      assert n.ops[|p.ops|] == op;
      if i :| 0 <= i < |p.ops| && q in PathsOf(p.ops[i]) {
        assert n.ops[i] == p.ops[i];
      }
    }
    assert n.ops[..|n.ops| - 1] == p.ops;
  }

  lemma {:induction false} LoopCollects(t: Tree, raws: seq<Raw>)
    ensures NormalAll(t, raws).Some? ==> AllNormal(t, raws, NormalAll(t, raws).value.ops) && Collected(NormalAll(t, raws).value)
    decreases |raws|
  {
    hide NormalOperation, PathsOf, Utf8Length, NormalStep, Collected;
    if raws == [] {
      NothingCollected();
    } else {
      var front, raw := raws[..|raws| - 1], raws[|raws| - 1];
      LoopCollects(t, front);
      if NormalAll(t, front).Some? && NormalStep(t, NormalAll(t, front).value, raw).Some? {
        LoopTakes(t, NormalAll(t, front).value, raw);
      }
    }
  }

  lemma NothingCollected()
    ensures Collected(Progress([], {}, 0))
  {
  }

  /** Operations that are normal one by one and share no path get through the loop. */
  lemma {:induction false} LoopEnds(t: Tree, raws: seq<Raw>, ops: seq<Operation>)
    requires AllNormal(t, raws, ops) && Disjoint(ops)
    ensures NormalAll(t, raws).Some?
    decreases |raws|
  {
    hide NormalOperation, PathsOf, Utf8Length;
    if raws != [] {
      var n := |raws| - 1;
      var front := raws[..n];
      LoopEnds(t, front, ops[..n]);
      LoopCollects(t, front);
      var p := NormalAll(t, front).value;
      assert p.ops == ops[..n];
      assert forall i | 0 <= i < n :: PathsOf(ops[i]) !! PathsOf(ops[n]) && p.ops[i] == ops[i];
      assert PathsOf(ops[n]) * p.occupied == {};
    }
  }

  /** A plan: between one and a hundred operations, each normal, no path in two of them, at most four megabytes of content. */
  lemma NormalizedWhen(t: Tree, raws: seq<Raw>, ops: seq<Operation>)
    ensures Normalized(t, raws) == Some(ops)
       <==> 1 <= |raws| <= 100 && AllNormal(t, raws, ops) && Disjoint(ops) && AllBytes(ops) <= 4194304
  {
    hide NormalAll, NormalOperation, PathsOf;
    LoopCollects(t, raws);
    if AllNormal(t, raws, ops) && Disjoint(ops) {
      LoopEnds(t, raws, ops);
      assert NormalAll(t, raws).value.ops == ops;
    }
  }

  // ---------------------------------------------------------------- paths, digests, content

  /** A raw operation of each kind: exactly its own fields, every one of them normal. */
  lemma OperationWhen(t: Tree, raw: Raw, op: Operation)
    ensures NormalOperation(t, raw) == Some(op) <==>
              match op
              case Create(p, c) =>
                raw.kind == "create" && raw.fields.Keys == {"path", "content"}
                && NormalPath(t, raw.fields["path"]) == Some(p) && raw.fields["content"] == c && ValidContent(c)
              case Update(p, c, h) =>
                raw.kind == "update" && raw.fields.Keys == {"path", "content", "expected_sha256"}
                && NormalPath(t, raw.fields["path"]) == Some(p) && raw.fields["content"] == c && ValidContent(c)
                && NormalHash(raw.fields["expected_sha256"]) == Some(h)
              case Delete(p, h) =>
                raw.kind == "delete" && raw.fields.Keys == {"path", "expected_sha256"}
                && NormalPath(t, raw.fields["path"]) == Some(p) && NormalHash(raw.fields["expected_sha256"]) == Some(h)
              case Rename(x, d, h) =>
                raw.kind == "rename" && raw.fields.Keys == {"source", "destination", "expected_sha256"}
                && NormalPath(t, raw.fields["source"]) == Some(x) && NormalPath(t, raw.fields["destination"]) == Some(d)
                && NormalHash(raw.fields["expected_sha256"]) == Some(h)
  {
    hide NormalPath, NormalHash, ValidContent;
  }

  /** A path is taken exactly if it is relative, stays inside, is not Git's own, and leads through directories to where it points. */
  lemma PathWhen(t: Tree, value: string, p: Path)
    ensures NormalPath(t, value) == Some(p)
       <==> value != "" && '\0' !in value && value[0] != '/' && p == PosixParts(value) && p != []
            && ".." !in p && p[0] != ".git"
            && (forall k | 0 < k <= |p| :: p[..k] in t ==> !t[p[..k]].Link?)
            && (|p| == 1 || (p[..|p| - 1] in t && t[p[..|p| - 1]].Dir?))
  {
    hide PosixParts;
  }

  /** The case of a digest does not matter, and what is kept of it is lower case. */
  lemma HashWhen(value: string)
    ensures NormalHash(value).Some? <==> |value| == 71 && value[..7] == "sha256:" && ParsesAsHex(value[7..])
    ensures NormalHash(value).Some? ==>
              |NormalHash(value).value| == 71 && forall i | 0 <= i < 71 :: NormalHash(value).value[i] == LowerChar(value[i])
    ensures NormalHash(value).Some? ==> forall i | 0 <= i < 71 :: !('A' <= NormalHash(value).value[i] <= 'Z')
  {
    hide ParsesAsHex;
  }

  /** Content without NUL, at most a megabyte of UTF-8, each character counted with its one to four bytes. */
  lemma ContentWhen(content: string)
    ensures ValidContent(content) <==> '\0' !in content && Utf8Length(content) <= 1048576
    ensures forall c: char :: Utf8Length([c]) == (if c as int < 0x80 then 1 else if c as int < 0x800 then 2 else if c as int < 0x1_0000 then 3 else 4)
    ensures |content| <= Utf8Length(content) <= 4 * |content|
  {
    if content != "" {
      ContentWhen(content[1..]);
    }
    forall c: char ensures Utf8Length([c]) == CharBytes(c) {
      assert [c][1..] == "";
    }
  }

  // ---------------------------------------------------------------- before and after

  /** What has to hold before an operation: tracked files with the digest the plan expects, and free destinations. */
  lemma ReadyWhen(t: Tree, op: Operation, tracked: set<Path>, hash: Hash)
    ensures Ready(t, op, tracked, hash) <==>
              match op
              case Create(p, _) => p != [] && (p in t ==> t[p] == Link(None))
              case Update(p, _, h) => p in tracked && p in t && t[p].File? && hash(t[p].content) == h
              case Delete(p, h) => p in tracked && p in t && t[p].File? && hash(t[p].content) == h
              case Rename(s, d, h) => s in tracked && s in t && t[s].File? && hash(t[s].content) == h && d != [] && (d in t ==> t[d] == Link(None))
  {
  }

  ghost predicate Injective(hash: Hash) {
    forall a, b | hash(a) == hash(b) :: a == b
  }

  /** What the final check establishes, with digests that tell contents apart. */
  lemma FinalWhen(u: Tree, op: Operation, hash: Hash)
    requires Injective(hash)
    ensures Final(u, op, hash) <==>
              match op
              case Create(p, c) => p in u && u[p].File? && u[p].content == c
              case Update(p, c, _) => p in u && u[p].File? && u[p].content == c
              case Delete(p, _) => p != [] && (p in u ==> u[p] == Link(None))
              case Rename(s, d, h) => s != [] && (s in u ==> u[s] == Link(None)) && d in u && u[d].File? && hash(u[d].content) == h
  {
  }
}
