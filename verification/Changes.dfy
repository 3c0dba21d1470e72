/** `ChangeService` in its own form: loops over raw operations and a file tree changed one operation at a time. */
module Changes {
  import opened Prelude
  import opened ChangeSpec
  import opened ChangeLaws

  datatype Result =
    | Applied(revision: string, operations: int)
    | AlreadyApplied(revision: string)
    | PlanInvalid
    | RevisionConflict
    | PreconditionFailed
    | ApplyFailed(operations: int)

  class ChangeService {
    const hash: Hash
    /** The digest of the canonical plan. */
    const planId: (string, seq<Operation>) -> string
    const revision: Tree -> string

    /** The working tree, and the receipts kept under `.git`. */
    var tree: Tree
    var receipts: map<string, string>

    constructor (hash: Hash, planId: (string, seq<Operation>) -> string, revision: Tree -> string, tree: Tree)
      ensures this.hash == hash && this.planId == planId && this.revision == revision
      ensures this.tree == tree && receipts == map[]
    {
      this.hash, this.planId, this.revision, this.tree := hash, planId, revision, tree;
      receipts := map[];
    }

    /** `_normalize_operations`. */
    method NormalizeOperations(raws: seq<Raw>) returns (r: Option<seq<Operation>>)
      ensures r == Normalized(tree, raws)
    {
      hide NormalOperation;
      if !(1 <= |raws| <= MAX_OPERATIONS) { return None; }
      var normalized: seq<Operation>, occupied: set<Path>, total: nat := [], {}, 0;
      var i := 0;
      while i < |raws|
        invariant 0 <= i <= |raws|
        invariant NormalAll(tree, raws[..i]) == Some(Progress(normalized, occupied, total))
      {
        Prefixes(raws, i);
        var operation := NormalOperation(tree, raws[i]);
        if operation.None? || PathsOf(operation.value) * occupied != {} {
          RefusedPrefix(tree, raws, i + 1);
          return None;
        }
        occupied := occupied + PathsOf(operation.value);
        total := total + ContentBytes(operation.value);
        normalized := normalized + [operation.value];
        i := i + 1;
      }
      assert raws[..|raws|] == raws;
      if total > MAX_PLAN_BYTES { return None; }
      r := Some(normalized);
    }

    /** `_check_preconditions`. */
    method CheckPreconditions(ops: seq<Operation>, tracked: set<Path>) returns (ok: bool)
      ensures ok <==> AllReady(tree, ops, tracked, hash)
    {
      hide Ready;
      var i := 0;
      while i < |ops|
        invariant 0 <= i <= |ops|
        invariant forall j | 0 <= j < i :: Ready(tree, ops[j], tracked, hash)
      {
        if !Ready(tree, ops[i], tracked, hash) { return false; }
        i := i + 1;
      }
      ok := true;
    }

    /** `_verify_final_state`. */
    method VerifyFinalState(ops: seq<Operation>) returns (ok: bool)
      ensures ok <==> AllFinal(tree, ops, hash)
    {
      hide Final;
      var i := 0;
      while i < |ops|
        invariant 0 <= i <= |ops|
        invariant forall j | 0 <= j < i :: Final(tree, ops[j], hash)
      {
        if !Final(tree, ops[i], hash) { return false; }
        i := i + 1;
      }
      ok := true;
    }

    /** `_apply_operation`. */
    method ApplyOperation(op: Operation) returns (ok: bool)
      modifies this`tree
      ensures ok <==> ApplyOne(old(tree), op).Some?
      ensures tree == ApplyOne(old(tree), op).GetOr(old(tree))
    {
      ok := true;
      match op
      case Delete(p, _) =>
        if p !in tree || tree[p].Dir? { return false; }
        tree := tree - {p};
      case Rename(s, d, _) =>
        if s !in tree || tree[s].Dir? || !IsDir(tree, ParentOf(d)) || IsDir(tree, d) { return false; }
        if s != d {
          var node := tree[s];
          tree := tree - {s};
          tree := tree[d := node];
        }
      case _ =>
        if !IsDir(tree, ParentOf(op.path)) || IsDir(tree, op.path) { return false; }
        var mode := ModeAt(tree, op.path);
        tree := tree[op.path := File(op.content, mode)];
    }

    /** Apply in order until one fails. */
    method ApplyOperations(ops: seq<Operation>) returns (applied: nat)
      modifies this`tree
      ensures (tree, applied) == ApplyAll(old(tree), ops)
    {
      hide ApplyOne;
      applied := 0;
      assert ops[0..] == ops;
      while applied < |ops|
        invariant applied <= |ops|
        invariant ApplyAll(old(tree), ops) == (ApplyAll(tree, ops[applied..]).0, applied + ApplyAll(tree, ops[applied..]).1)
      {
        assert ops[applied..][0] == ops[applied] && ops[applied..][1..] == ops[applied + 1..];
        var ok := ApplyOperation(ops[applied]);
        if !ok { return; }
        applied := applied + 1;
      }
    }

    /** `plan`: the identity of a normalised plan whose preconditions hold now. */
    method Plan(base: Option<string>, raws: seq<Raw>, tracked: set<Path>) returns (r: Option<(string, seq<Operation>)>)
      ensures r.Some? <==> (base.None? || base.value == revision(tree)) && Normalized(tree, raws).Some?
                           && AllReady(tree, Normalized(tree, raws).value, tracked, hash)
      ensures r.Some? ==> r.value == (planId(revision(tree), Normalized(tree, raws).value), Normalized(tree, raws).value)
      ensures r.Some? ==> Applicable(tree, r.value.1, tracked, hash) && Normalized(tree, ToRaws(r.value.1)) == Some(r.value.1)
    {
      hide Normalized, AllReady, Applicable;
      var current := revision(tree);
      if base.Some? && base.value != current { return None; }
      var normalized := NormalizeOperations(raws);
      if normalized.None? { return None; }
      var ready := CheckPreconditions(normalized.value, tracked);
      if !ready { return None; }
      NormalizedIsApplicable(tree, raws, tracked, hash);
      PlanIsStable(tree, raws, current, planId);
      r := Some((planId(current, normalized.value), normalized.value));
    }

    /** The request names a plan this tree normalises to. */
    predicate Names(t: Tree, id: string, base: string, raws: seq<Raw>) {
      Normalized(t, raws).Some? && planId(base, Normalized(t, raws).value) == id
    }

    /** `apply`: once, or not at all; afterwards the same request is recognised. */
    method Apply(id: string, base: string, raws: seq<Raw>, tracked: set<Path>) returns (r: Result)
      modifies this
      ensures r.PlanInvalid? <==> !Names(old(tree), id, base, raws)
      ensures r.AlreadyApplied? <==>
                Names(old(tree), id, base, raws) && id in old(receipts) && AllFinal(old(tree), Normalized(old(tree), raws).value, hash)
      ensures r.AlreadyApplied? ==> r.revision == revision(tree)
      ensures r.Applied? <==>
                Names(old(tree), id, base, raws) && id !in old(receipts) && revision(old(tree)) == base
                && AllReady(old(tree), Normalized(old(tree), raws).value, tracked, hash)
      ensures !r.Applied? ==> tree == old(tree) && receipts == old(receipts) && !r.ApplyFailed?
      ensures r.Applied? ==>
                var ops := Normalized(old(tree), raws).value;
                && r.operations == |ops| && Accomplished(old(tree), tree, ops)
                && AllFinal(tree, ops, hash) && Names(tree, id, base, raws) && Normalized(tree, raws) == Some(ops)
                && receipts == old(receipts)[id := r.revision] && r.revision == revision(tree)
    {
      hide Normalized, AllReady, AllFinal, ApplyAll, Accomplished;
      var normalized := NormalizeOperations(raws);
      if normalized.None? { return PlanInvalid; }
      var ops := normalized.value;
      if planId(base, ops) != id { return PlanInvalid; }
      if id in receipts {
        var unchangedSince := VerifyFinalState(ops);
        if !unchangedSince { return PreconditionFailed; }
        return AlreadyApplied(revision(tree));
      }
      if revision(tree) != base { return RevisionConflict; }
      var ready := CheckPreconditions(ops, tracked);
      if !ready { return PreconditionFailed; }
      AppliedPlanIsFinal(tree, raws, tracked, hash);
      var applied := ApplyOperations(ops);
      if applied < |ops| {
        assert false;
        return ApplyFailed(applied);
      }
      var verified := VerifyFinalState(ops);
      if !verified {
        assert false;
        return PreconditionFailed;
      }
      receipts := receipts[id := revision(tree)];
      r := Applied(revision(tree), |ops|);
    }

    /** Sending the same request again right after it was applied changes nothing. */
    method ApplyAgain(id: string, base: string, raws: seq<Raw>, tracked: set<Path>, trackedNow: set<Path>) returns (first: Result, second: Result)
      modifies this
      ensures first.Applied? ==> second.AlreadyApplied? && second.revision == first.revision
      ensures first.Applied? ==> Names(old(tree), id, base, raws) && Accomplished(old(tree), tree, Normalized(old(tree), raws).value)
      ensures first.Applied? ==> receipts == old(receipts)[id := first.revision]
    {
      hide Normalized, AllReady, AllFinal, ApplyAll, Accomplished;
      first := Apply(id, base, raws, tracked);
      second := Apply(id, base, raws, trackedNow);
    }
  }

  lemma Prefixes(raws: seq<Raw>, i: nat)
    requires i < |raws|
    ensures raws[..i + 1][..|raws[..i + 1]| - 1] == raws[..i] && raws[..i + 1][|raws[..i + 1]| - 1] == raws[i]
  {
  }

  /** An operation refused early refuses the whole list. */
  lemma {:induction false} RefusedPrefix(t: Tree, raws: seq<Raw>, n: nat)
    requires n <= |raws| && NormalAll(t, raws[..n]).None?
    ensures NormalAll(t, raws).None?
    decreases |raws|
  {
    hide NormalStep;
    if n < |raws| {
      assert raws[..|raws| - 1][..n] == raws[..n];
      RefusedPrefix(t, raws[..|raws| - 1], n);
    } else {
      assert raws[..n] == raws;
    }
  }
}
