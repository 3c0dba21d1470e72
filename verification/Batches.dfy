/**
 Batching of coordinator events: the separator round trip for the actual separator, and what the
 promotion loop does to the queue.
 */
module Batches {
  import opened Prelude
  import opened Wakes
  import opened CoordinatorSpec
  import Text

  /** The only border of the batch separator is its newline. */
  lemma SeparatorBorder()
    ensures Text.LongestBorder(BATCH_SEPARATOR, 1)
    ensures BATCH_SEPARATOR[..1] == "\n" && |BATCH_SEPARATOR| == 22
  {
    var s: string := "\n--- bridge-batch ---\n";
    assert |s| == 22 && s[0] == '\n' && s[21] == '\n';
    assert s[..1] == [s[0]] && s[21..] == [s[21]];
    forall k | 1 < k < 22 ensures s[..k] != s[22 - k..] {
      SeparatorMiddle(22 - k);
      assert s[..k][0] == '\n';
      assert s[22 - k..][0] == s[22 - k];
    }
  }

  lemma SeparatorMiddle(i: nat)
    requires 1 <= i < 21
    ensures |BATCH_SEPARATOR| == 22 && BATCH_SEPARATOR[i] != '\n'
  {
    var middle: string := "--- bridge-batch ---";
    assert BATCH_SEPARATOR == "\n" + middle + "\n";
    assert BATCH_SEPARATOR[i] == middle[i - 1];
    assert '\n' !in middle;
  }

  /** A list of clean messages is read back from its batch unchanged. */
  lemma CleanBatchRoundTrip(parts: seq<string>)
    requires |parts| > 0 && forall p | p in parts :: Clean(p)
    ensures Parts(Batch(parts)) == parts
  {
    SeparatorBorder();
    Text.CleanPartsRoundTrip(parts, BATCH_SEPARATOR, 1);
  }

  /** Exactly when merging one more message into a batch keeps the parts apart. */
  lemma MergeRoundTrip(parts: seq<string>, message: string)
    requires |parts| > 0
    ensures Parts(Batch(parts + [message])) == parts + [message]
       <==> (forall p | p in parts :: Clean(p)) && !Text.Contains(message, BATCH_SEPARATOR)
  {
    SeparatorBorder();
    var all := parts + [message];
    Text.SplitJoin(all, BATCH_SEPARATOR, 1);
    assert all[|all| - 1] == message;
    if Text.Splittable(all, BATCH_SEPARATOR, 1) {
      forall p | p in parts ensures Clean(p) {
        var i :| 0 <= i < |parts| && parts[i] == p;
        assert all[i] == p;
      }
    }
    if forall p | p in parts :: Clean(p) {
      forall i | 0 <= i < |all| - 1 ensures Text.JoinsCleanly(all[i], BATCH_SEPARATOR, 1) {
        assert all[i] == parts[i] && all[i] in parts;
      }
    }
  }

  // ---------------------------------------------------------------- the promotion loop

  /** `whole` is `left` and `right` merged, each keeping its own order. */
  ghost predicate Interleaves<T(!new)>(left: seq<T>, right: seq<T>, whole: seq<T>)
    decreases |whole|
  {
    if whole == [] then left == [] && right == []
    else
      var x := whole[|whole| - 1];
      var front := whole[..|whole| - 1];
      || (left != [] && left[|left| - 1] == x && Interleaves(left[..|left| - 1], right, front))
      || (right != [] && right[|right| - 1] == x && Interleaves(left, right[..|right| - 1], front))
  }

  function Zip(a: seq<string>, b: seq<string>): seq<(string, string)>
    requires |a| == |b|
  {
    seq(|a|, i requires 0 <= i < |a| => (a[i], b[i]))
  }

  lemma {:induction false} PackLengths(queued: seq<string>, escalations: seq<string>, n: nat)
    requires n <= |queued| && n <= |escalations|
    ensures var p := Pack(queued, escalations, n);
            && |p.active| == |p.activeEscalations| && |p.remaining| == |p.remainingEscalations|
            && |p.active| + |p.remaining| == n && (n > 0 ==> p.active != [])
  {
    if n > 0 {
      PackLengths(queued, escalations, n - 1);
    }
  }

  lemma InterleavesExtend<T(!new)>(left: seq<T>, right: seq<T>, whole: seq<T>, x: T)
    requires Interleaves(left, right, whole)
    ensures Interleaves(left + [x], right, whole + [x]) && Interleaves(left, right + [x], whole + [x])
  {
    assert (left + [x])[..|left|] == left && (right + [x])[..|right|] == right && (whole + [x])[..|whole|] == whole;
  }

  lemma ZipExtend(a: seq<string>, b: seq<string>, x: string, y: string)
    requires |a| == |b|
    ensures Zip(a + [x], b + [y]) == Zip(a, b) + [(x, y)]
  {
  }

  /** One more entry of the zipped queue goes to the end of one part. */
  lemma PackOneInterleaves(p: Packing, whole: seq<(string, string)>, x: string, y: string)
    requires |p.active| == |p.activeEscalations| && |p.remaining| == |p.remainingEscalations|
    requires Interleaves(Zip(p.active, p.activeEscalations), Zip(p.remaining, p.remainingEscalations), whole)
    ensures var q := PackOne(p, x, y);
            && |q.active| == |q.activeEscalations| && |q.remaining| == |q.remainingEscalations|
            && Interleaves(Zip(q.active, q.activeEscalations), Zip(q.remaining, q.remainingEscalations), whole + [(x, y)])
  {
    hide Fits, Interleaves, Zip;
    ZipExtend(p.active, p.activeEscalations, x, y);
    ZipExtend(p.remaining, p.remainingEscalations, x, y);
    InterleavesExtend(Zip(p.active, p.activeEscalations), Zip(p.remaining, p.remainingEscalations), whole, (x, y));
  }

  /** Promotion splits the queue, escalations in step, into two parts that keep their order. */
  lemma {:induction false} PackPartitions(queued: seq<string>, escalations: seq<string>, n: nat)
    requires n <= |queued| && n <= |escalations|
    ensures var p := Pack(queued, escalations, n);
            && |p.active| == |p.activeEscalations| && |p.remaining| == |p.remainingEscalations|
            && Interleaves(Zip(p.active, p.activeEscalations), Zip(p.remaining, p.remainingEscalations),
                           Zip(queued[..n], escalations[..n]))
  {
    hide PackOne;
    if n > 0 {
      hide Interleaves;
      PackPartitions(queued, escalations, n - 1);
      var x, y := queued[n - 1], escalations[n - 1];
      assert queued[..n] == queued[..n - 1] + [x] && escalations[..n] == escalations[..n - 1] + [y];
      ZipExtend(queued[..n - 1], escalations[..n - 1], x, y);
      PackOneInterleaves(Pack(queued, escalations, n - 1), Zip(queued[..n - 1], escalations[..n - 1]), x, y);
    } else {
      assert Zip(queued[..0], escalations[..0]) == [] && Zip([], []) == [];
    }
  }

  lemma PackOneConserves(p: Packing, message: string, escalation: string)
    ensures var q := PackOne(p, message, escalation);
            multiset(q.active) + multiset(q.remaining) == multiset(p.active) + multiset(p.remaining) + multiset{message}
  {
    hide Fits;
    assert multiset(p.active + [message]) == multiset(p.active) + multiset{message};
    assert multiset(p.remaining + [message]) == multiset(p.remaining) + multiset{message};
  }

  /** Every queued message ends up in exactly one of the two parts. */
  lemma {:induction false} PackConserves(queued: seq<string>, escalations: seq<string>, n: nat)
    requires n <= |queued| && n <= |escalations|
    ensures var p := Pack(queued, escalations, n);
            multiset(p.active) + multiset(p.remaining) == multiset(queued[..n])
  {
    hide PackOne;
    if n > 0 {
      var r := Pack(queued, escalations, n - 1);
      PackConserves(queued, escalations, n - 1);
      PackOneConserves(r, queued[n - 1], escalations[n - 1]);
      assert queued[..n] == queued[..n - 1] + [queued[n - 1]];
      assert multiset(queued[..n]) == multiset(queued[..n - 1]) + multiset{queued[n - 1]};
    }
  }

  lemma {:induction false} PackMembers(queued: seq<string>, escalations: seq<string>, n: nat)
    requires n <= |queued| && n <= |escalations|
    ensures var p := Pack(queued, escalations, n);
            (forall x | x in p.active :: x in queued) && (forall x | x in p.remaining :: x in queued)
  {
    if n > 0 {
      PackMembers(queued, escalations, n - 1);
    }
  }

  /** The promoted batch respects the batch limit, because single messages do. */
  lemma {:induction false} PackBounded(queued: seq<string>, escalations: seq<string>, n: nat)
    requires n <= |queued| && n <= |escalations|
    requires forall i | 0 <= i < |queued| :: ValidMessage(queued[i])
    ensures var p := Pack(queued, escalations, n);
            |Batch(p.active)| <= MAX_BATCH_MESSAGE_CHARS && (n > 0 ==> |Batch(p.active)| >= 1)
  {
    if n > 0 {
      PackBounded(queued, escalations, n - 1);
      PackLengths(queued, escalations, n - 1);
      var r := Pack(queued, escalations, n - 1);
      assert [queued[n - 1]] == [] + [queued[n - 1]];
      if r.active != [] {
        Text.JoinExtend(r.active, queued[n - 1], BATCH_SEPARATOR);
      }
    }
  }

  /** Nothing was held back that the promoted batch still has room for. */
  lemma {:induction false} PackGreedy(queued: seq<string>, escalations: seq<string>, n: nat)
    requires n <= |queued| && n <= |escalations|
    ensures var p := Pack(queued, escalations, n);
            forall x | x in p.remaining :: p.active != [] && |Batch(p.active + [x])| > MAX_BATCH_MESSAGE_CHARS
  {
    if n > 0 {
      PackGreedy(queued, escalations, n - 1);
      var p, r := Pack(queued, escalations, n), Pack(queued, escalations, n - 1);
      forall x | x in p.remaining ensures p.active != [] && |Batch(p.active + [x])| > MAX_BATCH_MESSAGE_CHARS {
        if p.active != r.active {
          assert x in r.remaining;
          Text.JoinExtend(r.active, x, BATCH_SEPARATOR);
          Text.JoinExtend(r.active, queued[n - 1], BATCH_SEPARATOR);
          Text.JoinExtend(p.active, x, BATCH_SEPARATOR);
        }
      }
    }
  }
}
