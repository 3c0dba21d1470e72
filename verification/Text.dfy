/**
 Python's `str.split` and `str.join` with one fixed separator: the leftmost occurrence is cut
 out and the scan goes on behind it. The main result says exactly when splitting undoes joining.
 */
module Text {

  predicate OccursAt(s: string, sep: string, i: int) {
    0 <= i && i + |sep| <= |s| && s[i..i + |sep|] == sep
  }

  ghost predicate Contains(s: string, sep: string) {
    exists i :: OccursAt(s, sep, i)
  }

  /** `str.find(sep, start)`: the first occurrence at or after `start`, or -1. */
  function Find(s: string, sep: string, start: nat): (r: int)
    requires start <= |s|
    ensures r == -1 || (r >= start && OccursAt(s, sep, r))
    ensures forall i | start <= i && (r == -1 || i < r) :: !OccursAt(s, sep, i)
    decreases |s| - start
  {
    if OccursAt(s, sep, start) then start
    else if start == |s| then -1
    else Find(s, sep, start + 1)
  }

  function Split(s: string, sep: string): (parts: seq<string>)
    requires |sep| > 0
    ensures |parts| > 0
    decreases |s|
  {
    var i := Find(s, sep, 0);
    if i == -1 then [s] else [s[..i]] + Split(s[i + |sep|..], sep)
  }

  function Join(parts: seq<string>, sep: string): string {
    if |parts| == 0 then ""
    else if |parts| == 1 then parts[0]
    else parts[0] + sep + Join(parts[1..], sep)
  }

  /** Joining what a split produced gives the text back, for every text and separator. */
  lemma {:induction false} JoinSplit(s: string, sep: string)
    requires |sep| > 0
    ensures Join(Split(s, sep), sep) == s
    decreases |s|
  {
    var i := Find(s, sep, 0);
    if i != -1 {
      JoinSplit(s[i + |sep|..], sep);
      var tail := Split(s[i + |sep|..], sep);
      assert ([s[..i]] + tail)[1..] == tail;
      assert s == s[..i] + s[i..i + |sep|] + s[i + |sep|..];
    }
  }

  /** The pieces of a split never contain the separator. */
  lemma {:induction false} SplitPiecesAreFree(s: string, sep: string)
    requires |sep| > 0
    ensures forall p | p in Split(s, sep) :: !Contains(p, sep)
    decreases |s|
  {
    var i := Find(s, sep, 0);
    if i != -1 {
      SplitPiecesAreFree(s[i + |sep|..], sep);
      if Contains(s[..i], sep) {
        var j :| OccursAt(s[..i], sep, j);
        assert s[..i][j..j + |sep|] == s[j..j + |sep|];
        assert OccursAt(s, sep, j);
        assert false;
      }
    }
  }

  /** `b` is the length of the longest proper prefix of `sep` that is also a suffix of it. */
  ghost predicate LongestBorder(sep: string, b: nat) {
    && b < |sep|
    && sep[..b] == sep[|sep| - b..]
    && forall k | b < k < |sep| :: sep[..k] != sep[|sep| - k..]
  }

  /** Appending a separator to `part` creates no earlier occurrence of it. */
  ghost predicate JoinsCleanly(part: string, sep: string, b: nat)
    requires b <= |sep|
  {
    !Contains(part + sep[..b], sep)
  }

  /** The first separator of `part + sep + rest` is the one just written, exactly for a clean part. */
  lemma FirstOccurrence(part: string, sep: string, rest: string, b: nat)
    requires |sep| > 0 && LongestBorder(sep, b)
    ensures JoinsCleanly(part, sep, b) <==> Find(part + sep + rest, sep, 0) == |part|
    ensures Find(part + sep + rest, sep, 0) != -1
  {
    var all := part + sep + rest;
    var head := part + sep[..b];
    assert all[..|head|] == head;
    assert OccursAt(all, sep, |part|);
    if !JoinsCleanly(part, sep, b) {
      var i :| OccursAt(head, sep, i);
      assert head[i..i + |sep|] == all[i..i + |sep|];
      assert OccursAt(all, sep, i);
      assert i < |part|;
    } else {
      forall i | 0 <= i < |part| ensures !OccursAt(all, sep, i) {
        if OccursAt(all, sep, i) {
          EarlyOccurrence(part, sep, rest, b, i);
        }
      }
    }
  }

  /** Two overlapping occurrences make the overlap a border. */
  lemma OverlapIsBorder(part: string, sep: string, rest: string, i: nat)
    requires i < |part| < i + |sep| && OccursAt(part + sep + rest, sep, i)
    ensures var k := i + |sep| - |part|; sep[..k] == sep[|sep| - k..]
  {
    var all := part + sep + rest;
    var k := i + |sep| - |part|;
    forall j | 0 <= j < k ensures sep[j] == sep[|sep| - k + j] {
      assert all[|part| + j] == sep[j];
      assert all[i..i + |sep|][|sep| - k + j] == all[|part| + j];
    }
  }

  lemma EarlyOccurrence(part: string, sep: string, rest: string, b: nat, i: nat)
    requires |sep| > 0 && LongestBorder(sep, b)
    requires i < |part| && OccursAt(part + sep + rest, sep, i)
    ensures OccursAt(part + sep[..b], sep, i)
  {
    if i + |sep| > |part| + b {
      OverlapIsBorder(part, sep, rest, i);
      assert false;
    }
    var all := part + sep + rest;
    var head := part + sep[..b];
    assert all[i..i + |sep|] == head[i..i + |sep|];
  }

  /** When a join can be split back: every part but the last joins cleanly, the last is separator-free. */
  ghost predicate Splittable(parts: seq<string>, sep: string, b: nat)
    requires b <= |sep|
  {
    && |parts| > 0
    && (forall i | 0 <= i < |parts| - 1 :: JoinsCleanly(parts[i], sep, b))
    && !Contains(parts[|parts| - 1], sep)
  }

  lemma SplittableCons(part: string, rest: seq<string>, sep: string, b: nat)
    requires b <= |sep| && |rest| > 0
    ensures Splittable([part] + rest, sep, b) <==> JoinsCleanly(part, sep, b) && Splittable(rest, sep, b)
  {
    var parts := [part] + rest;
    assert parts[|parts| - 1] == rest[|rest| - 1];
    if Splittable(parts, sep, b) {
      assert parts[0] == part;
      forall k | 0 <= k < |rest| - 1 ensures JoinsCleanly(rest[k], sep, b) {
        assert rest[k] == parts[k + 1];
      }
    }
  }

  /** The head of a join splits off exactly when it joins cleanly. */
  lemma SplitCons(part: string, sep: string, tail: string, b: nat, rest: seq<string>)
    requires |sep| > 0 && LongestBorder(sep, b)
    ensures Split(part + sep + tail, sep) == [part] + rest
       <==> JoinsCleanly(part, sep, b) && Split(tail, sep) == rest
  {
    var all := part + sep + tail;
    var i := Find(all, sep, 0);
    FirstOccurrence(part, sep, tail, b);
    var split := Split(all, sep);
    assert split == [all[..i]] + Split(all[i + |sep|..], sep);
    if i == |part| {
      assert all[..i] == part;
      assert all[i + |sep|..] == tail;
      assert split[1..] == Split(tail, sep);
      assert ([part] + rest)[1..] == rest;
    } else {
      assert |split[0]| != |part|;
      assert ([part] + rest)[0] == part;
    }
  }

  /** Splitting undoes joining exactly on `Splittable` lists. */
  lemma {:induction false} SplitJoin(parts: seq<string>, sep: string, b: nat)
    requires |sep| > 0 && LongestBorder(sep, b) && |parts| > 0
    ensures Split(Join(parts, sep), sep) == parts <==> Splittable(parts, sep, b)
    decreases |parts|
  {
    if |parts| == 1 {
      var i := Find(parts[0], sep, 0);
      if i != -1 {
        assert |Split(parts[0], sep)| > 1;
      }
    } else {
      var rest := parts[1..];
      assert parts == [parts[0]] + rest;
      SplitJoin(rest, sep, b);
      SplitCons(parts[0], sep, Join(rest, sep), b, rest);
      SplittableCons(parts[0], rest, sep, b);
    }
  }

  /** A clean part is in particular free of the separator. */
  lemma CleanIsFree(part: string, sep: string, b: nat)
    requires b <= |sep| && JoinsCleanly(part, sep, b)
    ensures !Contains(part, sep)
  {
    if Contains(part, sep) {
      var i :| OccursAt(part, sep, i);
      assert (part + sep[..b])[i..i + |sep|] == part[i..i + |sep|];
      assert OccursAt(part + sep[..b], sep, i);
    }
  }

  /** A list of clean parts survives the round trip. */
  lemma CleanPartsRoundTrip(parts: seq<string>, sep: string, b: nat)
    requires |sep| > 0 && LongestBorder(sep, b) && |parts| > 0
    requires forall p | p in parts :: JoinsCleanly(p, sep, b)
    ensures Split(Join(parts, sep), sep) == parts
  {
    CleanIsFree(parts[|parts| - 1], sep, b);
    SplitJoin(parts, sep, b);
  }

  lemma {:induction false} JoinExtend(parts: seq<string>, part: string, sep: string)
    requires |parts| > 0
    ensures Join(parts + [part], sep) == Join(parts, sep) + sep + part
    decreases |parts|
  {
    if |parts| == 1 {
      assert (parts + [part])[1..] == [part];
    } else {
      JoinExtend(parts[1..], part, sep);
      assert (parts + [part])[1..] == parts[1..] + [part];
    }
  }
}
