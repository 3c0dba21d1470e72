/**
 The operation journal (`app/desktop_nodes/journal.py`) as functions: an index of operations ordered
 by their last change, over an append-only log of snapshots that is rotated when it grows too large.
 */
module JournalSpec {
  import opened Prelude

  datatype Status =
    | Queued | Claimed | Succeeded | Failed | LateSucceeded | LateFailed
    | Uncertain | TimedOut | Cancelled | Orphaned | Interrupted

  /** One journal row; `detail` stands for the fields nothing below depends on. */
  datatype Snapshot = Snapshot(op: string, command: string, node: string, mutation: bool, retain: bool, status: Status, detail: string)

  ghost predicate Distinct(ops: seq<Snapshot>) {
    forall i, j | 0 <= i < j < |ops| :: ops[i].op != ops[j].op
  }

  function Has(ops: seq<Snapshot>, op: string): (r: bool)
    ensures r <==> exists i :: 0 <= i < |ops| && ops[i].op == op
  {
    exists s | s in ops :: s.op == op
  }

  /** `pop(op, None)` on the ordered dictionary. */
  function Without(ops: seq<Snapshot>, op: string): (r: seq<Snapshot>)
    ensures forall s :: s in r <==> s in ops && s.op != op
  {
    if ops == [] then [] else (if ops[0].op == op then [] else [ops[0]]) + Without(ops[1..], op)
  }

  /** Pop and reinsert at the end. */
  function Upsert(ops: seq<Snapshot>, s: Snapshot): seq<Snapshot> {
    Without(ops, s.op) + [s]
  }

  /** Only the last `limit` entries. */
  function Trim(ops: seq<Snapshot>, limit: nat): seq<Snapshot> {
    if |ops| > limit then ops[|ops| - limit..] else ops
  }

  /** The index that a log describes. */
  function Replay(log: seq<Snapshot>): seq<Snapshot> {
    if log == [] then [] else Upsert(Replay(log[..|log| - 1]), log[|log| - 1])
  }

  function WindowSize(limit: nat): nat {
    if limit * 4 >= 100 then limit * 4 else 100
  }

  /** The lines that `_load` looks at. */
  function Window(log: seq<Snapshot>, limit: nat): seq<Snapshot> {
    Trim(log, WindowSize(limit))
  }

  function Loaded(log: seq<Snapshot>, limit: nat): seq<Snapshot> {
    Trim(Replay(Window(log, limit)), limit)
  }

  /** The log after `_append`: rotated to the current index first when it has reached its size. */
  function Appended(log: seq<Snapshot>, full: bool, ops: seq<Snapshot>, s: Snapshot, limit: nat): seq<Snapshot> {
    (if full then Trim(ops, limit) else log) + [s]
  }

  function Find(ops: seq<Snapshot>, op: string): (r: Option<Snapshot>)
    ensures r.Some? ==> r.value in ops && r.value.op == op
    ensures r.None? ==> !Has(ops, op)
  {
    if ops == [] then None else if ops[0].op == op then Some(ops[0]) else Find(ops[1..], op)
  }

  /** A linear scan for a command id. */
  function Scan(ops: seq<Snapshot>, command: string): (r: Option<Snapshot>)
    ensures r.Some? ==> r.value in ops && r.value.command == command
    ensures r.None? ==> forall s | s in ops :: s.command != command
  {
    if ops == [] then None else if ops[0].command == command then Some(ops[0]) else Scan(ops[1..], command)
  }

  /** The row `update` writes: the fields it names replaced, ids kept. */
  function Changed(ops: seq<Snapshot>, op: string, status: Status, detail: string): Option<Snapshot> {
    match Find(ops, op)
    case None => None
    case Some(s) => Some(s.(status := status, detail := detail))
  }

  /** The index after `create` of a new operation, and after `update`. */
  function CreateRow(rows: seq<Snapshot>, s: Snapshot, history: nat): seq<Snapshot> {
    Trim(rows + [s], history)
  }

  function UpdateRow(rows: seq<Snapshot>, op: string, status: Status, detail: string): seq<Snapshot> {
    match Changed(rows, op, status, detail)
    case None => rows
    case Some(s) => Upsert(rows, s)
  }

  // ---------------------------------------------------------------- order and distinctness

  lemma {:induction false} WithoutConcat(a: seq<Snapshot>, b: seq<Snapshot>, op: string)
    ensures Without(a + b, op) == Without(a, op) + Without(b, op)
  {
    if a == [] {
      assert a + b == b;
    } else {
      assert (a + b)[0] == a[0] && (a + b)[1..] == a[1..] + b;
      WithoutConcat(a[1..], b, op);
    }
  }

  lemma {:induction false} WithoutAbsent(ops: seq<Snapshot>, op: string)
    requires !Has(ops, op)
    ensures Without(ops, op) == ops
  {
    if ops != [] {
      assert ops[0] in ops;
      assert forall s | s in ops[1..] :: s in ops;
      WithoutAbsent(ops[1..], op);
    }
  }

  lemma DistinctParts(a: seq<Snapshot>, b: seq<Snapshot>)
    requires Distinct(a + b)
    ensures Distinct(a) && Distinct(b)
    ensures forall op :: Has(a, op) ==> !Has(b, op)
  {
    var c := a + b;
    forall i, j | 0 <= i < j < |a| ensures a[i].op != a[j].op {
      assert c[i] == a[i] && c[j] == a[j];
    }
    forall i, j | 0 <= i < j < |b| ensures b[i].op != b[j].op {
      assert c[|a| + i] == b[i] && c[|a| + j] == b[j];
    }
    forall i, j | 0 <= i < |a| && 0 <= j < |b| ensures a[i].op != b[j].op {
      assert c[i] == a[i] && c[|a| + j] == b[j];
    }
  }

  lemma {:induction false} WithoutShape(ops: seq<Snapshot>, op: string)
    requires Distinct(ops)
    ensures Distinct(Without(ops, op))
    ensures |Without(ops, op)| == if Has(ops, op) then |ops| - 1 else |ops|
  {
    if ops != [] {
      assert ops == [ops[0]] + ops[1..];
      DistinctParts([ops[0]], ops[1..]);
      WithoutShape(ops[1..], op);
      if ops[0].op == op {
        assert Has([ops[0]], op) by { assert [ops[0]][0].op == op; }
      } else if Has(ops[1..], op) {
        var i :| 0 <= i < |ops[1..]| && ops[1..][i].op == op;
        assert ops[i + 1].op == op;
      }
      var rest := Without(ops[1..], op);
      if ops[0].op != op {
        forall j | 0 <= j < |rest| ensures rest[j].op != ops[0].op {
          assert rest[j] in ops[1..];
          assert Has([ops[0]], ops[0].op) by { assert [ops[0]][0].op == ops[0].op; }
        }
      }
    }
  }

  lemma UpsertShape(ops: seq<Snapshot>, s: Snapshot)
    requires Distinct(ops)
    ensures Distinct(Upsert(ops, s))
    ensures |Upsert(ops, s)| == if Has(ops, s.op) then |ops| else |ops| + 1
  {
    WithoutShape(ops, s.op);
    var w := Without(ops, s.op);
    forall i | 0 <= i < |w| ensures w[i].op != s.op {
      assert w[i] in w;
    }
  }

  lemma {:induction false} ReplayDistinct(log: seq<Snapshot>)
    ensures Distinct(Replay(log))
  {
    if log != [] {
      ReplayDistinct(log[..|log| - 1]);
      UpsertShape(Replay(log[..|log| - 1]), log[|log| - 1]);
    }
  }

  /** What trimming drops. */
  lemma TrimSplits(ops: seq<Snapshot>, limit: nat) returns (p: seq<Snapshot>)
    ensures ops == p + Trim(ops, limit)
    ensures if |ops| > limit then |Trim(ops, limit)| == limit else p == [] && Trim(ops, limit) == ops
    ensures Distinct(ops) ==> Distinct(Trim(ops, limit))
  {
    p := if |ops| > limit then ops[..|ops| - limit] else [];
  }

  lemma TrimConcat(p: seq<Snapshot>, z: seq<Snapshot>, limit: nat)
    requires |z| >= limit
    ensures Trim(p + z, limit) == Trim(z, limit)
  {
  }

  lemma ReplayStep(log: seq<Snapshot>, s: Snapshot)
    ensures Replay(log + [s]) == Upsert(Replay(log), s)
  {
    assert (log + [s])[..|log + [s]| - 1] == log;
  }

  // ---------------------------------------------------------------- the log refines the index

  /** Trimming before or after one more line makes no difference. */
  lemma TrimUpsert(r: seq<Snapshot>, s: Snapshot, limit: nat)
    requires Distinct(r) && limit >= 1
    ensures Trim(Upsert(r, s), limit) == Trim(Upsert(Trim(r, limit), s), limit)
  {
    hide Trim, Without, Distinct, Has;
    var p := TrimSplits(r, limit);
    var y := Trim(r, limit);
    if |r| > limit {
      WithoutConcat(p, y, s.op);
      DistinctParts(p, y);
      WithoutShape(y, s.op);
      var z := Without(y, s.op) + [s];
      assert Upsert(r, s) == Without(p, s.op) + z;
      TrimConcat(Without(p, s.op), z, limit);
    }
  }

  lemma {:induction false} ReplayOfDistinct(ops: seq<Snapshot>)
    requires Distinct(ops)
    ensures Replay(ops) == ops
  {
    if ops != [] {
      var front, s := ops[..|ops| - 1], ops[|ops| - 1];
      assert ops == front + [s];
      DistinctParts(front, [s]);
      ReplayOfDistinct(front);
      assert Has([s], s.op) by { assert [s][0].op == s.op; }
      WithoutAbsent(front, s.op);
    }
  }

  /** Writing the last row again changes nothing. */
  lemma UpsertLast(front: seq<Snapshot>, s: Snapshot)
    requires Distinct(front + [s])
    ensures Upsert(front + [s], s) == front + [s]
  {
    WithoutConcat(front, [s], s.op);
    DistinctParts(front, [s]);
    assert Has([s], s.op) by { assert [s][0].op == s.op; }
    WithoutAbsent(front, s.op);
    assert Without([s], s.op) == [];
  }

  /** Rotation writes the index out and then the new line again: the log still describes the same index. */
  lemma RotationKeepsIndex(before: seq<Snapshot>, s: Snapshot, limit: nat)
    requires Distinct(before) && limit >= 1
    ensures var ops := Upsert(before, s); Trim(Replay(Appended([], true, ops, s, limit)), limit) == Trim(ops, limit)
  {
    hide Without, Distinct, Has, Replay;
    var ops := Upsert(before, s);
    UpsertShape(before, s);
    var p := TrimSplits(ops, limit);
    var kept := Trim(ops, limit);
    ReplayOfDistinct(kept);
    ReplayStep(kept, s);
    assert kept[|kept| - 1] == s;
    assert kept == kept[..|kept| - 1] + [s];
    UpsertLast(kept[..|kept| - 1], s);
  }

  /** One append, with or without rotation, from a log that describes the index before it. */
  lemma AppendRefines(log: seq<Snapshot>, full: bool, before: seq<Snapshot>, s: Snapshot, limit: nat)
    requires limit >= 1 && before == Trim(Replay(log), limit)
    ensures var ops := Upsert(before, s);
            Trim(Replay(Appended(log, full, ops, s, limit)), limit) == Trim(ops, limit)
  {
    hide Trim, Without, Distinct, Replay, Upsert;
    ReplayDistinct(log);
    var p := TrimSplits(Replay(log), limit);
    if full {
      RotationKeepsIndex(before, s, limit);
    } else {
      ReplayStep(log, s);
      TrimUpsert(Replay(log), s, limit);
    }
  }

  // ---------------------------------------------------------------- loading a window

  /** The index of a log ends with the index of any of its ends. */
  lemma {:induction false} ReplaySuffix(a: seq<Snapshot>, b: seq<Snapshot>) returns (p: seq<Snapshot>)
    ensures Replay(a + b) == p + Replay(b)
    decreases |b|
  {
    hide Without, Replay;
    if b == [] {
      assert a + b == a;
      p := Replay(a);
      EmptyReplay();
    } else {
      var front, s := b[..|b| - 1], b[|b| - 1];
      assert a + b == (a + front) + [s] && b == front + [s];
      p := ReplaySuffix(a, front);
      ReplayStep(a + front, s);
      ReplayStep(front, s);
      WithoutConcat(p, Replay(front), s.op);
      p := Without(p, s.op);
    }
  }

  lemma EmptyReplay()
    ensures Replay([]) == []
  {
  }

  lemma ConcatHas(a: seq<Snapshot>, b: seq<Snapshot>, op: string)
    ensures Has(a + b, op) <==> Has(a, op) || Has(b, op)
  {
    var c := a + b;
    if Has(a, op) {
      var i :| 0 <= i < |a| && a[i].op == op;
      assert c[i].op == op;
    }
    if Has(b, op) {
      var i :| 0 <= i < |b| && b[i].op == op;
      assert c[|a| + i].op == op;
    }
  }

  lemma WithoutHas(ops: seq<Snapshot>, op: string, q: string)
    ensures Has(Without(ops, op), q) <==> Has(ops, q) && q != op
  {
    var w := Without(ops, op);
    if Has(w, q) {
      var i :| 0 <= i < |w| && w[i].op == q;
      assert w[i] in ops;
    }
    if Has(ops, q) && q != op {
      var i :| 0 <= i < |ops| && ops[i].op == q;
      assert ops[i] in w;
    }
  }

  lemma {:induction false} ReplayIds(log: seq<Snapshot>, op: string)
    ensures Has(Replay(log), op) <==> Has(log, op)
  {
    hide Has, Without;
    if log == [] {
      EmptyReplay();
    } else {
      var front, s := log[..|log| - 1], log[|log| - 1];
      assert log == front + [s];
      ReplayIds(front, op);
      ConcatHas(front, [s], op);
      ConcatHas(Without(Replay(front), s.op), [s], op);
      WithoutHas(Replay(front), s.op, op);
      SingleHas(s, op);
    }
  }

  lemma SingleHas(s: Snapshot, op: string)
    ensures Has([s], op) <==> s.op == op
  {
    assert [s][0] == s;
  }

  /** Trimming a longer list keeps the trimmed end of it. */
  lemma TrimTail(q: seq<Snapshot>, y: seq<Snapshot>, limit: nat) returns (p: seq<Snapshot>)
    ensures Trim(q + y, limit) == p + Trim(y, limit)
    ensures p == [] || Trim(y, limit) == y
  {
    if |y| >= limit {
      TrimConcat(q, y, limit);
      p := [];
    } else {
      var k := if |q| + |y| <= limit then 0 else |q| + |y| - limit;
      p := q[k..];
      DropLeft(q, y, k);
      assert Trim(q + y, limit) == (q + y)[k..];
    }
  }

  lemma DropLeft(q: seq<Snapshot>, y: seq<Snapshot>, k: nat)
    requires k <= |q|
    ensures (q + y)[k..] == q[k..] + y
  {
  }

  /** What `_load` reads back is the recent end of the index, row for row. */
  lemma LoadedIsSuffix(log: seq<Snapshot>, limit: nat) returns (p: seq<Snapshot>)
    ensures Trim(Replay(log), limit) == p + Loaded(log, limit)
    ensures p == [] || Loaded(log, limit) == Replay(Window(log, limit))
  {
    hide Replay, Trim;
    var a := WindowSplits(log, limit);
    var q := ReplaySuffix(a, Window(log, limit));
    p := TrimTail(q, Replay(Window(log, limit)), limit);
  }

  /** The loader reads the end of the log: at least a hundred lines and four times the limit, no more than one of the two, if there are. */
  lemma WindowSplits(log: seq<Snapshot>, limit: nat) returns (a: seq<Snapshot>)
    ensures log == a + Window(log, limit)
    ensures var n := |Window(log, limit)|; (n <= 100 || n <= 4 * limit) && (a != [] ==> 100 <= n && 4 * limit <= n)
  {
    a := TrimSplits(log, WindowSize(limit));
  }

  /** Memory is what the log says from line `k` on, and no line of the window lies before `k`. */
  ghost predicate Covers(log: seq<Snapshot>, ops: seq<Snapshot>, limit: nat, k: nat) {
    && k <= |log| && (k == 0 || |log| - k >= WindowSize(limit))
    && ops == Trim(Replay(log[k..]), limit)
  }

  ghost predicate Remembers(log: seq<Snapshot>, ops: seq<Snapshot>, limit: nat) {
    exists k: nat :: Covers(log, ops, limit, k)
  }

  lemma LoadRemembers(log: seq<Snapshot>, limit: nat)
    ensures Remembers(log, Loaded(log, limit), limit)
  {
    var k := |log| - |Window(log, limit)|;
    assert log[k..] == Window(log, limit);
    assert Covers(log, Loaded(log, limit), limit, k);
  }

  lemma AppendRemembers(log: seq<Snapshot>, full: bool, before: seq<Snapshot>, s: Snapshot, limit: nat)
    requires limit >= 1 && Remembers(log, before, limit)
    ensures var ops := Upsert(before, s); Remembers(Appended(log, full, ops, s, limit), Trim(ops, limit), limit)
  {
    hide Trim, Replay, Upsert, WindowSize;
    var k: nat :| Covers(log, before, limit, k);
    var ops := Upsert(before, s);
    var after := Appended(log, full, ops, s, limit);
    AppendRefines(log[k..], full, before, s, limit);
    if full {
      assert after[0..] == after;
      assert Covers(after, Trim(ops, limit), limit, 0);
    } else {
      DropLeft(log, [s], k);
      assert Covers(after, Trim(ops, limit), limit, k);
    }
  }

  /** A restart brings back the recent end of what was in memory, row for row; it never brings a forgotten row back. */
  lemma RestartKeepsRecentRows(log: seq<Snapshot>, ops: seq<Snapshot>, limit: nat) returns (p: seq<Snapshot>)
    requires Remembers(log, ops, limit)
    ensures ops == p + Loaded(log, limit)
  {
    hide Replay;
    var k: nat :| Covers(log, ops, limit, k);
    SameWindow(log, ops, limit, k);
    p := LoadedIsSuffix(log[k..], limit);
  }

  lemma SameWindow(log: seq<Snapshot>, ops: seq<Snapshot>, limit: nat, k: nat)
    requires Covers(log, ops, limit, k)
    ensures Window(log[k..], limit) == Window(log, limit) && ops == Trim(Replay(log[k..]), limit)
  {
    hide Replay;
    if k > 0 {
      TrimConcat(log[..k], log[k..], WindowSize(limit));
      assert log[..k] + log[k..] == log;
    } else {
      assert log[0..] == log;
    }
  }

  /** It is the whole index exactly when every row of the index has a line in the window. */
  lemma LoadedIsWhole(log: seq<Snapshot>, limit: nat)
    ensures var ops := Trim(Replay(log), limit);
            Loaded(log, limit) == ops <==> forall s | s in ops :: Has(Window(log, limit), s.op)
  {
    hide Replay, Trim, Has, Distinct;
    var b := Window(log, limit);
    var ops, loaded := Trim(Replay(log), limit), Loaded(log, limit);
    var p := LoadedIsSuffix(log, limit);
    ReplayDistinct(log);
    var u := TrimSplits(Replay(log), limit);
    var v := TrimSplits(Replay(b), limit);
    if p == [] {
      assert ops == loaded;
      forall s | s in ops ensures Has(b, s.op) {
        ReplayIds(b, s.op);
        InHas(Replay(b), s);
      }
    } else {
      var s := p[0];
      assert s in ops && loaded != ops;
      DistinctParts(p, loaded);
      InHas(p, s);
      ReplayIds(b, s.op);
    }
  }

  lemma InHas(ops: seq<Snapshot>, s: Snapshot)
    requires s in ops
    ensures Has(ops, s.op)
  {
  }

  /** A row can be lost: one operation rewritten 100 times pushes the line of another out of the window. */
  lemma LoadMayForgetARow(a: Snapshot, b: Snapshot)
    requires a.op != b.op
    ensures var log := [a] + Repeat(b, 100); Trim(Replay(log), 20) == [a, b] && Loaded(log, 20) == [b]
  {
    hide Replay;
    var tail := Repeat(b, 100);
    EmptyReplay();
    assert [] + [a] == [a];
    ReplayStep([], a);
    RepeatsAfter([], b, 100);
    assert [] + tail == tail;
    RepeatsAfter([a], b, 100);
    assert Without([a], b.op) == [a];
    assert Window([a] + tail, 20) == tail;
  }

  function Repeat(s: Snapshot, n: nat): (r: seq<Snapshot>)
    ensures |r| == n
  {
    if n == 0 then [] else Repeat(s, n - 1) + [s]
  }

  lemma {:induction false} RepeatsAfter(log: seq<Snapshot>, s: Snapshot, n: nat)
    requires n > 0
    ensures Replay(log + Repeat(s, n)) == Without(Replay(log), s.op) + [s]
  {
    hide Replay, Without;
    var front := log + Repeat(s, n - 1);
    assert log + Repeat(s, n) == front + [s];
    ReplayStep(front, s);
    if n == 1 {
      assert front == log;
    } else {
      RepeatsAfter(log, s, n - 1);
      WithoutTwice(Replay(log), s);
    }
  }

  lemma WithoutTwice(ops: seq<Snapshot>, s: Snapshot)
    ensures Without(Without(ops, s.op) + [s], s.op) == Without(ops, s.op)
  {
    var w := Without(ops, s.op);
    WithoutConcat(w, [s], s.op);
    WithoutHas(ops, s.op, s.op);
    WithoutAbsent(w, s.op);
    assert Without([s], s.op) == [];
  }

  // ---------------------------------------------------------------- the command index

  /** The index answers for exactly the commands of the rows in memory. */
  ghost predicate IndexAgrees(ops: seq<Snapshot>, index: map<string, string>) {
    && (forall s | s in ops :: s.command in index && index[s.command] == s.op)
    && (forall c | c in index :: exists s | s in ops :: s.command == c)
  }

  lemma IndexUpsert(ops: seq<Snapshot>, index: map<string, string>, s: Snapshot)
    requires IndexAgrees(ops, index)
    requires forall t | t in ops :: t.op == s.op <==> t.command == s.command
    ensures IndexAgrees(Upsert(ops, s), index[s.command := s.op])
  {
    var after, more := Upsert(ops, s), index[s.command := s.op];
    assert after[|after| - 1] == s;
    forall c | c in more ensures exists t | t in after :: t.command == c {
      if c == s.command {
        assert s in after;
      } else {
        var t :| t in ops && t.command == c;
        assert t in Without(ops, s.op);
        assert t in after;
      }
    }
  }

  /** Dropping the first row together with its index entry. */
  lemma IndexDropFirst(ops: seq<Snapshot>, index: map<string, string>)
    requires Distinct(ops) && IndexAgrees(ops, index) && |ops| > 0
    ensures ops[0].command in index && index[ops[0].command] == ops[0].op
    ensures IndexAgrees(ops[1..], index - {ops[0].command})
  {
    var less := index - {ops[0].command};
    forall s | s in ops[1..] ensures s.command in less {
      var i :| 0 <= i < |ops[1..]| && ops[1..][i] == s;
      assert ops[0].op != ops[i + 1].op;
      assert s in ops;
    }
    forall c | c in less ensures exists t | t in ops[1..] :: t.command == c {
      var t :| t in ops && t.command == c;
      assert t != ops[0];
      assert ops == [ops[0]] + ops[1..];
      assert t in ops[1..];
    }
  }

  /** Lines that keep operation and command ids paired. */
  ghost predicate Paired(log: seq<Snapshot>) {
    forall s, t | s in log && t in log :: s.op == t.op <==> s.command == t.command
  }

  lemma {:induction false} ReplayMembers(log: seq<Snapshot>)
    ensures forall s | s in Replay(log) :: s in log
  {
    if log != [] {
      ReplayMembers(log[..|log| - 1]);
    }
  }

  lemma {:induction false} FindIsUnique(ops: seq<Snapshot>, s: Snapshot)
    requires Distinct(ops) && s in ops
    ensures Find(ops, s.op) == Some(s)
  {
    if ops[0] != s {
      var i :| 0 <= i < |ops| && ops[i] == s;
      assert ops[0].op != ops[i].op;
      assert ops == [ops[0]] + ops[1..];
      DistinctParts([ops[0]], ops[1..]);
      FindIsUnique(ops[1..], s);
    }
  }

  /** Looking a command up through the index is the linear scan. */
  lemma IndexIsScan(ops: seq<Snapshot>, index: map<string, string>, command: string)
    requires Distinct(ops) && IndexAgrees(ops, index)
    ensures Scan(ops, command) == if command in index then Find(ops, index[command]) else None
  {
    var r := Scan(ops, command);
    if r.Some? {
      FindIsUnique(ops, r.value);
    }
  }
}
