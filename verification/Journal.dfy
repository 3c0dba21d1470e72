/** `OperationJournal` in its own form: an ordered index, a command index and a log file changed in place. */
module Journal {
  import opened Prelude
  import opened JournalSpec

  class OperationJournal {
    const persistent: bool
    const limit: nat
    const maxBytes: nat
    /** Bytes of one line of the log. */
    const lineBytes: Snapshot -> nat

    var ops: seq<Snapshot>
    var index: map<string, string>
    var file: Option<seq<Snapshot>>

    function Bytes(lines: seq<Snapshot>): nat {
      if lines == [] then 0 else lineBytes(lines[0]) + Bytes(lines[1..])
    }

    function Log(): seq<Snapshot>
      reads this
    {
      file.GetOr([])
    }

    predicate Full()
      reads this
    {
      file.Some? && Bytes(file.value) >= maxBytes
    }

    ghost predicate Valid()
      reads this
    {
      && limit >= 1
      && Distinct(ops) && |ops| <= limit
      && (persistent ==> Remembers(Log(), ops, limit))
    }

    /** The whole log describes exactly the index in memory. */
    ghost predicate Refines()
      reads this
    {
      persistent ==> ops == Trim(Replay(Log()), limit)
    }

    ghost predicate Indexed()
      reads this
    {
      IndexAgrees(ops, index)
    }

    constructor (persistent: bool, limit: nat, maxBytes: nat, lineBytes: Snapshot -> nat, stored: Option<seq<Snapshot>>)
      requires limit >= 1
      ensures Valid()
      ensures this.persistent == persistent && this.limit == limit && this.maxBytes == maxBytes
      ensures file == stored
      ensures ops == if persistent then Loaded(stored.GetOr([]), limit) else []
      ensures |stored.GetOr([])| <= WindowSize(limit) ==> Refines()
      ensures Paired(stored.GetOr([])) ==> Indexed()
    {
      this.persistent, this.limit, this.maxBytes, this.lineBytes := persistent, limit, maxBytes, lineBytes;
      ops, index, file := [], map[], stored;
      new;
      hide Trim, Replay, Distinct, Upsert, IndexAgrees, Paired, Remembers;
      if persistent {
        Load();
      } else {
        assert Distinct([]) && IndexAgrees([], map[]) by { Nothing(); }
      }
    }

    method Load()
      requires persistent && limit >= 1 && ops == [] && index == map[]
      modifies this`ops, this`index
      ensures Valid() && ops == Loaded(Log(), limit)
      ensures |Log()| <= WindowSize(limit) ==> Refines()
      ensures Paired(Log()) ==> Indexed()
    {
      hide Trim, Replay, Distinct, Upsert, IndexAgrees, Paired, Remembers;
      Nothing();
      var recent := Recent(Log());
      var i := 0;
      while i < |recent|
        invariant 0 <= i <= |recent|
        invariant ops == Replay(recent[..i])
        invariant Paired(Log()) ==> IndexAgrees(ops, index)
      {
        var snapshot := recent[i];
        assert recent[..i + 1] == recent[..i] + [snapshot];
        ReplayStep(recent[..i], snapshot);
        if Paired(Log()) {
          WindowMembers(Log(), limit);
          PairedWith(Log(), recent, i);
          IndexUpsert(ops, index, snapshot);
        }
        ops := Upserted(ops, snapshot);
        index := index[snapshot.command := snapshot.op];
        i := i + 1;
      }
      assert recent[..|recent|] == recent;
      ReplayDistinct(recent);
      TrimMemory();
      LoadRemembers(Log(), limit);
      WholeWhenShort(Log(), limit);
    }

    /** The bounded deque of the loader. */
    method Recent(lines: seq<Snapshot>) returns (recent: seq<Snapshot>)
      ensures recent == Window(lines, limit)
    {
      var size := WindowSize(limit);
      recent := [];
      var i := 0;
      while i < |lines|
        invariant 0 <= i <= |lines|
        invariant recent == Trim(lines[..i], size)
      {
        assert lines[..i + 1] == lines[..i] + [lines[i]];
        recent := recent + [lines[i]];
        if |recent| > size {
          recent := recent[1..];
        }
        i := i + 1;
      }
      assert lines[..|lines|] == lines;
    }

    /** Oldest entries go first, each with the command that still points at it. */
    method TrimMemory()
      requires limit >= 1 && Distinct(ops)
      modifies this`ops, this`index
      ensures ops == Trim(old(ops), limit) && Distinct(ops) && |ops| <= limit
      ensures old(IndexAgrees(ops, index)) ==> IndexAgrees(ops, index)
      ensures |old(ops)| <= limit ==> index == old(index)
    {
      hide IndexAgrees, Distinct;
      ghost var before := ops;
      ghost var dropped := 0;
      while |ops| > limit
        invariant dropped <= |before| && ops == before[dropped..]
        invariant dropped > 0 ==> |ops| >= limit
        invariant Distinct(ops)
        invariant old(IndexAgrees(ops, index)) ==> IndexAgrees(ops, index)
        invariant |before| <= limit ==> index == old(index)
        decreases |ops|
      {
        if IndexAgrees(ops, index) {
          IndexDropFirst(ops, index);
        }
        var snapshot := ops[0];
        assert ops == [snapshot] + ops[1..];
        DistinctParts([snapshot], ops[1..]);
        DropOne(before, dropped);
        dropped := dropped + 1;
        ops := ops[1..];
        if snapshot.command in index && index[snapshot.command] == snapshot.op {
          index := index - {snapshot.command};
        }
      }
    }

    /** Rotate, then append one line; the index already holds the snapshot. */
    method Append(snapshot: Snapshot)
      modifies this`file
      ensures file == if persistent then Some(Appended(old(Log()), old(Full()), ops, snapshot, limit)) else old(file)
    {
      if !persistent { return; }
      if file.Some? && Bytes(file.value) >= maxBytes {
        file := Some(Trim(ops, limit));
      }
      file := Some(file.GetOr([]) + [snapshot]);
    }

    method Create(snapshot: Snapshot) returns (created: bool)
      requires Valid()
      modifies this
      ensures Valid()
      ensures created <==> !Has(old(ops), snapshot.op)
      ensures !created ==> unchanged(this)
      ensures created ==> ops == CreateRow(old(ops), snapshot, limit)
      ensures created && persistent ==> file == Some(Appended(old(Log()), old(Full()), old(ops) + [snapshot], snapshot, limit))
      ensures old(Refines()) ==> Refines()
      ensures old(Indexed()) && Scan(old(ops), snapshot.command).None? ==> Indexed()
    {
      hide Trim, Replay, Distinct, IndexAgrees, Scan, Find, Remembers;
      var found := Find(ops, snapshot.op);
      if found.Some? {
        InHas(ops, found.value);
        return false;
      }
      WithoutAbsent(ops, snapshot.op);
      UpsertShape(ops, snapshot);
      assert Upsert(ops, snapshot) == ops + [snapshot];
      ghost var scanned := Scan(ops, snapshot.command);
      if IndexAgrees(ops, index) && scanned.None? {
        NewToIndex(ops, snapshot);
        IndexUpsert(ops, index, snapshot);
      }
      Logged(snapshot);
      ops := ops + [snapshot];
      index := index[snapshot.command := snapshot.op];
      Append(snapshot);
      TrimMemory();
      created := true;
    }

    method Update(op: string, status: Status, detail: string) returns (r: Option<Snapshot>)
      requires Valid()
      modifies this
      ensures Valid()
      ensures r == Changed(old(ops), op, status, detail)
      ensures r.None? ==> unchanged(this)
      ensures ops == UpdateRow(old(ops), op, status, detail)
      ensures r.Some? && persistent ==>
                file == Some(Appended(old(Log()), old(Full()), Upsert(old(ops), r.value), r.value, limit))
      ensures old(Refines()) ==> Refines()
      ensures old(Indexed()) ==> Indexed()
    {
      hide Trim, Replay, Distinct, IndexAgrees, Upsert, Has, Remembers;
      var found := Find(ops, op);
      if found.None? { return None; }
      var snapshot := found.value.(status := status, detail := detail);
      InHas(ops, found.value);
      UpsertShape(ops, snapshot);
      if IndexAgrees(ops, index) {
        OwnCommand(ops, index, found.value);
        IndexUpsert(ops, index, snapshot);
      }
      Logged(snapshot);
      ops := Upserted(ops, snapshot);
      index := index[snapshot.command := op];
      Append(snapshot);
      var p := TrimSplits(ops, limit);
      TrimMemory();
      r := Some(snapshot);
    }

    /** What both writers rely on: the log after the append still ends in the index. */
    lemma Logged(snapshot: Snapshot)
      requires Valid()
      ensures var after := Upsert(ops, snapshot);
              var log := Appended(Log(), Full(), after, snapshot, limit);
              && (persistent ==> Remembers(log, Trim(after, limit), limit))
              && (persistent && Refines() ==> Trim(after, limit) == Trim(Replay(log), limit))
    {
      hide Trim, Replay, Distinct, Appended, Upsert, Remembers;
      if persistent {
        AppendRemembers(Log(), Full(), ops, snapshot, limit);
        if Refines() {
          AppendRefines(Log(), Full(), ops, snapshot, limit);
        }
      }
    }

    method ByCommand(command: string) returns (r: Option<Snapshot>)
      requires Valid()
      ensures Indexed() ==> r == Scan(ops, command)
    {
      hide IndexAgrees, Distinct, Trim, Replay;
      if Indexed() {
        IndexIsScan(ops, index, command);
      }
      if command !in index { return None; }
      r := Find(ops, index[command]);
    }
  }

  /** `pop` and reinsert, as the ordered dictionary does it. */
  function Upserted(ops: seq<Snapshot>, s: Snapshot): (r: seq<Snapshot>)
    ensures r == Upsert(ops, s)
  {
    Without(ops, s.op) + [s]
  }

  lemma Nothing()
    ensures Distinct([]) && IndexAgrees([], map[]) && Replay([]) == [] && forall n: nat :: Trim([], n) == []
  {
  }

  lemma DropOne(s: seq<Snapshot>, n: nat)
    requires n < |s|
    ensures s[n..][1..] == s[n + 1..]
  {
  }

  lemma WindowMembers(log: seq<Snapshot>, limit: nat)
    ensures forall s | s in Window(log, limit) :: s in log
  {
  }

  lemma WholeWhenShort(log: seq<Snapshot>, limit: nat)
    ensures |log| <= WindowSize(limit) ==> Loaded(log, limit) == Trim(Replay(log), limit)
  {
  }

  lemma PairedWith(log: seq<Snapshot>, recent: seq<Snapshot>, i: nat)
    requires Paired(log) && i < |recent| && forall s | s in recent :: s in log
    ensures forall t | t in Replay(recent[..i]) :: t.op == recent[i].op <==> t.command == recent[i].command
  {
    ReplayMembers(recent[..i]);
  }

  lemma NewToIndex(ops: seq<Snapshot>, s: Snapshot)
    requires !Has(ops, s.op) && Scan(ops, s.command).None?
    ensures forall t | t in ops :: t.op == s.op <==> t.command == s.command
  {
  }

  lemma OwnCommand(ops: seq<Snapshot>, index: map<string, string>, s: Snapshot)
    requires Distinct(ops) && IndexAgrees(ops, index) && s in ops
    ensures forall t | t in ops :: t.op == s.op <==> t.command == s.command
  {
    forall t | t in ops && t.op == s.op ensures t == s {
      FindIsUnique(ops, s);
      FindIsUnique(ops, t);
    }
  }
}
