/**
 The desktop command relay (`app/desktop_nodes/service.py`) as functions: per node a queue and the
 live commands, beside them the journal rows. Each function stands for one body under the condition.
 */
module RelaySpec {
  import opened Prelude
  import opened JournalSpec

  datatype Command = Command(id: string, op: string, mutation: bool, retain: bool, claimed: bool)

  datatype Node = Node(queue: seq<string>, commands: map<string, Command>)

  datatype Relay = Relay(nodes: map<string, Node>, rows: seq<Snapshot>)

  datatype Limits = Limits(maxPending: nat, history: nat)

  datatype Why = NodeNotFound | NodeOffline | NodeBusy | InvalidArgument

  datatype Reply =
    | Refused(why: Why)
    | Done
    | Empty
    | Handed(command: string)
    | Settled(status: Status)

  predicate Terminal(s: Status) {
    s.Succeeded? || s.Failed? || s.LateSucceeded? || s.LateFailed?
  }

  predicate Incomplete(s: Status) {
    s.Queued? || s.Claimed?
  }

  // ---------------------------------------------------------------- journal rows

  function IncompleteRows(rows: seq<Snapshot>): (r: seq<Snapshot>)
    ensures forall s :: s in r <==> s in rows && Incomplete(s.status)
  {
    if rows == [] then []
    else (if Incomplete(rows[0].status) then [rows[0]] else []) + IncompleteRows(rows[1..])
  }

  /** What a restart makes of one unfinished row. */
  function Recovered(s: Snapshot): Snapshot {
    if s.status.Queued? then s.(status := Orphaned, detail := "bridge_restarted_before_claim")
    else s.(status := if s.mutation then Uncertain else Interrupted, detail := "bridge_restarted_after_claim")
  }

  function AfterRestart(s: Snapshot): Snapshot {
    if Incomplete(s.status) then Recovered(s) else s
  }

  function Mended(s: Snapshot, todo: seq<Snapshot>): Snapshot {
    if s in todo then Recovered(s) else s
  }

  function Recover(rows: seq<Snapshot>, todo: seq<Snapshot>): seq<Snapshot>
    decreases |todo|
  {
    if todo == [] then rows
    else Recover(UpdateRow(rows, todo[0].op, Recovered(todo[0]).status, Recovered(todo[0]).detail), todo[1..])
  }

  // ---------------------------------------------------------------- operations

  function Register(d: Relay, n: string): Relay {
    if n in d.nodes then d else d.(nodes := d.nodes[n := Node([], map[])])
  }

  function QueuedRow(n: string, c: Command, detail: string): Snapshot {
    Snapshot(c.op, c.id, n, c.mutation, c.retain, Queued, detail)
  }

  function Enqueued(node: Node, c: Command): Node {
    Node(node.queue + [c.id], node.commands[c.id := c])
  }

  /** The outcome of an operation on a registered node, put back into the relay. */
  function Lift(d: Relay, n: string, out: (Node, seq<Snapshot>, Reply)): (Relay, Reply) {
    if out.2.Refused? then (d, out.2) else (Relay(d.nodes[n := out.0], out.1), out.2)
  }

  /** `submit` and the enqueuing half of `call`; `admitted`: online, Fusion available, tool known, arguments small. */
  function SubmitTo(n: string, node: Node, rows: seq<Snapshot>, c: Command, admitted: bool, limits: Limits, detail: string)
    : (Node, seq<Snapshot>, Reply)
  {
    if !admitted then (node, rows, Refused(NodeOffline))
    else if |node.commands| >= limits.maxPending then (node, rows, Refused(NodeBusy))
    else if Has(rows, c.op) then (node, rows, Refused(InvalidArgument))
    else (Enqueued(node, c), CreateRow(rows, QueuedRow(n, c, detail), limits.history), Done)
  }

  function Submit(d: Relay, n: string, c: Command, admitted: bool, limits: Limits, detail: string): (Relay, Reply) {
    if n !in d.nodes then (d, Refused(NodeNotFound))
    else Lift(d, n, SubmitTo(n, d.nodes[n], d.rows, c, admitted, limits, detail))
  }

  /** The inner loop of `claim`: skip queue entries whose command is gone. */
  function Pop(node: Node): (r: (Node, Option<string>))
    ensures r.1.Some? ==> r.1.value in r.0.commands
    decreases |node.queue|
  {
    if node.queue == [] then (node, None)
    else
      var c := node.queue[0];
      if c in node.commands
      then (Node(node.queue[1..], node.commands[c := node.commands[c].(claimed := true)]), Some(c))
      else Pop(Node(node.queue[1..], node.commands))
  }

  function ClaimFrom(node: Node, rows: seq<Snapshot>, detail: string): (Node, seq<Snapshot>, Reply) {
    var (more, c) := Pop(node);
    if c.None? then (more, rows, Empty)
    else (more, UpdateRow(rows, more.commands[c.value].op, Claimed, detail), Handed(c.value))
  }

  function Claim(d: Relay, n: string, detail: string): (Relay, Reply) {
    if n !in d.nodes then (d, Refused(NodeNotFound)) else Lift(d, n, ClaimFrom(d.nodes[n], d.rows, detail))
  }

  function LiveStatus(mutation: bool, failed: bool, uncertain: bool): Status {
    if uncertain && mutation then Uncertain else if failed then Failed else Succeeded
  }

  function LateStatus(mutation: bool, failed: bool, uncertain: bool): Status {
    if uncertain && mutation then Uncertain else if failed then LateFailed else LateSucceeded
  }

  /** A result for a command that is gone: only the journal can take it, once. */
  function LateResult(n: string, rows: seq<Snapshot>, c: string, failed: bool, uncertain: bool, detail: string)
    : (seq<Snapshot>, Reply)
  {
    var archived := Scan(rows, c);
    if archived.Some? && archived.value.node == n && !Terminal(archived.value.status) then
      var status := LateStatus(archived.value.mutation, failed, uncertain);
      (UpdateRow(rows, archived.value.op, status, detail), Settled(status))
    else (rows, Refused(InvalidArgument))
  }

  /** `submit_result`; `failed` and `uncertain` are what the result says of itself. */
  function ResultFor(n: string, node: Node, rows: seq<Snapshot>, c: string, failed: bool, uncertain: bool, detail: string)
    : (Node, seq<Snapshot>, Reply)
  {
    if c in node.commands then
      var command := node.commands[c];
      if !command.claimed then (node, rows, Refused(InvalidArgument))
      else
        var status := LiveStatus(command.mutation, failed, uncertain);
        (Node(node.queue, node.commands - {c}), UpdateRow(rows, command.op, status, detail), Settled(status))
    else
      var (more, reply) := LateResult(n, rows, c, failed, uncertain, detail);
      (node, more, reply)
  }

  function Result(d: Relay, n: string, c: string, failed: bool, uncertain: bool, detail: string): (Relay, Reply) {
    if n !in d.nodes then (d, Refused(NodeNotFound))
    else Lift(d, n, ResultFor(n, d.nodes[n], d.rows, c, failed, uncertain, detail))
  }

  /** The guard of `begin_result_upload`. */
  predicate TakesUpload(d: Relay, n: string, c: string) {
    && n in d.nodes
    && ((c in d.nodes[n].commands && d.nodes[n].commands[c].claimed)
        || (Scan(d.rows, c).Some? && Scan(d.rows, c).value.node == n && !Terminal(Scan(d.rows, c).value.status)))
  }

  function RemoveFirst(queue: seq<string>, c: string): seq<string> {
    if queue == [] then [] else if queue[0] == c then queue[1..] else [queue[0]] + RemoveFirst(queue[1..], c)
  }

  /** `_remove_command` for a live command whose caller timed out or was cancelled. */
  function RemoveFrom(node: Node, rows: seq<Snapshot>, c: string, reason: Status, detail: string): (Node, seq<Snapshot>, Reply)
    requires c in node.commands
  {
    var command := node.commands[c];
    var status := if command.claimed && command.mutation then Uncertain else reason;
    (Node(RemoveFirst(node.queue, c), node.commands - {c}), UpdateRow(rows, command.op, status, detail), Settled(status))
  }

  function Remove(d: Relay, n: string, c: string, reason: Status, detail: string): (Relay, Reply) {
    if n !in d.nodes || c !in d.nodes[n].commands then (d, Refused(InvalidArgument))
    else Lift(d, n, RemoveFrom(d.nodes[n], d.rows, c, reason, detail))
  }

  /** A new process: no nodes, the recent rows of the log, and the unfinished ones recovered. */
  function Restart(d: Relay, forgotten: nat): Relay
    requires forgotten <= |d.rows|
  {
    var rows := d.rows[forgotten..];
    Relay(map[], Recover(rows, IncompleteRows(rows)))
  }

  // ---------------------------------------------------------------- rows after an update

  lemma UpdateMembers(rows: seq<Snapshot>, op: string, status: Status, detail: string)
    requires Distinct(rows)
    ensures var more := UpdateRow(rows, op, status, detail);
            && Distinct(more) && |more| == |rows|
            && (forall t :: t in more <==>
                  (t in rows && t.op != op) || (exists s | s in rows :: s.op == op && t == s.(status := status, detail := detail)))
  {
    hide Distinct;
    var found := Find(rows, op);
    if found.Some? {
      var s := found.value.(status := status, detail := detail);
      InHas(rows, found.value);
      UpsertShape(rows, s);
      forall t | t in rows && t.op == op ensures t == found.value {
        FindIsUnique(rows, t);
      }
    } else {
      forall s | s in rows ensures s.op != op {
        if s.op == op {
          InHas(rows, s);
        }
      }
    }
  }

  /** Recovering one row replaces it and keeps the others. */
  lemma RecoverOne(rows: seq<Snapshot>, first: Snapshot)
    requires Distinct(rows) && first in rows
    ensures var more := UpdateRow(rows, first.op, Recovered(first).status, Recovered(first).detail);
            && Distinct(more) && |more| == |rows| && Recovered(first) in more
            && (forall s | s in rows && s != first :: s.op != first.op && s in more)
            && (forall t | t in more && t != Recovered(first) :: t in rows && t.op != first.op)
  {
    hide Distinct, UpdateRow;
    UpdateMembers(rows, first.op, Recovered(first).status, Recovered(first).detail);
    forall s | s in rows && s.op == first.op ensures s == first {
      FindIsUnique(rows, s);
      FindIsUnique(rows, first);
    }
  }

  /** Peeling one row off the list of rows to mend. */
  lemma MendOne(rows: seq<Snapshot>, first: Snapshot, rest: seq<Snapshot>)
    requires Distinct([first] + rest)
    ensures Mended(first, [first] + rest) == Recovered(first) == Mended(Recovered(first), rest)
    ensures forall s | s != first :: Mended(s, [first] + rest) == Mended(s, rest)
    ensures forall s | s in rest :: s.op != first.op
  {
    DistinctParts([first], rest);
    InHas([first], first);
    forall s | s in rest ensures s.op != first.op {
      InHas(rest, s);
    }
  }

  lemma {:induction false} RecoverMembers(rows: seq<Snapshot>, todo: seq<Snapshot>)
    requires Distinct(rows) && Distinct(todo) && forall s | s in todo :: s in rows
    ensures Distinct(Recover(rows, todo)) && |Recover(rows, todo)| == |rows|
    ensures forall s | s in rows :: Mended(s, todo) in Recover(rows, todo)
    ensures forall t | t in Recover(rows, todo) :: exists s | s in rows :: t == Mended(s, todo)
    decreases |todo|
  {
    hide Distinct, UpdateRow, Recovered;
    if todo != [] {
      var first, rest := todo[0], todo[1..];
      var r := Recovered(first);
      var more := UpdateRow(rows, first.op, r.status, r.detail);
      assert todo == [first] + rest;
      RecoverOne(rows, first);
      MendOne(rows, first, rest);
      DistinctParts([first], rest);
      hide Mended;
      RecoverMembers(more, rest);
      forall s | s in rows ensures Mended(s, todo) in Recover(rows, todo) {
        var m := if s == first then r else s;
        assert Mended(m, rest) == Mended(s, todo);
      }
      forall t | t in Recover(rows, todo) ensures exists s | s in rows :: t == Mended(s, todo) {
        var m :| m in more && t == Mended(m, rest);
        var s := if m == r then first else m;
        assert t == Mended(s, todo);
      }
    }
  }

  lemma {:induction false} IncompleteRowsDistinct(rows: seq<Snapshot>)
    requires Distinct(rows)
    ensures Distinct(IncompleteRows(rows))
  {
    if rows != [] {
      var first, rest := rows[0], rows[1..];
      assert rows == [first] + rest;
      DistinctParts([first], rest);
      InHas([first], first);
      IncompleteRowsDistinct(rest);
      forall j | 0 <= j < |IncompleteRows(rest)| ensures IncompleteRows(rest)[j].op != first.op {
        var s := IncompleteRows(rest)[j];
        assert s in rest;
        InHas(rest, s);
      }
    }
  }

  /** After a restart nothing is queued or claimed, unfinished rows say what happened, all others are as they were. */
  lemma RestartRecovers(d: Relay, forgotten: nat)
    requires Distinct(d.rows) && forgotten <= |d.rows|
    ensures var rows, kept := Restart(d, forgotten).rows, d.rows[forgotten..];
            && Restart(d, forgotten).nodes == map[]
            && Distinct(rows) && |rows| == |kept|
            && (forall t | t in rows :: !Incomplete(t.status))
            && (forall s | s in kept :: AfterRestart(s) in rows)
            && (forall t | t in rows :: exists s | s in kept :: t == AfterRestart(s))
  {
    hide Distinct, Recover, Recovered, IncompleteRows;
    var kept := d.rows[forgotten..];
    assert d.rows == d.rows[..forgotten] + kept;
    DistinctParts(d.rows[..forgotten], kept);
    RecoverAll(kept);
  }

  lemma RecoverAll(kept: seq<Snapshot>)
    requires Distinct(kept)
    ensures var rows := Recover(kept, IncompleteRows(kept));
            && Distinct(rows) && |rows| == |kept|
            && (forall t | t in rows :: !Incomplete(t.status))
            && (forall s | s in kept :: AfterRestart(s) in rows)
            && (forall t | t in rows :: exists s | s in kept :: t == AfterRestart(s))
  {
    hide Distinct, Recover, Recovered, IncompleteRows, Incomplete, Mended, AfterRestart;
    var todo := IncompleteRows(kept);
    IncompleteRowsDistinct(kept);
    RecoverMembers(kept, todo);
    forall s | s in kept ensures Mended(s, todo) == AfterRestart(s) && !Incomplete(AfterRestart(s).status) {
      MendedIsAfterRestart(kept, s);
    }
  }

  lemma MendedIsAfterRestart(kept: seq<Snapshot>, s: Snapshot)
    requires s in kept
    ensures Mended(s, IncompleteRows(kept)) == AfterRestart(s) && !Incomplete(AfterRestart(s).status)
  {
  }
}
