/**
 Whole runs of the relay, restarts included. Command ids are fresh and operation ids are not reused.
 Every node's queue stays the unclaimed commands in submission order, the journal agrees with the live
 commands, and a terminal outcome is final.
 */
module RelaySafety {
  import opened Prelude
  import opened JournalSpec
  import opened RelaySpec

  datatype Event =
    | ERegister(n: string)
    | ESubmit(n: string, c: Command, admitted: bool)
    | EClaim(n: string)
    | EResult(n: string, id: string, failed: bool, uncertain: bool)
    | ERemove(n: string, id: string, reason: Status)
    | ERestart(forgotten: nat)

  datatype Moment = Moment(event: Event, detail: string)

  /** Where and in which order a command was submitted. */
  datatype Origin = Origin(n: string, op: string, mutation: bool, born: nat)

  /** `home`, `handed` and `ended` are history: origins, claims per node in order, commands with a terminal result. */
  datatype World = World(d: Relay, home: map<string, Origin>, handed: map<string, seq<string>>, ended: set<string>)

  ghost predicate Fresh(w: World, c: Command) {
    c.id !in w.home && !c.claimed && forall x | x in w.home :: w.home[x].op != c.op
  }

  ghost predicate Enabled(w: World, m: Moment) {
    match m.event
    case ESubmit(_, c, _) => Fresh(w, c)
    case ERemove(_, _, reason) => reason.TimedOut? || reason.Cancelled?
    case ERestart(k) => k <= |w.d.rows|
    case _ => true
  }

  function React(d: Relay, m: Moment, limits: Limits): (Relay, Reply)
    requires m.event.ERestart? ==> m.event.forgotten <= |d.rows|
  {
    match m.event
    case ERegister(n) => (Register(d, n), Done)
    case ESubmit(n, c, admitted) => Submit(d, n, c, admitted, limits, m.detail)
    case EClaim(n) => Claim(d, n, m.detail)
    case EResult(n, id, failed, uncertain) => Result(d, n, id, failed, uncertain, m.detail)
    case ERemove(n, id, reason) => Remove(d, n, id, reason, m.detail)
    case ERestart(k) => (Restart(d, k), Done)
  }

  function HandedTo(w: World, n: string): seq<string> {
    if n in w.handed then w.handed[n] else []
  }

  predicate EndsIt(m: Moment, r: Reply) {
    m.event.EResult? && r.Settled? && Terminal(r.status)
  }

  function Advance(w: World, m: Moment, out: (Relay, Reply)): World {
    World(
      out.0,
      if m.event.ESubmit? then w.home[m.event.c.id := Origin(m.event.n, m.event.c.op, m.event.c.mutation, |w.home|)] else w.home,
      if m.event.EClaim? && out.1.Handed? then w.handed[m.event.n := HandedTo(w, m.event.n) + [out.1.command]] else w.handed,
      if EndsIt(m, out.1) then w.ended + {m.event.id} else w.ended)
  }

  ghost function Step(w: World, m: Moment, limits: Limits): World
    requires Enabled(w, m)
  {
    Advance(w, m, React(w.d, m, limits))
  }

  // ---------------------------------------------------------------- the invariant

  /** Strictly increasing submission numbers: in order and without repetition. */
  ghost predicate InOrder(home: map<string, Origin>, s: seq<string>) {
    && (forall c | c in s :: c in home)
    && (forall i, j | 0 <= i < j < |s| :: home[s[i]].born < home[s[j]].born)
  }

  ghost predicate HomeOk(home: map<string, Origin>) {
    && (forall c | c in home :: home[c].born < |home|)
    && (forall c, x | c in home && x in home && home[c].op == home[x].op :: c == x)
  }

  /** The queue is exactly the unclaimed commands. */
  ghost predicate QueueOk(node: Node) {
    forall c :: c in node.queue <==> c in node.commands && !node.commands[c].claimed
  }

  predicate CommandOk(home: map<string, Origin>, n: string, id: string, c: Command) {
    && c.id == id && id in home
    && home[id].n == n && home[id].op == c.op && home[id].mutation == c.mutation
  }

  ghost predicate NodeOk(home: map<string, Origin>, n: string, node: Node, maxPending: nat) {
    && QueueOk(node)
    && |node.commands| <= maxPending
    && (forall c | c in node.commands :: CommandOk(home, n, c, node.commands[c]))
  }

  function StatusOf(c: Command): Status {
    if c.claimed then Claimed else Queued
  }

  predicate Live(nodes: map<string, Node>, n: string, c: string) {
    n in nodes && c in nodes[n].commands
  }

  /** A row belongs to its command, and is queued or claimed exactly as the live command is. */
  predicate RowOk(home: map<string, Origin>, nodes: map<string, Node>, s: Snapshot) {
    && s.command in home
    && home[s.command].n == s.node && home[s.command].op == s.op && home[s.command].mutation == s.mutation
    && (if Live(nodes, s.node, s.command) then s.status == StatusOf(nodes[s.node].commands[s.command])
        else !Incomplete(s.status))
  }

  /** A command with a terminal result is gone, and its row, while kept, says so. */
  ghost predicate EndedOk(home: map<string, Origin>, nodes: map<string, Node>, rows: seq<Snapshot>, c: string) {
    && c in home
    && !Live(nodes, home[c].n, c)
    && (forall s | s in rows && s.command == c :: Terminal(s.status))
  }

  function QueueOf(d: Relay, n: string): seq<string> {
    if n in d.nodes then d.nodes[n].queue else []
  }

  ghost predicate LinesOk(w: World) {
    forall n :: InOrder(w.home, HandedTo(w, n) + QueueOf(w.d, n))
  }

  ghost predicate RowsOk(home: map<string, Origin>, d: Relay, limits: Limits) {
    && Distinct(d.rows) && |d.rows| <= limits.history
    && (forall s | s in d.rows :: RowOk(home, d.nodes, s))
  }

  ghost predicate NodesOk(home: map<string, Origin>, nodes: map<string, Node>, maxPending: nat) {
    forall n | n in nodes :: NodeOk(home, n, nodes[n], maxPending)
  }

  ghost predicate AllEnded(home: map<string, Origin>, nodes: map<string, Node>, rows: seq<Snapshot>, ended: set<string>) {
    forall c | c in ended :: EndedOk(home, nodes, rows, c)
  }

  ghost predicate Agree(w: World, limits: Limits) {
    && limits.history >= 1
    && HomeOk(w.home)
    && NodesOk(w.home, w.d.nodes, limits.maxPending)
    && RowsOk(w.home, w.d, limits)
    && LinesOk(w)
    && AllEnded(w.home, w.d.nodes, w.d.rows, w.ended)
  }

  const START: World := World(Relay(map[], []), map[], map[], {})

  lemma StartAgrees(limits: Limits)
    requires limits.history >= 1
    ensures Agree(START, limits)
  {
  }

  /** The histories and queues of all nodes but `n` are untouched. */
  lemma LinesAfter(w: World, v: World, n: string)
    requires LinesOk(w) && InOrder(v.home, HandedTo(v, n) + QueueOf(v.d, n))
    requires forall q | q != n :: HandedTo(v, q) == HandedTo(w, q) && QueueOf(v.d, q) == QueueOf(w.d, q)
    requires forall s :: InOrder(w.home, s) ==> InOrder(v.home, s)
    ensures LinesOk(v)
  {
    hide InOrder;
    forall q ensures InOrder(v.home, HandedTo(v, q) + QueueOf(v.d, q)) {
      assert InOrder(w.home, HandedTo(w, q) + QueueOf(w.d, q));
    }
  }

  lemma NodesAfter(home: map<string, Origin>, nodes: map<string, Node>, n: string, node: Node, maxPending: nat)
    requires NodesOk(home, nodes, maxPending) && NodeOk(home, n, node, maxPending)
    ensures NodesOk(home, nodes[n := node], maxPending)
  {
    hide NodeOk;
  }

  /** What the invariant says about one node. */
  lemma KnownNode(w: World, limits: Limits, n: string)
    requires Agree(w, limits) && n in w.d.nodes
    ensures NodeOk(w.home, n, w.d.nodes[n], limits.maxPending) && QueueOk(w.d.nodes[n])
    ensures InOrder(w.home, HandedTo(w, n) + w.d.nodes[n].queue)
  {
    assert InOrder(w.home, HandedTo(w, n) + QueueOf(w.d, n));
  }

  lemma KnownRow(w: World, limits: Limits, s: Snapshot)
    requires Agree(w, limits) && s in w.d.rows
    ensures RowOk(w.home, w.d.nodes, s)
  {
  }

  lemma EndedRow(w: World, limits: Limits, c: string, s: Snapshot)
    requires Agree(w, limits) && c in w.ended && s in w.d.rows && s.command == c
    ensures Terminal(s.status)
  {
    assert EndedOk(w.home, w.d.nodes, w.d.rows, c);
  }

  // ---------------------------------------------------------------- submission

  lemma HomeGrows(home: map<string, Origin>, n: string, c: Command)
    requires HomeOk(home) && c.id !in home && forall x | x in home :: home[x].op != c.op
    ensures HomeOk(home[c.id := Origin(n, c.op, c.mutation, |home|)])
    ensures forall s :: InOrder(home, s) ==> InOrder(home[c.id := Origin(n, c.op, c.mutation, |home|)], s)
    ensures forall s :: InOrder(home, s) ==> InOrder(home[c.id := Origin(n, c.op, c.mutation, |home|)], s + [c.id])
  {
  }

  /** The history alone grew: nothing else is affected. */
  lemma RefusedSubmit(w: World, m: Moment, limits: Limits)
    requires Agree(w, limits) && m.event.ESubmit? && Fresh(w, m.event.c)
    ensures Agree(w.(home := w.home[m.event.c.id := Origin(m.event.n, m.event.c.op, m.event.c.mutation, |w.home|)]), limits)
  {
    hide InOrder, Distinct, HomeOk, Live, QueueOk;
    HomeGrows(w.home, m.event.n, m.event.c);
    var v := w.(home := w.home[m.event.c.id := Origin(m.event.n, m.event.c.op, m.event.c.mutation, |w.home|)]);
    forall n | n in v.d.nodes ensures NodeOk(v.home, n, v.d.nodes[n], limits.maxPending) {
      assert NodeOk(w.home, n, w.d.nodes[n], limits.maxPending);
    }
    forall s | s in v.d.rows ensures RowOk(v.home, v.d.nodes, s) {
      assert RowOk(w.home, w.d.nodes, s);
    }
    forall n ensures InOrder(v.home, HandedTo(v, n) + QueueOf(v.d, n)) {
      assert HandedTo(v, n) == HandedTo(w, n);
      assert InOrder(w.home, HandedTo(w, n) + QueueOf(w.d, n));
    }
    forall c | c in v.ended ensures EndedOk(v.home, v.d.nodes, v.d.rows, c) {
      assert EndedOk(w.home, w.d.nodes, w.d.rows, c);
    }
  }

  lemma CreatedRows(rows: seq<Snapshot>, s: Snapshot, history: nat)
    requires Distinct(rows) && !Has(rows, s.op) && history >= 1
    ensures Distinct(CreateRow(rows, s, history)) && |CreateRow(rows, s, history)| <= history
    ensures forall t | t in CreateRow(rows, s, history) :: t == s || t in rows
  {
    hide Has, Distinct, Without;
    WithoutAbsent(rows, s.op);
    UpsertShape(rows, s);
    var p := TrimSplits(rows + [s], history);
    DistinctParts(p, CreateRow(rows, s, history));
    assert forall t | t in CreateRow(rows, s, history) :: t in rows + [s];
  }

  lemma EnqueuedNode(home: map<string, Origin>, n: string, node: Node, c: Command, maxPending: nat)
    requires NodeOk(home, n, node, maxPending) && |node.commands| < maxPending && CommandOk(home, n, c.id, c)
    requires c.id !in node.commands && !c.claimed
    ensures NodeOk(home, n, Enqueued(node, c), maxPending)
  {
    var e := Enqueued(node, c);
    forall x ensures x in e.queue <==> x in e.commands && !e.commands[x].claimed {
      assert x in e.queue <==> x in node.queue || x == c.id;
    }
    assert e.commands.Keys == node.commands.Keys + {c.id};
  }

  lemma SubmittedRows(home: map<string, Origin>, d: Relay, n: string, c: Command, limits: Limits, detail: string)
    requires RowsOk(home, d, limits) && n in d.nodes && !Has(d.rows, c.op) && limits.history >= 1
    requires CommandOk(home, n, c.id, c) && !c.claimed
    requires forall s | s in d.rows :: s.command != c.id
    ensures RowsOk(home, Submit(d, n, c, true, limits, detail).0, limits)
  {
    hide Distinct, CreateRow, Has;
    var more := Submit(d, n, c, true, limits, detail).0;
    CreatedRows(d.rows, QueuedRow(n, c, detail), limits.history);
    forall s | s in more.rows ensures RowOk(home, more.nodes, s) {
      if s in d.rows {
        assert RowOk(home, d.nodes, s);
      }
    }
  }

  lemma SubmittedEnded(home: map<string, Origin>, d: Relay, n: string, c: Command, limits: Limits, detail: string, ended: set<string>)
    requires AllEnded(home, d.nodes, d.rows, ended) && n in d.nodes && !Has(d.rows, c.op) && limits.history >= 1
    requires c.id !in ended && Distinct(d.rows)
    ensures var more := Submit(d, n, c, true, limits, detail).0; AllEnded(home, more.nodes, more.rows, ended)
  {
    hide Distinct, CreateRow, Has;
    var more := Submit(d, n, c, true, limits, detail).0;
    CreatedRows(d.rows, QueuedRow(n, c, detail), limits.history);
    forall x | x in ended ensures EndedOk(home, more.nodes, more.rows, x) {
      assert EndedOk(home, d.nodes, d.rows, x);
    }
  }

  lemma AcceptedSubmit(w: World, m: Moment, limits: Limits)
    requires Agree(w, limits) && m.event.ESubmit? && m.event.c.id in w.home && !m.event.c.claimed
    requires m.event.n in w.d.nodes && |w.d.nodes[m.event.n].commands| < limits.maxPending && !Has(w.d.rows, m.event.c.op)
    requires CommandOk(w.home, m.event.n, m.event.c.id, m.event.c)
    requires forall s | s in w.d.rows :: s.command != m.event.c.id
    requires m.event.c.id !in w.d.nodes[m.event.n].commands
    requires InOrder(w.home, HandedTo(w, m.event.n) + QueueOf(w.d, m.event.n) + [m.event.c.id])
    requires m.event.c.id !in w.ended
    ensures Agree(w.(d := Submit(w.d, m.event.n, m.event.c, true, limits, m.detail).0), limits)
  {
    hide InOrder, Distinct, HomeOk, QueueOk, CreateRow, Has, NodesOk, LinesOk, AllEnded, NodeOk;
    var n, c := m.event.n, m.event.c;
    var v := w.(d := Submit(w.d, n, c, true, limits, m.detail).0);
    KnownNode(w, limits, n);
    SubmittedRows(w.home, w.d, n, c, limits, m.detail);
    SubmittedEnded(w.home, w.d, n, c, limits, m.detail, w.ended);
    EnqueuedNode(w.home, n, w.d.nodes[n], c, limits.maxPending);
    NodesAfter(w.home, w.d.nodes, n, Enqueued(w.d.nodes[n], c), limits.maxPending);
    assert HandedTo(v, n) + QueueOf(v.d, n) == HandedTo(w, n) + QueueOf(w.d, n) + [c.id];
    LinesAfter(w, v, n);
  }

  /** A command id that was never submitted appears nowhere. */
  lemma FreshIsNowhere(w: World, limits: Limits, n: string, c: Command)
    requires Agree(w, limits) && Fresh(w, c) && n in w.d.nodes
    ensures c.id !in w.d.nodes[n].commands && c.id !in w.ended
    ensures forall s | s in w.d.rows :: s.command != c.id
  {
    assert NodeOk(w.home, n, w.d.nodes[n], limits.maxPending);
    assert c.id in w.d.nodes[n].commands ==> CommandOk(w.home, n, c.id, w.d.nodes[n].commands[c.id]);
    assert c.id in w.ended ==> EndedOk(w.home, w.d.nodes, w.d.rows, c.id);
    forall s | s in w.d.rows ensures s.command != c.id {
      assert RowOk(w.home, w.d.nodes, s);
    }
  }

  lemma SubmitStep(w: World, m: Moment, limits: Limits)
    requires Agree(w, limits) && Enabled(w, m) && m.event.ESubmit?
    ensures Agree(Step(w, m, limits), limits)
  {
    hide InOrder, Distinct, HomeOk, QueueOk, Has, NodesOk, LinesOk, AllEnded, NodeOk, RowsOk;
    var n, c := m.event.n, m.event.c;
    var v := w.(home := w.home[c.id := Origin(n, c.op, c.mutation, |w.home|)]);
    RefusedSubmit(w, m, limits);
    if Submit(w.d, n, c, m.event.admitted, limits, m.detail).1.Done? {
      HomeGrows(w.home, n, c);
      KnownNode(w, limits, n);
      assert HandedTo(v, n) == HandedTo(w, n);
      FreshIsNowhere(w, limits, n, c);
      AcceptedSubmit(v, m, limits);
      assert Step(w, m, limits) == v.(d := Submit(v.d, n, c, true, limits, m.detail).0);
    } else {
      assert Step(w, m, limits) == v;
    }
  }

  // ---------------------------------------------------------------- steps on one known command

  /** Node `n` changed at command `c` only. */
  predicate SameButOne(nodes: map<string, Node>, more: map<string, Node>, n: string, c: string) {
    && n in nodes && n in more
    && more == nodes[n := more[n]]
    && more[n].commands - {c} == nodes[n].commands - {c}
  }

  /** The row of command `c` now says `status`; all others stand. */
  lemma RowsAfterUpdate(w: World, limits: Limits, more: map<string, Node>, n: string, c: string, status: Status, detail: string)
    requires Agree(w, limits) && SameButOne(w.d.nodes, more, n, c) && c in w.home && w.home[c].n == n
    requires if c in more[n].commands then status == StatusOf(more[n].commands[c]) else !Incomplete(status)
    ensures RowsOk(w.home, Relay(more, UpdateRow(w.d.rows, w.home[c].op, status, detail)), limits)
  {
    hide Distinct, LinesOk, NodesOk, AllEnded, UpdateRow;
    var rows := UpdateRow(w.d.rows, w.home[c].op, status, detail);
    UpdateMembers(w.d.rows, w.home[c].op, status, detail);
    forall t | t in rows ensures RowOk(w.home, more, t) {
      if t in w.d.rows && t.op != w.home[c].op {
        assert RowOk(w.home, w.d.nodes, t);
        assert t.command in more[n].commands - {c} <==> t.command in w.d.nodes[n].commands - {c};
      } else {
        var s :| s in w.d.rows && s.op == w.home[c].op && t == s.(status := status, detail := detail);
        assert RowOk(w.home, w.d.nodes, s);
      }
    }
  }

  /** Who had ended stays so: `c` itself ends now or had not ended. */
  lemma EndedAfterUpdate(w: World, limits: Limits, more: map<string, Node>, n: string, c: string, status: Status, detail: string, ended: set<string>)
    requires Agree(w, limits) && SameButOne(w.d.nodes, more, n, c) && c in w.home && w.home[c].n == n
    requires ended == w.ended || (ended == w.ended + {c} && c !in more[n].commands && Terminal(status))
    requires c in w.ended ==> Terminal(status) && c !in more[n].commands
    ensures AllEnded(w.home, more, UpdateRow(w.d.rows, w.home[c].op, status, detail), ended)
  {
    hide Distinct, LinesOk, NodesOk, UpdateRow;
    var rows := UpdateRow(w.d.rows, w.home[c].op, status, detail);
    UpdateMembers(w.d.rows, w.home[c].op, status, detail);
    forall x | x in ended ensures EndedOk(w.home, more, rows, x) {
      if x != c {
        assert EndedOk(w.home, w.d.nodes, w.d.rows, x);
        assert x in more[n].commands - {c} <==> x in w.d.nodes[n].commands - {c};
      }
      forall t | t in rows && t.command == x ensures Terminal(t.status) {
        if t in w.d.rows && t.op != w.home[c].op {
          assert RowOk(w.home, w.d.nodes, t);
        } else {
          var s :| s in w.d.rows && s.op == w.home[c].op && t == s.(status := status, detail := detail);
          assert RowOk(w.home, w.d.nodes, s);
        }
      }
    }
  }

  lemma LiveNotEnded(w: World, limits: Limits, n: string, c: string)
    requires Agree(w, limits) && Live(w.d.nodes, n, c)
    ensures c !in w.ended && CommandOk(w.home, n, c, w.d.nodes[n].commands[c])
  {
    assert NodeOk(w.home, n, w.d.nodes[n], limits.maxPending);
    assert c in w.ended ==> EndedOk(w.home, w.d.nodes, w.d.rows, c);
  }

  /** The first queue entry is live and unclaimed, so `claim` hands it out at once. */
  lemma PopTakesFirst(node: Node)
    requires QueueOk(node)
    ensures Pop(node) == if node.queue == [] then (node, None)
                         else (Node(node.queue[1..], node.commands[node.queue[0] := node.commands[node.queue[0]].(claimed := true)]),
                               Some(node.queue[0]))
    ensures node.queue != [] ==> node.queue[0] in node.commands && !node.commands[node.queue[0]].claimed
  {
    if node.queue != [] {
      assert node.queue[0] in node.queue;
    }
  }

  lemma OrderedParts(home: map<string, Origin>, a: seq<string>, b: seq<string>)
    requires InOrder(home, a + b)
    ensures InOrder(home, a) && InOrder(home, b)
    ensures forall i, j | 0 <= i < |a| && 0 <= j < |b| :: home[a[i]].born < home[b[j]].born
    ensures forall i, j | 0 <= i < j < |b| :: b[i] != b[j]
  {
    var s := a + b;
    forall i, j | 0 <= i < |a| && 0 <= j < |b| ensures home[a[i]].born < home[b[j]].born {
      assert s[i] == a[i] && s[|a| + j] == b[j];
    }
    forall i, j | 0 <= i < j < |a| ensures home[a[i]].born < home[a[j]].born {
      assert s[i] == a[i] && s[j] == a[j];
    }
    forall i, j | 0 <= i < j < |b| ensures home[b[i]].born < home[b[j]].born {
      assert s[|a| + i] == b[i] && s[|a| + j] == b[j];
    }
    forall c | c in a ensures c in home {
      assert c in s;
    }
    forall c | c in b ensures c in home {
      assert c in s;
    }
  }

  lemma ClaimedNode(home: map<string, Origin>, n: string, node: Node, maxPending: nat)
    requires NodeOk(home, n, node, maxPending) && InOrder(home, node.queue) && node.queue != []
    ensures NodeOk(home, n, Pop(node).0, maxPending)
  {
    PopTakesFirst(node);
    var c, p := node.queue[0], Pop(node).0;
    forall x ensures x in p.queue <==> x in p.commands && !p.commands[x].claimed {
      assert x in node.queue <==> x == c || x in p.queue by {
        assert node.queue == [c] + p.queue;
      }
      assert c !in p.queue by {
        assert forall i | 0 <= i < |p.queue| :: p.queue[i] == node.queue[i + 1];
      }
    }
    assert p.commands.Keys == node.commands.Keys;
  }

  lemma ClaimStep(w: World, m: Moment, limits: Limits)
    requires Agree(w, limits) && m.event.EClaim?
    ensures Agree(Step(w, m, limits), limits)
  {
    hide InOrder, Distinct, HomeOk, QueueOk, UpdateRow, RowsOk, EndedOk, Pop;
    var n := m.event.n;
    if n in w.d.nodes {
      var node := w.d.nodes[n];
      assert NodeOk(w.home, n, node, limits.maxPending);
      PopTakesFirst(node);
      if node.queue == [] {
        assert w.d.nodes[n := node] == w.d.nodes;
      } else {
        ClaimHands(w, m, limits);
      }
    }
  }

  lemma ClaimShape(w: World, m: Moment, limits: Limits)
    requires Agree(w, limits) && m.event.EClaim? && m.event.n in w.d.nodes && w.d.nodes[m.event.n].queue != []
    requires QueueOk(w.d.nodes[m.event.n])
    ensures var n := m.event.n; var node := w.d.nodes[n]; var c := node.queue[0]; var more := w.d.nodes[n := Pop(node).0];
            && c in node.commands && SameButOne(w.d.nodes, more, n, c) && c in more[n].commands && more[n].commands[c].claimed
            && Step(w, m, limits) == World(Relay(more, UpdateRow(w.d.rows, node.commands[c].op, Claimed, m.detail)),
                                           w.home, w.handed[n := HandedTo(w, n) + [c]], w.ended)
  {
    hide Agree, QueueOk, UpdateRow, Pop;
    PopTakesFirst(w.d.nodes[m.event.n]);
  }

  lemma ClaimHands(w: World, m: Moment, limits: Limits)
    requires Agree(w, limits) && m.event.EClaim? && m.event.n in w.d.nodes && w.d.nodes[m.event.n].queue != []
    ensures Agree(Step(w, m, limits), limits)
  {
    hide InOrder, Distinct, HomeOk, QueueOk, UpdateRow, RowsOk, NodeOk, NodesOk, LinesOk, AllEnded, React, Advance, SameButOne, Pop, Terminal;
    var n := m.event.n;
    var node := w.d.nodes[n];
    KnownNode(w, limits, n);
    PopTakesFirst(node);
    ClaimShape(w, m, limits);
    var c := node.queue[0];
    var v := Step(w, m, limits);
    OrderedParts(w.home, HandedTo(w, n), node.queue);
    ClaimedNode(w.home, n, node, limits.maxPending);
    NodesAfter(w.home, w.d.nodes, n, Pop(node).0, limits.maxPending);
    LiveNotEnded(w, limits, n, c);
    RowsAfterUpdate(w, limits, v.d.nodes, n, c, Claimed, m.detail);
    EndedAfterUpdate(w, limits, v.d.nodes, n, c, Claimed, m.detail, w.ended);
    assert HandedTo(v, n) + QueueOf(v.d, n) == HandedTo(w, n) + node.queue by {
      assert node.queue == [c] + node.queue[1..];
    }
    LinesAfter(w, v, n);
  }

  lemma DepartedNode(home: map<string, Origin>, n: string, node: Node, c: string, queue: seq<string>, maxPending: nat)
    requires NodeOk(home, n, node, maxPending)
    requires forall x :: x in queue <==> x in node.queue && x != c
    ensures NodeOk(home, n, Node(queue, node.commands - {c}), maxPending)
  {
    var less := node.commands - {c};
    assert less.Keys <= node.commands.Keys;
    CardinalityLe(less.Keys, node.commands.Keys);
  }

  /** A command left its node, claimed or not; its row got a final or uncertain status. */
  lemma DepartureKeeps(w: World, limits: Limits, n: string, c: string, queue: seq<string>, status: Status, detail: string, ended: set<string>)
    requires Agree(w, limits) && Live(w.d.nodes, n, c) && !Incomplete(status)
    requires ended == w.ended || (ended == w.ended + {c} && Terminal(status))
    requires forall x :: x in queue <==> x in w.d.nodes[n].queue && x != c
    requires InOrder(w.home, HandedTo(w, n) + queue)
    ensures var node := Node(queue, w.d.nodes[n].commands - {c});
            Agree(World(Relay(w.d.nodes[n := node], UpdateRow(w.d.rows, w.d.nodes[n].commands[c].op, status, detail)),
                        w.home, w.handed, ended), limits)
  {
    hide InOrder, Distinct, HomeOk, UpdateRow, RowsOk, NodesOk, NodeOk, QueueOk, LinesOk, AllEnded, Incomplete, Terminal;
    var node := Node(queue, w.d.nodes[n].commands - {c});
    var more := w.d.nodes[n := node];
    LiveNotEnded(w, limits, n, c);
    KnownNode(w, limits, n);
    DepartedNode(w.home, n, w.d.nodes[n], c, queue, limits.maxPending);
    NodesAfter(w.home, w.d.nodes, n, node, limits.maxPending);
    RowsAfterUpdate(w, limits, more, n, c, status, detail);
    EndedAfterUpdate(w, limits, more, n, c, status, detail, ended);
    LinesAfter(w, World(Relay(more, UpdateRow(w.d.rows, w.d.nodes[n].commands[c].op, status, detail)), w.home, w.handed, ended), n);
  }

  lemma CardinalityLe<T>(a: set<T>, b: set<T>)
    requires a <= b
    ensures |a| <= |b|
  {
    assert b == a + (b - a);
  }

  lemma LiveResultStep(w: World, m: Moment, limits: Limits)
    requires Agree(w, limits) && m.event.EResult? && Live(w.d.nodes, m.event.n, m.event.id)
    ensures Agree(Step(w, m, limits), limits)
  {
    hide InOrder, UpdateRow, Agree, NodeOk;
    var n, c := m.event.n, m.event.id;
    var node := w.d.nodes[n];
    if node.commands[c].claimed {
      var status := LiveStatus(node.commands[c].mutation, m.event.failed, m.event.uncertain);
      KnownNode(w, limits, n);
      assert c !in node.queue;
      DepartureKeeps(w, limits, n, c, node.queue, status, m.detail, if Terminal(status) then w.ended + {c} else w.ended);
    }
  }

  lemma LateResultStep(w: World, m: Moment, limits: Limits)
    requires Agree(w, limits) && m.event.EResult? && m.event.n in w.d.nodes && !Live(w.d.nodes, m.event.n, m.event.id)
    requires Result(w.d, m.event.n, m.event.id, m.event.failed, m.event.uncertain, m.detail).1.Settled?
    ensures Agree(Step(w, m, limits), limits)
  {
    hide InOrder, Distinct, HomeOk, UpdateRow, RowsOk, NodesOk, LinesOk, AllEnded;
    var n, c := m.event.n, m.event.id;
    var s := Scan(w.d.rows, c).value;
    KnownRow(w, limits, s);
    var status := LateStatus(s.mutation, m.event.failed, m.event.uncertain);
    var ended := if Terminal(status) then w.ended + {c} else w.ended;
    if c in w.ended {
      EndedRow(w, limits, c, s);
    }
    RowsAfterUpdate(w, limits, w.d.nodes, n, c, status, m.detail);
    EndedAfterUpdate(w, limits, w.d.nodes, n, c, status, m.detail, ended);
    var v := Step(w, m, limits);
    assert v == World(Relay(w.d.nodes, UpdateRow(w.d.rows, s.op, status, m.detail)), w.home, w.handed, ended);
    KnownNode(w, limits, n);
    LinesAfter(w, v, n);
  }

  lemma ResultStep(w: World, m: Moment, limits: Limits)
    requires Agree(w, limits) && m.event.EResult?
    ensures Agree(Step(w, m, limits), limits)
  {
    hide Agree, UpdateRow;
    if Live(w.d.nodes, m.event.n, m.event.id) {
      LiveResultStep(w, m, limits);
    } else if m.event.n in w.d.nodes
           && Result(w.d, m.event.n, m.event.id, m.event.failed, m.event.uncertain, m.detail).1.Settled? {
      LateResultStep(w, m, limits);
    } else {
      assert Step(w, m, limits) == w;
    }
  }

  lemma {:induction false} RemoveFirstShape(home: map<string, Origin>, a: seq<string>, queue: seq<string>, c: string)
    requires InOrder(home, a + queue)
    ensures forall x :: x in RemoveFirst(queue, c) <==> x in queue && x != c
    ensures InOrder(home, a + RemoveFirst(queue, c))
    decreases |queue|
  {
    if queue != [] {
      OrderedParts(home, a, queue);
      assert queue == [queue[0]] + queue[1..];
      assert a + queue == (a + [queue[0]]) + queue[1..];
      if queue[0] == c {
        forall x | x in queue[1..] ensures x != c {
          var i :| 0 <= i < |queue[1..]| && queue[1..][i] == x;
          assert queue[0] != queue[i + 1];
        }
        DropMiddle(home, a, c, queue[1..]);
      } else {
        RemoveFirstShape(home, a + [queue[0]], queue[1..], c);
        assert a + RemoveFirst(queue, c) == (a + [queue[0]]) + RemoveFirst(queue[1..], c);
      }
    }
  }

  lemma DropMiddle(home: map<string, Origin>, a: seq<string>, c: string, b: seq<string>)
    requires InOrder(home, (a + [c]) + b)
    ensures InOrder(home, a + b)
  {
    OrderedParts(home, a + [c], b);
    OrderedParts(home, a, [c]);
    forall i, j | 0 <= i < |a| && 0 <= j < |b| ensures home[a[i]].born < home[b[j]].born {
      assert (a + [c])[i] == a[i];
    }
  }

  lemma RemoveStep(w: World, m: Moment, limits: Limits)
    requires Agree(w, limits) && m.event.ERemove? && (m.event.reason.TimedOut? || m.event.reason.Cancelled?)
    ensures Agree(Step(w, m, limits), limits)
  {
    hide InOrder, UpdateRow, RemoveFirst, Agree, NodeOk;
    var n, c := m.event.n, m.event.id;
    if Live(w.d.nodes, n, c) {
      var node := w.d.nodes[n];
      KnownNode(w, limits, n);
      RemoveFirstShape(w.home, HandedTo(w, n), node.queue, c);
      var status := if node.commands[c].claimed && node.commands[c].mutation then Uncertain else m.event.reason;
      DepartureKeeps(w, limits, n, c, RemoveFirst(node.queue, c), status, m.detail, w.ended);
    }
  }

  /** The rows a restart leaves, against an empty relay. */
  lemma RestartedRows(w: World, limits: Limits, k: nat)
    requires Agree(w, limits) && k <= |w.d.rows|
    ensures RowsOk(w.home, Restart(w.d, k), limits) && AllEnded(w.home, map[], Restart(w.d, k).rows, w.ended)
  {
    hide InOrder, HomeOk, NodesOk, Restart, LinesOk, Distinct, AllEnded;
    assert Distinct(w.d.rows);
    RestartRecovers(w.d, k);
    var kept, rows := w.d.rows[k..], Restart(w.d, k).rows;
    forall t | t in rows ensures RowOk(w.home, map[], t) {
      var s :| s in kept && t == AfterRestart(s);
      assert s in w.d.rows;
      KnownRow(w, limits, s);
    }
    forall c | c in w.ended ensures EndedOk(w.home, map[], rows, c) {
      assert EndedOk(w.home, w.d.nodes, w.d.rows, c) by { EndedKnown(w, limits, c); }
      forall t | t in rows && t.command == c ensures Terminal(t.status) {
        var s :| s in kept && t == AfterRestart(s);
        assert s in w.d.rows;
      }
    }
    AllEndedBy(w.home, map[], rows, w.ended);
  }

  lemma EndedKnown(w: World, limits: Limits, c: string)
    requires Agree(w, limits) && c in w.ended
    ensures EndedOk(w.home, w.d.nodes, w.d.rows, c)
  {
  }

  lemma AllEndedBy(home: map<string, Origin>, nodes: map<string, Node>, rows: seq<Snapshot>, ended: set<string>)
    requires forall c | c in ended :: EndedOk(home, nodes, rows, c)
    ensures AllEnded(home, nodes, rows, ended)
  {
  }

  lemma RestartStep(w: World, m: Moment, limits: Limits)
    requires Agree(w, limits) && Enabled(w, m) && m.event.ERestart?
    ensures Agree(Step(w, m, limits), limits)
  {
    hide InOrder, HomeOk, RowsOk, AllEnded, IncompleteRows, Recover;
    var v := Step(w, m, limits);
    RestartedRows(w, limits, m.event.forgotten);
    forall q ensures InOrder(v.home, HandedTo(v, q) + QueueOf(v.d, q)) {
      assert InOrder(w.home, HandedTo(w, q) + QueueOf(w.d, q));
      OrderedParts(w.home, HandedTo(w, q), QueueOf(w.d, q));
      assert HandedTo(v, q) + QueueOf(v.d, q) == HandedTo(w, q);
    }
  }

  lemma RegisterStep(w: World, m: Moment, limits: Limits)
    requires Agree(w, limits) && m.event.ERegister?
    ensures Agree(Step(w, m, limits), limits)
  {
    hide InOrder, HomeOk, Distinct, LinesOk, NodesOk;
    var n := m.event.n;
    if n !in w.d.nodes {
      var v := Step(w, m, limits);
      forall s | s in v.d.rows ensures RowOk(v.home, v.d.nodes, s) {
        assert RowOk(w.home, w.d.nodes, s);
      }
      forall c | c in w.ended ensures EndedOk(v.home, v.d.nodes, v.d.rows, c) {
        assert EndedOk(w.home, w.d.nodes, w.d.rows, c);
      }
      EmptyNode(w.home, n, limits.maxPending);
      NodesAfter(w.home, w.d.nodes, n, Node([], map[]), limits.maxPending);
      LineOf(w, n);
      LinesAfter(w, v, n);
    }
  }

  lemma EmptyNode(home: map<string, Origin>, n: string, maxPending: nat)
    ensures NodeOk(home, n, Node([], map[]), maxPending)
  {
  }

  lemma LineOf(w: World, n: string)
    requires LinesOk(w)
    ensures InOrder(w.home, HandedTo(w, n) + QueueOf(w.d, n))
  {
  }

  lemma StepKeepsAgree(w: World, m: Moment, limits: Limits)
    requires Agree(w, limits) && Enabled(w, m)
    ensures Agree(Step(w, m, limits), limits)
  {
    hide Agree, React, Fresh;
    match m.event
    case ERegister(_) => RegisterStep(w, m, limits);
    case ESubmit(_, _, _) => SubmitStep(w, m, limits);
    case EClaim(_) => ClaimStep(w, m, limits);
    case EResult(_, _, _, _) => ResultStep(w, m, limits);
    case ERemove(_, _, _) => RemoveStep(w, m, limits);
    case ERestart(_) => RestartStep(w, m, limits);
  }
}
