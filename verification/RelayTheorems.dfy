/** What holds of every run of the relay, restarts included. */
module RelayTheorems {
  import opened Prelude
  import opened JournalSpec
  import opened RelaySpec
  import opened RelaySafety

  ghost predicate RunEnabled(w: World, run: seq<Moment>, limits: Limits)
    decreases |run|
  {
    |run| == 0 || (Enabled(w, run[0]) && RunEnabled(Step(w, run[0], limits), run[1..], limits))
  }

  /** The world before step `i` of a run whose steps are all possible. */
  ghost function At(w: World, run: seq<Moment>, limits: Limits, i: nat): World
    requires i <= |run| && RunEnabled(w, run, limits)
    decreases i
  {
    if i == 0 then w else At(Step(w, run[0], limits), run[1..], limits, i - 1)
  }

  ghost function Answer(w: World, run: seq<Moment>, limits: Limits, i: nat): Reply
    requires i < |run| && RunEnabled(w, run, limits)
  {
    EnabledAt(w, run, limits, i);
    React(At(w, run, limits, i).d, run[i], limits).1
  }

  lemma {:induction false} EnabledAt(w: World, run: seq<Moment>, limits: Limits, i: nat)
    requires RunEnabled(w, run, limits) && i < |run|
    ensures Enabled(At(w, run, limits, i), run[i])
    ensures At(w, run, limits, i + 1) == Step(At(w, run, limits, i), run[i], limits)
    decreases i
  {
    hide Step, Enabled;
    if i > 0 {
      EnabledAt(Step(w, run[0], limits), run[1..], limits, i - 1);
    } else {
      assert At(w, run, limits, 1) == At(Step(w, run[0], limits), run[1..], limits, 0);
    }
  }

  lemma {:induction false} AgreeAt(w: World, run: seq<Moment>, limits: Limits, i: nat)
    requires Agree(w, limits) && RunEnabled(w, run, limits) && i <= |run|
    ensures Agree(At(w, run, limits, i), limits)
    decreases i
  {
    hide Step, Enabled, Agree;
    if i > 0 {
      StepKeepsAgree(w, run[0], limits);
      AgreeAt(Step(w, run[0], limits), run[1..], limits, i - 1);
    }
  }

  lemma AgreeFromStart(run: seq<Moment>, limits: Limits, i: nat)
    requires limits.history >= 1 && RunEnabled(START, run, limits) && i <= |run|
    ensures Agree(At(START, run, limits, i), limits)
  {
    hide Agree, At, RunEnabled;
    StartAgrees(limits);
    AgreeAt(START, run, limits, i);
  }

  // ---------------------------------------------------------------- queue, commands and journal agree

  /**
   In every reachable state: a node's queue is exactly its unclaimed commands, once each and in submission
   order; the commands stay within the limit; a journalled operation is queued or claimed exactly when its
   command is live and unclaimed or claimed.
   */
  lemma RelayAgrees(run: seq<Moment>, limits: Limits, i: nat, n: string)
    requires limits.history >= 1 && RunEnabled(START, run, limits) && i <= |run|
    requires n in At(START, run, limits, i).d.nodes
    ensures var w := At(START, run, limits, i); var node := w.d.nodes[n];
            && (forall c :: c in node.queue <==> c in node.commands && !node.commands[c].claimed)
            && InOrder(w.home, node.queue)
            && |node.commands| <= limits.maxPending
            && (forall s | s in w.d.rows && s.node == n ::
                  && (s.status.Queued? <==> s.command in node.commands && !node.commands[s.command].claimed)
                  && (s.status.Claimed? <==> s.command in node.commands && node.commands[s.command].claimed))
  {
    hide At, RunEnabled;
    AgreeFromStart(run, limits, i);
    AgreementOf(At(START, run, limits, i), limits, n);
  }

  lemma AgreementOf(w: World, limits: Limits, n: string)
    requires Agree(w, limits) && n in w.d.nodes
    ensures var node := w.d.nodes[n];
            && (forall c :: c in node.queue <==> c in node.commands && !node.commands[c].claimed)
            && InOrder(w.home, node.queue)
            && |node.commands| <= limits.maxPending
            && (forall s | s in w.d.rows && s.node == n ::
                  && (s.status.Queued? <==> s.command in node.commands && !node.commands[s.command].claimed)
                  && (s.status.Claimed? <==> s.command in node.commands && node.commands[s.command].claimed))
  {
    hide Agree;
    KnownNode(w, limits, n);
    OrderedParts(w.home, HandedTo(w, n), w.d.nodes[n].queue);
    forall s | s in w.d.rows && s.node == n
      ensures s.status.Queued? <==> s.command in w.d.nodes[n].commands && !w.d.nodes[n].commands[s.command].claimed
      ensures s.status.Claimed? <==> s.command in w.d.nodes[n].commands && w.d.nodes[n].commands[s.command].claimed
    {
      KnownRow(w, limits, s);
    }
  }

  // ---------------------------------------------------------------- claims

  /** A claim hands out the oldest command that waits. */
  lemma ClaimTakesOldest(w: World, m: Moment, limits: Limits, c: string)
    requires Agree(w, limits) && m.event.EClaim? && React(w.d, m, limits).1 == Handed(c)
    ensures var n := m.event.n;
            && n in w.d.nodes && c in w.d.nodes[n].commands && !w.d.nodes[n].commands[c].claimed && c in w.home
            && (forall x | x in w.d.nodes[n].commands && x in w.home && !w.d.nodes[n].commands[x].claimed :: w.home[c].born <= w.home[x].born)
            && Step(w, m, limits).handed == w.handed[n := HandedTo(w, n) + [c]]
            && Step(w, m, limits).home == w.home
  {
    hide Agree, Pop, UpdateRow;
    KnownNode(w, limits, m.event.n);
    PopTakesFirst(w.d.nodes[m.event.n]);
    OrderedParts(w.home, HandedTo(w, m.event.n), w.d.nodes[m.event.n].queue);
  }

  /** Claims of a node only add up, and origins are kept. */
  lemma {:induction false} HistoryGrows(run: seq<Moment>, limits: Limits, i: nat, j: nat, n: string)
    requires limits.history >= 1 && RunEnabled(START, run, limits) && i <= j <= |run|
    ensures var v, w := At(START, run, limits, i), At(START, run, limits, j);
            && HandedTo(v, n) <= HandedTo(w, n)
            && (forall c | c in v.home :: c in w.home && w.home[c] == v.home[c])
            && v.ended <= w.ended
    decreases j
  {
    hide At, RunEnabled;
    if i < j {
      HistoryGrows(run, limits, i, j - 1, n);
      EnabledAt(START, run, limits, j - 1);
      StepGrows(At(START, run, limits, j - 1), run[j - 1], limits, n);
    }
  }

  lemma StepGrows(w: World, m: Moment, limits: Limits, n: string)
    requires Enabled(w, m)
    ensures HandedTo(w, n) <= HandedTo(Step(w, m, limits), n)
    ensures forall c | c in w.home :: c in Step(w, m, limits).home && Step(w, m, limits).home[c] == w.home[c]
    ensures w.ended <= Step(w, m, limits).ended
  {
    hide React;
  }

  /** Over a run each node claims its commands in the order they were submitted, none of them twice. */
  lemma ClaimedOnceInOrder(run: seq<Moment>, limits: Limits, i: nat, j: nat, n: string, c: string, d: string)
    requires limits.history >= 1 && RunEnabled(START, run, limits) && i < j < |run|
    requires run[i].event == EClaim(n) && Answer(START, run, limits, i) == Handed(c)
    requires run[j].event == EClaim(n) && Answer(START, run, limits, j) == Handed(d)
    ensures var w := At(START, run, limits, j); c in w.home && d in w.home && w.home[c].born < w.home[d].born
    ensures c != d
  {
    hide At, RunEnabled, React, Agree;
    AgreeFromStart(run, limits, i);
    AgreeFromStart(run, limits, j);
    AgreeFromStart(run, limits, j + 1);
    EnabledAt(START, run, limits, i);
    EnabledAt(START, run, limits, j);
    ClaimTakesOldest(At(START, run, limits, i), run[i], limits, c);
    ClaimTakesOldest(At(START, run, limits, j), run[j], limits, d);
    HistoryGrows(run, limits, i + 1, j, n);
    var w, v := At(START, run, limits, j), At(START, run, limits, j + 1);
    HandedInOrder(v, limits, n);
    var k := |HandedTo(At(START, run, limits, i), n)|;
    assert HandedTo(At(START, run, limits, i + 1), n)[k] == c;
    assert HandedTo(v, n)[k] == c && HandedTo(v, n)[|HandedTo(w, n)|] == d;
  }

  lemma HandedInOrder(w: World, limits: Limits, n: string)
    requires Agree(w, limits)
    ensures InOrder(w.home, HandedTo(w, n))
  {
    LineOf(w, n);
    OrderedParts(w.home, HandedTo(w, n), QueueOf(w.d, n));
  }

  // ---------------------------------------------------------------- terminal outcomes

  /** A row of a known operation was there before, and unchanged if it was terminal. */
  predicate RowsDescend(before: seq<Snapshot>, home: map<string, Origin>, t: Snapshot) {
    t.command in home ==> exists s | s in before :: s.op == t.op && s.command == t.command && (Terminal(s.status) ==> s == t)
  }

  lemma UpdateDescends(w: World, limits: Limits, op: string, status: Status, detail: string)
    requires Agree(w, limits) && forall s | s in w.d.rows && s.op == op :: !Terminal(s.status)
    ensures forall t | t in UpdateRow(w.d.rows, op, status, detail) :: RowsDescend(w.d.rows, w.home, t)
  {
    hide UpdateRow, Distinct, NodesOk, LinesOk, AllEnded;
    UpdateMembers(w.d.rows, op, status, detail);
    forall t | t in UpdateRow(w.d.rows, op, status, detail) ensures RowsDescend(w.d.rows, w.home, t) {
      if t !in w.d.rows || t.op == op {
        var s :| s in w.d.rows && s.op == op && t == s.(status := status, detail := detail);
      }
    }
  }

  lemma LiveRowsAreOpen(w: World, limits: Limits, n: string, c: string)
    requires Agree(w, limits) && Live(w.d.nodes, n, c)
    ensures forall s | s in w.d.rows && s.op == w.d.nodes[n].commands[c].op :: !Terminal(s.status)
  {
    hide Agree;
    LiveNotEnded(w, limits, n, c);
    forall s | s in w.d.rows && s.op == w.d.nodes[n].commands[c].op ensures !Terminal(s.status) {
      KnownRow(w, limits, s);
      OneHome(w, limits, s.command, c);
    }
  }

  lemma OneHome(w: World, limits: Limits, c: string, d: string)
    requires Agree(w, limits) && c in w.home && d in w.home && w.home[c].op == w.home[d].op
    ensures c == d
  {
  }

  lemma SubmitDescends(w: World, m: Moment, limits: Limits)
    requires Agree(w, limits) && Enabled(w, m) && m.event.ESubmit?
    ensures forall t | t in Step(w, m, limits).d.rows :: RowsDescend(w.d.rows, w.home, t)
  {
    hide Distinct, NodesOk, LinesOk, AllEnded, CreateRow, HomeOk, Has;
    if Submit(w.d, m.event.n, m.event.c, m.event.admitted, limits, m.detail).1.Done? {
      CreatedRows(w.d.rows, QueuedRow(m.event.n, m.event.c, m.detail), limits.history);
    }
  }

  lemma ClaimDescends(w: World, m: Moment, limits: Limits)
    requires Agree(w, limits) && Enabled(w, m) && m.event.EClaim?
    ensures forall t | t in Step(w, m, limits).d.rows :: RowsDescend(w.d.rows, w.home, t)
  {
    hide Agree, Pop, UpdateRow;
    var n := m.event.n;
    if n in w.d.nodes {
      KnownNode(w, limits, n);
      PopTakesFirst(w.d.nodes[n]);
      if w.d.nodes[n].queue != [] {
        LiveRowsAreOpen(w, limits, n, w.d.nodes[n].queue[0]);
        UpdateDescends(w, limits, w.d.nodes[n].commands[w.d.nodes[n].queue[0]].op, Claimed, m.detail);
      }
    }
  }

  lemma OutcomeDescends(w: World, m: Moment, limits: Limits)
    requires Agree(w, limits) && Enabled(w, m) && (m.event.EResult? || m.event.ERemove?)
    ensures forall t | t in Step(w, m, limits).d.rows :: RowsDescend(w.d.rows, w.home, t)
  {
    hide Agree, UpdateRow, RemoveFirst;
    var n, c := m.event.n, m.event.id;
    if Live(w.d.nodes, n, c) {
      LiveRowsAreOpen(w, limits, n, c);
      var command := w.d.nodes[n].commands[c];
      var status := if m.event.EResult? then LiveStatus(command.mutation, m.event.failed, m.event.uncertain)
                    else if command.claimed && command.mutation then Uncertain else m.event.reason;
      UpdateDescends(w, limits, command.op, status, m.detail);
    } else if m.event.EResult? && n in w.d.nodes && Scan(w.d.rows, c).Some? {
      var s := Scan(w.d.rows, c).value;
      if s.node == n && !Terminal(s.status) {
        SameRow(w, limits, s);
        UpdateDescends(w, limits, s.op, LateStatus(s.mutation, m.event.failed, m.event.uncertain), m.detail);
      }
    }
  }

  lemma SameRow(w: World, limits: Limits, s: Snapshot)
    requires Agree(w, limits) && s in w.d.rows
    ensures forall t | t in w.d.rows && t.op == s.op :: t == s
  {
    forall t | t in w.d.rows && t.op == s.op ensures t == s {
      FindIsUnique(w.d.rows, t);
      FindIsUnique(w.d.rows, s);
    }
  }

  lemma RestartDescends(w: World, m: Moment, limits: Limits)
    requires Agree(w, limits) && Enabled(w, m) && m.event.ERestart?
    ensures forall t | t in Step(w, m, limits).d.rows :: RowsDescend(w.d.rows, w.home, t)
  {
    hide Restart, Distinct, NodesOk, LinesOk, AllEnded, HomeOk;
    assert Distinct(w.d.rows);
    RestartRecovers(w.d, m.event.forgotten);
    var kept, rows := w.d.rows[m.event.forgotten..], Restart(w.d, m.event.forgotten).rows;
    assert Step(w, m, limits).d.rows == rows;
    forall t | t in rows ensures RowsDescend(w.d.rows, w.home, t) {
      var s :| s in kept && t == AfterRestart(s);
      assert s in w.d.rows;
    }
  }

  lemma StepDescends(w: World, m: Moment, limits: Limits)
    requires Agree(w, limits) && Enabled(w, m)
    ensures forall t | t in Step(w, m, limits).d.rows :: RowsDescend(w.d.rows, w.home, t)
  {
    hide Agree, Fresh;
    match m.event
    case ERegister(_) =>
    case ESubmit(_, _, _) => hide React; SubmitDescends(w, m, limits);
    case EClaim(_) => hide React; ClaimDescends(w, m, limits);
    case EResult(_, _, _, _) => hide React; OutcomeDescends(w, m, limits);
    case ERemove(_, _, _) => hide React; OutcomeDescends(w, m, limits);
    case ERestart(_) => hide React; RestartDescends(w, m, limits);
  }

  lemma {:induction false} TerminalRowStays(run: seq<Moment>, limits: Limits, i: nat, j: nat, t: Snapshot)
    requires limits.history >= 1 && RunEnabled(START, run, limits) && i <= j <= |run|
    requires t in At(START, run, limits, j).d.rows && t.command in At(START, run, limits, i).home
    ensures RowsDescend(At(START, run, limits, i).d.rows, At(START, run, limits, i).home, t)
    decreases j
  {
    hide At, RunEnabled, Step, Enabled, Agree;
    if i < j {
      AgreeFromStart(run, limits, j - 1);
      EnabledAt(START, run, limits, j - 1);
      StepDescends(At(START, run, limits, j - 1), run[j - 1], limits);
      HistoryGrows(run, limits, i, j - 1, "");
      var s :| s in At(START, run, limits, j - 1).d.rows && s.op == t.op && s.command == t.command && (Terminal(s.status) ==> s == t);
      TerminalRowStays(run, limits, i, j - 1, s);
    }
  }

  /** Once an operation is succeeded or failed, in time or late, its row never changes again: not by results, not by restarts. */
  lemma TerminalIsFinal(run: seq<Moment>, limits: Limits, i: nat, j: nat, s: Snapshot, t: Snapshot)
    requires limits.history >= 1 && RunEnabled(START, run, limits) && i <= j <= |run|
    requires s in At(START, run, limits, i).d.rows && Terminal(s.status)
    requires t in At(START, run, limits, j).d.rows && t.op == s.op
    ensures t == s
  {
    hide At, RunEnabled, Agree;
    AgreeFromStart(run, limits, i);
    AgreeFromStart(run, limits, j);
    KnownRow(At(START, run, limits, i), limits, s);
    KnownRow(At(START, run, limits, j), limits, t);
    HistoryGrows(run, limits, i, j, "");
    OneHome(At(START, run, limits, j), limits, s.command, t.command);
    TerminalRowStays(run, limits, i, j, t);
    SameRow(At(START, run, limits, i), limits, s);
  }

  lemma EndedTakesNoResult(w: World, m: Moment, limits: Limits)
    requires Agree(w, limits) && Enabled(w, m) && m.event.EResult? && m.event.id in w.ended
    ensures !React(w.d, m, limits).1.Settled?
  {
    hide Agree, UpdateRow;
    EndedKnown(w, limits, m.event.id);
    if Live(w.d.nodes, m.event.n, m.event.id) {
      LiveNotEnded(w, limits, m.event.n, m.event.id);
    }
  }

  /** A command gets at most one result that makes its operation terminal; after it, none is accepted. */
  lemma OneTerminalResult(run: seq<Moment>, limits: Limits, i: nat, j: nat)
    requires limits.history >= 1 && RunEnabled(START, run, limits) && i < j < |run|
    requires EndsIt(run[i], Answer(START, run, limits, i))
    requires run[j].event.EResult? && run[j].event.id == run[i].event.id
    ensures !Answer(START, run, limits, j).Settled?
  {
    hide At, RunEnabled, Agree, React, Enabled;
    AgreeFromStart(run, limits, j);
    EnabledAt(START, run, limits, i);
    EnabledAt(START, run, limits, j);
    HistoryGrows(run, limits, i + 1, j, "");
    assert run[i].event.id in Step(At(START, run, limits, i), run[i], limits).ended;
    EndedTakesNoResult(At(START, run, limits, j), run[j], limits);
  }

  /**
   An upload may begin exactly when a result would be accepted, and also for a journalled command that
   still waits in the queue. In particular not after a terminal result.
   */
  lemma UploadGate(w: World, limits: Limits, n: string, c: string, failed: bool, uncertain: bool, detail: string)
    requires Agree(w, limits)
    ensures TakesUpload(w.d, n, c)
       <==> Result(w.d, n, c, failed, uncertain, detail).1.Settled?
            || (Live(w.d.nodes, n, c) && !w.d.nodes[n].commands[c].claimed && Scan(w.d.rows, c).Some?)
    ensures c in w.ended ==> !TakesUpload(w.d, n, c)
  {
    hide Agree, UpdateRow;
    if Scan(w.d.rows, c).Some? {
      KnownRow(w, limits, Scan(w.d.rows, c).value);
    }
    if Live(w.d.nodes, n, c) {
      LiveNotEnded(w, limits, n, c);
    }
    if c in w.ended {
      EndedKnown(w, limits, c);
    }
  }

  /** Such an early upload is possible: submit, and the queue still holds the command. */
  lemma UploadBeforeClaim(limits: Limits)
    requires limits.history >= 1 && limits.maxPending >= 1
    ensures var c := Command("c", "op", false, false, false);
            var d := Submit(Register(Relay(map[], []), "n"), "n", c, true, limits, "").0;
            TakesUpload(d, "n", "c") && Result(d, "n", "c", false, false, "").1 == Refused(InvalidArgument)
  {
    var c := Command("c", "op", false, false, false);
    var d := Submit(Register(Relay(map[], []), "n"), "n", c, true, limits, "").0;
    assert d.rows == [QueuedRow("n", c, "")];
  }
}
