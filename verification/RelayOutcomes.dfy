/** What the relay records about a command: the outcome its node reported, the reason its caller left, what a restart found. */
module RelayOutcomes {
  import opened Prelude
  import opened JournalSpec
  import opened RelaySpec
  import opened RelaySafety
  import opened RelayTheorems

  /** The status of a result that says `failed` or `uncertain` of itself; `late` when the command was already gone. */
  predicate SaysOutcome(status: Status, mutation: bool, failed: bool, uncertain: bool, late: bool) {
    && (status.Uncertain? <==> uncertain && mutation)
    && (status.Failed? <==> failed && !(uncertain && mutation) && !late)
    && (status.LateFailed? <==> failed && !(uncertain && mutation) && late)
    && (status.Succeeded? <==> !failed && !(uncertain && mutation) && !late)
    && (status.LateSucceeded? <==> !failed && !(uncertain && mutation) && late)
  }

  ghost predicate HasRow(rows: seq<Snapshot>, c: string) {
    exists s :: s in rows && s.command == c
  }

  /** The row of command `c`, while there is one, now says this; the rows of all other commands stand. */
  ghost predicate RowNowSays(before: seq<Snapshot>, after: seq<Snapshot>, c: string, status: Status, detail: string) {
    && (forall t | t in after && t.command == c :: t.status == status && t.detail == detail)
    && (HasRow(before, c) <==> HasRow(after, c))
    && (forall s: Snapshot | s.command != c :: s in before <==> s in after)
    && |after| == |before|
  }

  /** Node `n` lost command `c` from its table and nothing else of it changed but, possibly, the queue entry of `c`. */
  ghost predicate OnlyDeparts(before: map<string, Node>, after: map<string, Node>, n: string, c: string) {
    && n in before && n in after && after - {n} == before - {n}
    && after[n].commands == before[n].commands - {c}
    && (forall x | x != c :: x in after[n].queue <==> x in before[n].queue)
    && c !in after[n].queue
  }

  lemma UpdatedRowSays(w: World, limits: Limits, c: string, status: Status, detail: string)
    requires Agree(w, limits) && c in w.home
    ensures RowNowSays(w.d.rows, UpdateRow(w.d.rows, w.home[c].op, status, detail), c, status, detail)
  {
    hide Distinct, UpdateRow, NodesOk, LinesOk, AllEnded;
    var rows, op := w.d.rows, w.home[c].op;
    var more := UpdateRow(rows, op, status, detail);
    UpdateMembers(rows, op, status, detail);
    forall s | s in rows ensures s.command == c <==> s.op == op {
      assert RowOk(w.home, w.d.nodes, s);
      if s.op == op {
        OneHome(w, limits, s.command, c);
      }
    }
    if HasRow(rows, c) {
      var s :| s in rows && s.command == c;
      assert s.(status := status, detail := detail) in more;
    }
  }

  /** A result is taken exactly for a claimed command, or, once the command is gone, for a journalled one without a terminal outcome. */
  lemma ResultTaken(w: World, m: Moment, limits: Limits)
    requires Agree(w, limits) && m.event.EResult?
    ensures var n, c := m.event.n, m.event.id;
            React(w.d, m, limits).1.Settled?
            <==> n in w.d.nodes
                 && (if c in w.d.nodes[n].commands then w.d.nodes[n].commands[c].claimed
                     else exists s :: s in w.d.rows && s.command == c && s.node == n
                                      && !(s.status.Succeeded? || s.status.Failed? || s.status.LateSucceeded? || s.status.LateFailed?))
  {
    hide Agree, UpdateRow, Distinct;
    var found := Scan(w.d.rows, m.event.id);
    if found.Some? {
      KnownRow(w, limits, found.value);
      SameRow(w, limits, found.value);
      forall s | s in w.d.rows && s.command == m.event.id ensures s == found.value {
        KnownRow(w, limits, s);
      }
    }
  }

  lemma ResultShape(d: Relay, n: string, c: string, failed: bool, uncertain: bool, detail: string)
    requires n in d.nodes && Result(d, n, c, failed, uncertain, detail).1.Settled?
    ensures var (t, r) := Result(d, n, c, failed, uncertain, detail);
            if c in d.nodes[n].commands then
              && d.nodes[n].commands[c].claimed
              && SaysOutcome(r.status, d.nodes[n].commands[c].mutation, failed, uncertain, false)
              && t.nodes == d.nodes[n := Node(d.nodes[n].queue, d.nodes[n].commands - {c})]
              && t.rows == UpdateRow(d.rows, d.nodes[n].commands[c].op, r.status, detail)
            else
              && Scan(d.rows, c).Some?
              && var s := Scan(d.rows, c).value;
              && SaysOutcome(r.status, s.mutation, failed, uncertain, true)
              && t.nodes == d.nodes && t.rows == UpdateRow(d.rows, s.op, r.status, detail)
  {
    hide UpdateRow;
  }

  /** An accepted result: the command leaves the table, and its row says what the result says of itself. */
  lemma ResultIsRecorded(w: World, m: Moment, limits: Limits)
    requires Agree(w, limits) && Enabled(w, m) && m.event.EResult? && React(w.d, m, limits).1.Settled?
    ensures var n, c := m.event.n, m.event.id;
            var (d, r) := React(w.d, m, limits);
            var late := !(n in w.d.nodes && c in w.d.nodes[n].commands);
            && c in w.home && OnlyDeparts(w.d.nodes, d.nodes, n, c) && d.nodes[n].queue == w.d.nodes[n].queue
            && SaysOutcome(r.status, w.home[c].mutation, m.event.failed, m.event.uncertain, late)
            && RowNowSays(w.d.rows, d.rows, c, r.status, m.detail)
            && (late ==> HasRow(w.d.rows, c))
  {
    hide Agree, UpdateRow, RowNowSays, Distinct, Result, SaysOutcome;
    var n, c := m.event.n, m.event.id;
    var (d, r) := React(w.d, m, limits);
    RefusedWithoutNode(w.d, n, c, m.event.failed, m.event.uncertain, m.detail);
    ResultShape(w.d, n, c, m.event.failed, m.event.uncertain, m.detail);
    KnownNode(w, limits, n);
    if c in w.d.nodes[n].commands {
      LiveNotEnded(w, limits, n, c);
    } else {
      KnownRow(w, limits, Scan(w.d.rows, c).value);
    }
    UpdatedRowSays(w, limits, c, r.status, m.detail);
    Departed(w.d.nodes, d.nodes, n, c);
  }

  lemma RefusedWithoutNode(d: Relay, n: string, c: string, failed: bool, uncertain: bool, detail: string)
    ensures n !in d.nodes ==> Result(d, n, c, failed, uncertain, detail).1.Refused?
  {
  }

  lemma Departed(before: map<string, Node>, after: map<string, Node>, n: string, c: string)
    requires n in before && n in after && after == before[n := after[n]] && after[n].queue == before[n].queue && QueueOk(before[n])
    requires after[n].commands == before[n].commands - {c} && !(c in before[n].commands && !before[n].commands[c].claimed)
    ensures OnlyDeparts(before, after, n, c)
  {
  }

  /** A caller that gives up: uncertain exactly for a mutation that was handed out, otherwise its own reason. */
  lemma RemovalIsRecorded(w: World, m: Moment, limits: Limits)
    requires Agree(w, limits) && Enabled(w, m) && m.event.ERemove? && React(w.d, m, limits).1.Settled?
    ensures var n, c := m.event.n, m.event.id;
            var (d, r) := React(w.d, m, limits);
            && n in w.d.nodes && c in w.d.nodes[n].commands && c in w.home && OnlyDeparts(w.d.nodes, d.nodes, n, c)
            && (r.status.Uncertain? <==> w.d.nodes[n].commands[c].claimed && w.home[c].mutation)
            && (!r.status.Uncertain? ==> r.status == m.event.reason)
            && RowNowSays(w.d.rows, d.rows, c, r.status, m.detail)
  {
    hide Agree, UpdateRow, RowNowSays, Distinct, InOrder;
    var n, c := m.event.n, m.event.id;
    var (d, r) := React(w.d, m, limits);
    KnownNode(w, limits, n);
    LiveNotEnded(w, limits, n, c);
    RemoveFirstShape(w.home, HandedTo(w, n), w.d.nodes[n].queue, c);
    UpdatedRowSays(w, limits, c, r.status, m.detail);
  }

  /** A submission is taken exactly while the node has room; it goes behind the queue, and its row is the newest. */
  lemma SubmitIsRecorded(w: World, m: Moment, limits: Limits)
    requires Agree(w, limits) && Enabled(w, m) && m.event.ESubmit?
    ensures var n, c := m.event.n, m.event.c;
            var (d, r) := React(w.d, m, limits);
            && (r.Done? <==> n in w.d.nodes && m.event.admitted && |w.d.nodes[n].commands| < limits.maxPending)
            && (!r.Done? ==> d == w.d)
            && (r.Done? ==>
                  && n in d.nodes && d.nodes - {n} == w.d.nodes - {n}
                  && d.nodes[n].queue == w.d.nodes[n].queue + [c.id] && d.nodes[n].commands == w.d.nodes[n].commands[c.id := c]
                  && |d.rows| > 0 && d.rows[|d.rows| - 1] == Snapshot(c.op, c.id, n, c.mutation, c.retain, Queued, m.detail)
                  && (|w.d.rows| < limits.history ==> d.rows[..|d.rows| - 1] == w.d.rows)
                  && (|w.d.rows| == limits.history ==> d.rows[..|d.rows| - 1] == w.d.rows[1..]))
  {
    hide Agree, Has;
    FreshOp(w, limits, m.event.c);
    AgreedHistory(w, limits);
  }

  lemma FreshOp(w: World, limits: Limits, c: Command)
    requires Agree(w, limits) && Fresh(w, c)
    ensures !Has(w.d.rows, c.op)
  {
    forall i | 0 <= i < |w.d.rows| ensures w.d.rows[i].op != c.op {
      assert RowOk(w.home, w.d.nodes, w.d.rows[i]);
    }
  }

  lemma AgreedHistory(w: World, limits: Limits)
    requires Agree(w, limits)
    ensures |w.d.rows| <= limits.history && limits.history >= 1
  {
  }

  /** A claim takes the head of the queue, marks that command and its row, and nothing else. */
  lemma ClaimIsRecorded(w: World, m: Moment, limits: Limits, c: string)
    requires Agree(w, limits) && Enabled(w, m) && m.event.EClaim? && React(w.d, m, limits).1 == Handed(c)
    ensures var n := m.event.n;
            var d := React(w.d, m, limits).0;
            && n in w.d.nodes && n in d.nodes && d.nodes - {n} == w.d.nodes - {n}
            && w.d.nodes[n].queue == [c] + d.nodes[n].queue
            && c in w.d.nodes[n].commands && c in d.nodes[n].commands && d.nodes[n].commands[c].claimed
            && d.nodes[n].commands - {c} == w.d.nodes[n].commands - {c}
            && RowNowSays(w.d.rows, d.rows, c, Claimed, m.detail)
  {
    hide Agree, UpdateRow, RowNowSays, Distinct, InOrder, Pop;
    KnownNode(w, limits, m.event.n);
    PopTakesFirst(w.d.nodes[m.event.n]);
    LiveNotEnded(w, limits, m.event.n, c);
    UpdatedRowSays(w, limits, c, Claimed, m.detail);
  }

  /** What a restart makes of a kept row: waiting, handed out to change something, handed out to read, or finished. */
  lemma RestartSays(d: Relay, forgotten: nat, s: Snapshot)
    requires Distinct(d.rows) && forgotten <= |d.rows| && s in d.rows[forgotten..]
    ensures exists t :: && t in Restart(d, forgotten).rows && t.op == s.op && t.command == s.command && t.node == s.node
                        && t.mutation == s.mutation && t.retain == s.retain
                        && (s.status.Queued? ==> t.status.Orphaned? && t.detail == "bridge_restarted_before_claim")
                        && (s.status.Claimed? && s.mutation ==> t.status.Uncertain? && t.detail == "bridge_restarted_after_claim")
                        && (s.status.Claimed? && !s.mutation ==> t.status.Interrupted? && t.detail == "bridge_restarted_after_claim")
                        && (!s.status.Queued? && !s.status.Claimed? ==> t == s)
  {
    hide Distinct, Restart;
    RestartRecovers(d, forgotten);
    var t := AfterRestart(s);
    assert t in Restart(d, forgotten).rows;
  }

  // ---------------------------------------------------------------- over runs

  /** In every run, restarts included: an accepted result is on record as the node reported it. */
  lemma ReportedIsRecorded(run: seq<Moment>, limits: Limits, i: nat)
    requires limits.history >= 1 && RunEnabled(START, run, limits) && i < |run|
    requires run[i].event.EResult? && Answer(START, run, limits, i).Settled?
    ensures var v, w := At(START, run, limits, i), At(START, run, limits, i + 1);
            var e := run[i].event;
            var late := !(e.n in v.d.nodes && e.id in v.d.nodes[e.n].commands);
            && e.id in v.home && OnlyDeparts(v.d.nodes, w.d.nodes, e.n, e.id)
            && SaysOutcome(Answer(START, run, limits, i).status, v.home[e.id].mutation, e.failed, e.uncertain, late)
            && RowNowSays(v.d.rows, w.d.rows, e.id, Answer(START, run, limits, i).status, run[i].detail)
            && (late ==> HasRow(v.d.rows, e.id))
  {
    hide At, RunEnabled, React, Agree, Enabled, RowNowSays, OnlyDeparts;
    AgreeFromStart(run, limits, i);
    EnabledAt(START, run, limits, i);
    ResultIsRecorded(At(START, run, limits, i), run[i], limits);
  }
}
