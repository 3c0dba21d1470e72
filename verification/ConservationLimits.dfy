/**
 Where event conservation ends. A message that contains the batch separator, or ends in all of it but
 the newline, is not read back from a batch; the ledger balances over every run exactly for clean ones.
 */
module ConservationLimits {
  import opened Prelude
  import opened Wakes
  import opened CoordinatorSpec
  import opened CoordinatorRuns
  import opened CoordinatorSafety
  import opened CoordinatorTheorems
  import opened Batches
  import opened Conservation
  import Text

  // ---------------------------------------------------------------- text

  lemma ShortIsClean(message: string)
    requires |message| < 21
    ensures Clean(message) && Parts(message) == [message]
  {
    SeparatorBorder();
    assert Clean(message);
    CleanPartIsWhole(message);
  }

  lemma OccursInFront(front: string, back: string, sep: string, i: int)
    requires Text.OccursAt(front + back, sep, i)
    ensures i + |sep| <= |front| ==> Text.OccursAt(front, sep, i)
  {
    if i + |sep| <= |front| {
      assert front[i..i + |sep|] == (front + back)[i..i + |sep|];
    }
  }

  /** Without the separator in it, an unclean message ends in the separator up to its newline. */
  lemma UncleanEnding(message: string) returns (head: string)
    requires !Clean(message) && !Text.Contains(message, BATCH_SEPARATOR)
    ensures message == head + BATCH_SEPARATOR[..21] && message + "\n" == head + BATCH_SEPARATOR
  {
    SeparatorBorder();
    var all := message + "\n";
    var i :| Text.OccursAt(all, BATCH_SEPARATOR, i);
    OccursInFront(message, "\n", BATCH_SEPARATOR, i);
    head := message[..i];
    TakeEnd(message, head, BATCH_SEPARATOR);
  }

  lemma TakeEnd(message: string, head: string, sep: string)
    requires |sep| > 0 && |message| + 1 == |head| + |sep| && head <= message
    requires Text.OccursAt(message + "\n", sep, |head|)
    ensures message == head + sep[..|sep| - 1] && message + "\n" == head + sep
  {
    var all := message + "\n";
    assert all == all[..|head|] + all[|head|..|head| + |sep|];
    assert message == all[..|message|];
  }

  /** The text behind the separator that message and joint form by accident. */
  lemma RestOfJoint()
    ensures var rest: string := BATCH_SEPARATOR[1..] + "b";
            Parts(rest) == [rest] && |rest| == 22 && rest[21] == 'b'
  {
    SeparatorBorder();
    var rest: string := BATCH_SEPARATOR[1..] + "b";
    SeparatorMiddle(1);
    assert rest[0] != BATCH_SEPARATOR[0];
    assert !Text.Contains(rest, BATCH_SEPARATOR);
    Text.SplitJoin([rest], BATCH_SEPARATOR, 1);
  }

  lemma HeadIsClean(message: string, head: string)
    requires !Text.Contains(message, BATCH_SEPARATOR) && message == head + BATCH_SEPARATOR[..21]
    ensures Text.JoinsCleanly(head, BATCH_SEPARATOR, 1)
  {
    SeparatorBorder();
    var front, back := head + "\n", BATCH_SEPARATOR[1..21];
    assert message == front + back;
    forall i: int ensures !Text.OccursAt(front, BATCH_SEPARATOR, i) {
      OccursBefore(front, back, BATCH_SEPARATOR, i);
    }
  }

  lemma OccursBefore(front: string, back: string, sep: string, i: int)
    ensures Text.OccursAt(front, sep, i) ==> Text.OccursAt(front + back, sep, i)
  {
    if Text.OccursAt(front, sep, i) {
      assert front[i..i + |sep|] == (front + back)[i..i + |sep|];
    }
  }

  /** Message, separator, "b": the first separator starts inside the message. */
  lemma JointText(message: string, head: string)
    requires message + "\n" == head + BATCH_SEPARATOR
    ensures Batch([message, "b"]) == head + BATCH_SEPARATOR + (BATCH_SEPARATOR[1..] + "b")
  {
    SeparatorBorder();
    var rest: string := BATCH_SEPARATOR[1..] + "b";
    Text.JoinExtend([message], "b", BATCH_SEPARATOR);
    assert [message] + ["b"] == [message, "b"];
    assert BATCH_SEPARATOR + "b" == "\n" + rest;
    assert message + BATCH_SEPARATOR + "b" == message + (BATCH_SEPARATOR + "b");
    assert message + ("\n" + rest) == (message + "\n") + rest;
  }

  lemma EndingIsCutOff(message: string, head: string)
    requires !Text.Contains(message, BATCH_SEPARATOR) && message == head + BATCH_SEPARATOR[..21]
    requires message + "\n" == head + BATCH_SEPARATOR
    ensures Parts(Batch([message, "b"])) == [head, BATCH_SEPARATOR[1..] + "b"]
  {
    hide Text.JoinsCleanly, Text.Split, Text.Join, Text.Contains;
    SeparatorBorder();
    var rest: string := BATCH_SEPARATOR[1..] + "b";
    HeadIsClean(message, head);
    JointText(message, head);
    RestOfJoint();
    Text.SplitCons(head, BATCH_SEPARATOR, rest, 1, [rest]);
    assert [head] + [rest] == [head, rest];
  }

  /** An unclean message is not among the parts of a batch that it opens. */
  lemma UncleanIsNotReadBack(message: string)
    requires !Clean(message)
    ensures message !in Parts(Batch([message, "b"]))
  {
    SeparatorBorder();
    if Text.Contains(message, BATCH_SEPARATOR) {
      Text.SplitPiecesAreFree(Batch([message, "b"]), BATCH_SEPARATOR);
    } else {
      var head := UncleanEnding(message);
      EndingIsCutOff(message, head);
      RestOfJoint();
      SeparatorMiddle(20);
      assert message[|message| - 1] == BATCH_SEPARATOR[20];
      assert BATCH_SEPARATOR[20] == '-';
    }
  }

  lemma {:induction false} PartsAreFew(message: string)
    ensures (|Parts(message)| - 1) * 22 <= |message|
    decreases |message|
  {
    SeparatorBorder();
    var i := Text.Find(message, BATCH_SEPARATOR, 0);
    if i != -1 {
      PartsAreFew(message[i + 22..]);
    }
  }

  // ---------------------------------------------------------------- one batch taken, the next one promoted

  const CONTINUATION: string := "cont_00000"
  const CLAIM: string := "claim"

  function Resilient(channel: string, message: string): ArmRequest {
    ArmRequest(channel, message, 0.0, Coalesce, true, 1, [], 0.0, None)
  }

  function InFlight(acknowledged: bool, queued: seq<string>): Wake {
    FreshWake("x", 20.0, 0.0).(
      continuationId := Some(CONTINUATION), modelAckRequired := true, attempts := 1, claimId := Some(CLAIM),
      leaseExpiresAt := Some(20.0), escalationAt := Some(20.0), modelAcknowledged := acknowledged,
      queued := queued, queuedEscalations := seq(|queued|, i => ""))
  }

  /** Nothing but `w` on `channel`: no other wake, no lease, no cooldown. */
  predicate Only(s: State, channel: string, w: Wake) {
    s.pending == map[channel := w] && s.leases == map[] && s.cooldownUntil == map[] && s.globalCooldownUntil == 0.0
  }

  lemma FirstArm(s: State, channel: string, message: string, token: string)
    requires s == Boot(0.0, false) && ValidChannel(channel) && ValidMessage(message)
    ensures var (t, r) := Arm(s, Resilient(channel, message), 0.0, token);
            && Only(t, channel, FreshWake(message, 0.0, 0.0).(continuationId := Some(token), modelAckRequired := true))
            && r == Armed(false, false, Some(token))
  {
  }

  lemma FirstClaim(s: State, channel: string)
    requires ValidChannel(channel)
    requires Only(s, channel, FreshWake("x", 0.0, 0.0).(continuationId := Some(CONTINUATION), modelAckRequired := true))
    ensures var (t, r) := Claim(s, channel, None, Direct, 0.0, 0.0, CLAIM);
            Only(t, channel, InFlight(false, [])) && r.Claimed?
  {
    assert CanClaim(s, channel, None, Direct, 0.0, 0.0);
    assert seq(0, i => "") == [];
  }

  lemma TakenByModel(s: State, channel: string)
    requires Only(s, channel, InFlight(false, []))
    ensures var (t, r) := ModelAck(s, CONTINUATION, 0.0);
            Only(t, channel, InFlight(true, [])) && r == ModelAcked(channel, [])
  {
    assert Holds(s, channel, CONTINUATION);
    assert seq(0, i => "") == [];
  }

  lemma QueuedBehind(s: State, channel: string, queued: seq<string>, message: string, token: string)
    requires ValidChannel(channel) && ValidMessage(message) && |queued| < 100
    requires Only(s, channel, InFlight(true, queued)) && message != "x" && message !in queued
    ensures var (t, r) := Arm(s, Resilient(channel, message), 0.0, token);
            && Only(t, channel, InFlight(true, queued + [message])) && r == Armed(true, false, Some(CONTINUATION))
            && Coalesces(s, Resilient(channel, message))
  {
    ShortIsClean("x");
    assert seq(|queued|, i => "") + [""] == seq(|queued + [message]|, i => "");
  }

  lemma PackBoth(message: string)
    requires ValidMessage(message)
    ensures var p := Pack([message, "b"], ["", ""], 2); p.active == [message, "b"] && p.remaining == []
  {
    SeparatorBorder();
    Text.JoinExtend([message], "b", BATCH_SEPARATOR);
    assert [message] + ["b"] == [message, "b"];
    assert [] + [message] == [message];
    assert Pack([message, "b"], ["", ""], 0) == Packing([], [], [], []);
    assert Pack([message, "b"], ["", ""], 1) == Packing([message], [""], [], []);
  }

  lemma DeliveredAndPromoted(s: State, channel: string, message: string, token: string)
    requires ValidChannel(channel) && ValidMessage(message) && Only(s, channel, InFlight(true, [message, "b"]))
    ensures var (t, r) := Finalize(s, channel, CLAIM, "t", Delivered, None, 0.0, token);
            && channel in t.pending && t.pending[channel].message == Batch([message, "b"]) && t.pending[channel].queued == []
            && r.Accepted? && r.finished
  {
    hide BoundedEscalation, LiveCooldowns;
    PackBoth(message);
    assert seq(2, i => "") == ["", ""];
  }

  // ---------------------------------------------------------------- runs

  /** A run at one instant, every token new, is enabled. */
  lemma {:induction false} InstantRun(w: World, run: seq<Moment>)
    requires forall k | 0 <= k < |run| :: run[k].now == w.now && run[k].token !in w.issued
    requires forall j, k | 0 <= j < k < |run| :: run[j].token != run[k].token
    ensures RunEnabled(w, run)
    decreases |run|
  {
    hide React;
    if run != [] {
      InstantRun(Step(w, run[0]), run[1..]);
    }
  }

  /** After `i` steps the channel's ledger balances: accepted = waiting + retired + handed out + dropped. */
  ghost predicate Conserved(w: World, run: seq<Moment>, i: nat, channel: string)
    requires i <= |run|
  {
    var b := Books(w, run, i, channel);
    Live(At(w, run, i).s, channel) + b.retired + b.handed + b.dropped == b.accepted
  }

  /** The channel is armed only with clean messages or this one, and on demand only resiliently. */
  ghost predicate ArmedWith(m: Moment, channel: string, message: string, resilient: bool) {
    m.event.EArm? && m.event.request.channel == channel ==>
      (resilient ==> m.event.request.modelAckRequired) && (Clean(m.event.request.message) || m.event.request.message == message)
  }

  ghost predicate AlwaysConserved(channel: string, message: string, resilient: bool) {
    forall now: real, preflightRequired: bool, run: seq<Moment>, i: nat ::
      && 0.0 <= now && RunEnabled(Start(now, preflightRequired), run) && i <= |run|
      && (forall k | 0 <= k < |run| :: ArmedWith(run[k], channel, message, resilient))
      ==> Conserved(Start(now, preflightRequired), run, i, channel)
  }

  /** One step of the run: the next state, and what it books. */
  lemma Advanced(w: World, run: seq<Moment>, i: nat, channel: string, t: State, r: Response)
    requires i < |run| && React(At(w, run, i).s, run[i]) == (t, r)
    ensures At(w, run, i + 1).s == t && Answer(w, run, i) == r
    ensures Books(w, run, i + 1, channel) == Add(Books(w, run, i, channel), Booked(At(w, run, i).s, run[i], r, channel))
  {
    hide React;
    StepState(At(w, run, i), run[i]);
  }

  // ---------------------------------------------------------------- the run that loses the count

  function LosingRun(channel: string, message: string): seq<Moment> {
    [ Moment(EArm(Resilient(channel, "x")), 0.0, CONTINUATION),
      Moment(EClaim(channel, None, Direct, 0.0), 0.0, CLAIM),
      Moment(EModelAck(CONTINUATION), 0.0, "2"),
      Moment(EArm(Resilient(channel, message)), 0.0, "3"),
      Moment(EArm(Resilient(channel, "b")), 0.0, "4"),
      Moment(EFinalize(channel, CLAIM, "t", Delivered, None), 0.0, "5") ]
  }

  lemma LosingRunIsEnabled(channel: string, message: string)
    ensures RunEnabled(Start(0.0, false), LosingRun(channel, message))
    ensures forall k | 0 <= k < 6 :: ArmedWith(LosingRun(channel, message)[k], channel, message, true)
  {
    hide RunEnabled, Clean, Parts;
    ShortIsClean("x");
    ShortIsClean("b");
    InstantRun(Start(0.0, false), LosingRun(channel, message));
  }

  /** Before step `i` the channel holds `v` and nothing else is going on; so far `b` is booked. */
  ghost predicate Stands(w: World, run: seq<Moment>, i: nat, channel: string, v: Wake, b: Ledger) {
    i <= |run| && Only(At(w, run, i).s, channel, v) && Books(w, run, i, channel) == b
  }

  lemma ArmedFirst(w: World, run: seq<Moment>, channel: string, message: string, token: string)
    requires w == Start(0.0, false) && ValidChannel(channel) && ValidMessage(message) && |run| > 0
    requires run[0] == Moment(EArm(Resilient(channel, message)), 0.0, token)
    ensures Stands(w, run, 1, channel, FreshWake(message, 0.0, 0.0).(continuationId := Some(token), modelAckRequired := true),
                   NOTHING.(accepted := multiset{message}))
  {
    hide Arm, Only;
    FirstArm(w.s, channel, message, token);
    var (t, r) := Arm(w.s, Resilient(channel, message), 0.0, token);
    Advanced(w, run, 0, channel, t, r);
  }

  lemma ClaimedNext(w: World, run: seq<Moment>, i: nat, channel: string, b: Ledger)
    requires ValidChannel(channel) && i < |run| && run[i] == Moment(EClaim(channel, None, Direct, 0.0), 0.0, CLAIM)
    requires Stands(w, run, i, channel,
                    FreshWake("x", 0.0, 0.0).(continuationId := Some(CONTINUATION), modelAckRequired := true), b)
    ensures Stands(w, run, i + 1, channel, InFlight(false, []), b)
  {
    hide Claim, Only, At, Books;
    var s := At(w, run, i).s;
    FirstClaim(s, channel);
    var (t, r) := Claim(s, channel, None, Direct, 0.0, 0.0, CLAIM);
    Advanced(w, run, i, channel, t, r);
  }

  lemma TakenNext(w: World, run: seq<Moment>, i: nat, channel: string, b: Ledger, token: string)
    requires ValidChannel(channel) && i < |run| && run[i] == Moment(EModelAck(CONTINUATION), 0.0, token)
    requires Stands(w, run, i, channel, InFlight(false, []), b)
    ensures Stands(w, run, i + 1, channel, InFlight(true, []), b)
  {
    hide ModelAck, At, Books;
    var s := At(w, run, i).s;
    TakenByModel(s, channel);
    var (t, r) := ModelAck(s, CONTINUATION, 0.0);
    assert LeaseActive(s.pending[channel], 0.0);
    Advanced(w, run, i, channel, t, r);
  }

  lemma QueuedNext(w: World, run: seq<Moment>, i: nat, channel: string, b: Ledger, queued: seq<string>, message: string, token: string)
    requires ValidChannel(channel) && ValidMessage(message) && |queued| < 100 && message != "x" && message !in queued
    requires i < |run| && run[i] == Moment(EArm(Resilient(channel, message)), 0.0, token)
    requires Stands(w, run, i, channel, InFlight(true, queued), b)
    ensures Stands(w, run, i + 1, channel, InFlight(true, queued + [message]), Add(b, NOTHING.(accepted := multiset{message})))
  {
    hide Arm, Only, At, Books;
    var s := At(w, run, i).s;
    QueuedBehind(s, channel, queued, message, token);
    var (t, r) := Arm(s, Resilient(channel, message), 0.0, token);
    Advanced(w, run, i, channel, t, r);
  }

  lemma PromotedNext(w: World, run: seq<Moment>, i: nat, channel: string, b: Ledger, message: string, token: string)
    requires ValidChannel(channel) && ValidMessage(message)
    requires i < |run| && run[i] == Moment(EFinalize(channel, CLAIM, "t", Delivered, None), 0.0, token)
    requires Stands(w, run, i, channel, InFlight(true, [message, "b"]), b)
    ensures Live(At(w, run, i + 1).s, channel) == multiset(Parts(Batch([message, "b"])))
    ensures Books(w, run, i + 1, channel) == Add(b, NOTHING.(retired := multiset{"x"}))
  {
    hide Finalize, At, Books, Parts;
    var s := At(w, run, i).s;
    DeliveredAndPromoted(s, channel, message, token);
    var (t, r) := Finalize(s, channel, CLAIM, "t", Delivered, None, 0.0, token);
    ShortIsClean("x");
    Advanced(w, run, i, channel, t, r);
  }

  /** The run ends with the message waiting under another text, although its books say it still waits. */
  lemma LosingRunEnd(channel: string, message: string)
    requires ValidChannel(channel) && ValidMessage(message) && !Clean(message)
    ensures !Conserved(Start(0.0, false), LosingRun(channel, message), 6, channel)
  {
    hide Stands, Clean, Parts, At, Books, Batch, InFlight;
    var w, run := Start(0.0, false), LosingRun(channel, message);
    ShortIsClean("x");
    ShortIsClean("b");
    ArmedFirst(w, run, channel, "x", CONTINUATION);
    var b := NOTHING.(accepted := multiset{"x"});
    ClaimedNext(w, run, 1, channel, b);
    TakenNext(w, run, 2, channel, b, "2");
    QueuedNext(w, run, 3, channel, b, [], message, "3");
    assert [] + [message] == [message] && [message] + ["b"] == [message, "b"];
    var c := Add(b, NOTHING.(accepted := multiset{message}));
    QueuedNext(w, run, 4, channel, c, [message], "b", "4");
    var d := Add(c, NOTHING.(accepted := multiset{"b"}));
    PromotedNext(w, run, 5, channel, d, message, "5");
    UncleanIsNotReadBack(message);
    var e := Books(w, run, 6, channel);
    assert (Live(At(w, run, 6).s, channel) + e.retired + e.handed + e.dropped)[message] == 0;
    assert e.accepted[message] > 0;
  }

  /** Event conservation holds over every run exactly for the messages that are clean, whether or not arming is
      restricted to wakes that ask for an acknowledgement. */
  lemma ConservedExactlyForClean(channel: string, message: string, resilient: bool)
    requires ValidChannel(channel) && ValidMessage(message)
    ensures AlwaysConserved(channel, message, resilient) <==> Clean(message)
  {
    hide Clean, RunEnabled, Conserved;
    if Clean(message) {
      forall now: real, preflightRequired: bool, run: seq<Moment>, i: nat |
        && 0.0 <= now && RunEnabled(Start(now, preflightRequired), run) && i <= |run|
        && (forall k | 0 <= k < |run| :: ArmedWith(run[k], channel, message, resilient))
        ensures Conserved(Start(now, preflightRequired), run, i, channel)
      {
        CleanRunIsConserved(now, preflightRequired, run, i, channel, message, resilient);
      }
    } else {
      LosingRunIsEnabled(channel, message);
      LosingRunEnd(channel, message);
    }
  }

  lemma CleanRunIsConserved(now: real, preflightRequired: bool, run: seq<Moment>, i: nat, channel: string, message: string,
                            resilient: bool)
    requires 0.0 <= now && RunEnabled(Start(now, preflightRequired), run) && i <= |run| && Clean(message)
    requires forall k | 0 <= k < |run| :: ArmedWith(run[k], channel, message, resilient)
    ensures Conserved(Start(now, preflightRequired), run, i, channel)
  {
    hide Clean, RunEnabled, At, Books, Live, CleanChannel;
    forall k | 0 <= k < |run| ensures CleanArm(run[k], channel) {
      assert ArmedWith(run[k], channel, message, resilient);
    }
    EventsAreConserved(now, preflightRequired, run, i, channel);
  }

  // ---------------------------------------------------------------- a waiting message is taken for a new one

  function AgainRun(channel: string, message: string): seq<Moment> {
    [ Moment(EArm(Resilient(channel, message)), 0.0, CONTINUATION),
      Moment(EArm(Resilient(channel, "b")), 0.0, "2"),
      Moment(EArm(Resilient(channel, message)), 0.0, "3") ]
  }

  function Unclaimed(message: string): Wake {
    FreshWake(message, 0.0, 0.0).(continuationId := Some(CONTINUATION), modelAckRequired := true)
  }

  lemma MergedBehind(s: State, channel: string, message: string, token: string)
    requires ValidChannel(channel) && Only(s, channel, Unclaimed(message))
    requires Parts(message) == [message] && message != "b" && |message| + 23 <= MAX_VISIBLE_REASON_CHARS
    ensures var (t, r) := Arm(s, Resilient(channel, "b"), 0.0, token);
            && Only(t, channel, Unclaimed(Batch([message, "b"]))) && r == Armed(true, false, Some(CONTINUATION))
            && Coalesces(s, Resilient(channel, "b"))
  {
    hide Parts;
    SeparatorBorder();
    Text.JoinExtend([message], "b", BATCH_SEPARATOR);
    assert [message] + ["b"] == [message, "b"];
    assert !Duplicate(s.pending[channel], "b");
    assert ["", ""][1..] == [""] && [""][1..] == [] && Strip("") == "";
    assert StrippedNonEmpty([""]) == [];
    assert BoundedEscalation(["", ""]) == None;
  }

  lemma NotRecognised(s: State, channel: string, message: string, token: string)
    requires ValidChannel(channel) && ValidMessage(message) && |message| + 23 <= MAX_VISIBLE_REASON_CHARS
    requires Only(s, channel, Unclaimed(Batch([message, "b"]))) && message !in Parts(Batch([message, "b"]))
    ensures Arm(s, Resilient(channel, message), 0.0, token).1 == Armed(true, false, Some(CONTINUATION))
  {
    SeparatorBorder();
    Text.JoinExtend([message], "b", BATCH_SEPARATOR);
    assert [message] + ["b"] == [message, "b"];
    PartsAreFew(Batch([message, "b"]));
    assert !BatchFull(s.pending[channel]);
  }

  lemma FreeIsWhole(message: string)
    requires !Text.Contains(message, BATCH_SEPARATOR)
    ensures Parts(message) == [message]
  {
    SeparatorBorder();
    assert Text.Join([message], BATCH_SEPARATOR) == message;
    Text.SplitJoin([message], BATCH_SEPARATOR, 1);
  }

  lemma WaitingIsLive(w: World, run: seq<Moment>, i: nat, channel: string, message: string, b: Ledger)
    requires Stands(w, run, i, channel, Unclaimed(message), b)
    ensures Live(At(w, run, i).s, channel) == multiset(Parts(message))
  {
    hide At, Parts;
  }

  lemma MergedNext(w: World, run: seq<Moment>, i: nat, channel: string, b: Ledger, message: string, token: string)
    requires ValidChannel(channel) && Parts(message) == [message] && message != "b"
    requires |message| + 23 <= MAX_VISIBLE_REASON_CHARS
    requires i < |run| && run[i] == Moment(EArm(Resilient(channel, "b")), 0.0, token)
    requires Stands(w, run, i, channel, Unclaimed(message), b)
    ensures Stands(w, run, i + 1, channel, Unclaimed(Batch([message, "b"])), Add(b, NOTHING.(accepted := multiset{"b"})))
  {
    hide Arm, Only, At, Books, Parts, Batch;
    var s := At(w, run, i).s;
    MergedBehind(s, channel, message, token);
    var (t, r) := Arm(s, Resilient(channel, "b"), 0.0, token);
    Advanced(w, run, i, channel, t, r);
  }

  lemma AnsweredAgain(w: World, run: seq<Moment>, i: nat, channel: string, b: Ledger, message: string, token: string)
    requires ValidChannel(channel) && ValidMessage(message) && |message| + 23 <= MAX_VISIBLE_REASON_CHARS
    requires message !in Parts(Batch([message, "b"]))
    requires i < |run| && run[i] == Moment(EArm(Resilient(channel, message)), 0.0, token)
    requires Stands(w, run, i, channel, Unclaimed(Batch([message, "b"])), b)
    ensures Answer(w, run, i) == Armed(true, false, Some(CONTINUATION))
  {
    hide Arm, Only, At, Books, Parts, Batch;
    NotRecognised(At(w, run, i).s, channel, message, token);
  }

  /** A message that ends in the separator up to its newline: the next merge splits it, so the ledger is off by
      it, and a producer that reports the event again has it accepted a second time. */
  lemma UncleanMessageIsCountedTwice(channel: string, message: string)
    requires ValidChannel(channel) && ValidMessage(message) && |message| + 23 <= MAX_VISIBLE_REASON_CHARS
    requires !Clean(message) && !Text.Contains(message, BATCH_SEPARATOR)
    ensures var w, run := Start(0.0, false), AgainRun(channel, message);
            && RunEnabled(w, run)
            && Conserved(w, run, 1, channel) && !Conserved(w, run, 2, channel)
            && Answer(w, run, 2) == Armed(true, false, Some(CONTINUATION))
  {
    hide Clean, Parts, At, Books, Batch, Stands, RunEnabled, Answer;
    var w, run := Start(0.0, false), AgainRun(channel, message);
    InstantRun(w, run);
    ShortIsClean("b");
    FreeIsWhole(message);
    var b := NOTHING.(accepted := multiset{message});
    ArmedFirst(w, run, channel, message, CONTINUATION);
    StandsBooked(w, run, 1, channel, Unclaimed(message), b);
    WaitingIsLive(w, run, 1, channel, message, b);
    MergedNext(w, run, 1, channel, b, message, "2");
    var joint := Batch([message, "b"]);
    var c := Add(b, NOTHING.(accepted := multiset{"b"}));
    StandsBooked(w, run, 2, channel, Unclaimed(joint), c);
    WaitingIsLive(w, run, 2, channel, joint, c);
    UncleanIsNotReadBack(message);
    assert Live(At(w, run, 2).s, channel)[message] == 0 && c.accepted[message] > 0;
    AnsweredAgain(w, run, 2, channel, c, message, "3");
  }

  lemma StandsBooked(w: World, run: seq<Moment>, i: nat, channel: string, v: Wake, b: Ledger)
    requires Stands(w, run, i, channel, v, b)
    ensures i <= |run| && Books(w, run, i, channel) == b
  {
  }

  /** Such a message exists, 22 characters long. */
  lemma UncleanExample()
    ensures var message: string := "a\n--- bridge-batch ---";
            ValidMessage(message) && !Clean(message) && !Text.Contains(message, BATCH_SEPARATOR)
  {
    var message: string := "a\n--- bridge-batch ---";
    SeparatorBorder();
    assert message + "\n" == "a" + BATCH_SEPARATOR;
    assert (message + "\n")[1..23] == BATCH_SEPARATOR;
    assert Text.OccursAt(message + "\n", BATCH_SEPARATOR, 1);
    assert message[0] == 'a' && BATCH_SEPARATOR[0] == '\n' && |message| == 22;
  }
}
