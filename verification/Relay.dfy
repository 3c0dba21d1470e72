/**
 The relay in its own form: a node's queue and command table hold the same command objects, claims set a
 flag on them, and every method writes the shared journal.
 */
module Relay {
  import opened Prelude
  import opened JournalSpec
  import opened Journal
  import Spec = RelaySpec

  class PendingCommand {
    const id: string
    const op: string
    const mutation: bool
    const retain: bool
    var claimed: bool

    constructor (id: string, op: string, mutation: bool, retain: bool)
      ensures View() == Spec.Command(id, op, mutation, retain, false)
    {
      this.id, this.op, this.mutation, this.retain, claimed := id, op, mutation, retain, false;
    }

    function View(): Spec.Command
      reads this
    {
      Spec.Command(id, op, mutation, retain, claimed)
    }
  }

  function Ids(queue: seq<PendingCommand>): (r: seq<string>)
    ensures |r| == |queue| && forall i | 0 <= i < |queue| :: r[i] == queue[i].id
  {
    if queue == [] then [] else [queue[0].id] + Ids(queue[1..])
  }

  /** What the service does with one registered node. */
  class NodeState {
    const nodeId: string
    const journal: OperationJournal
    const limits: Spec.Limits

    var queue: seq<PendingCommand>
    var commands: map<string, PendingCommand>

    ghost predicate Valid()
      reads this, journal
    {
      && journal.Valid() && journal.Indexed() && limits.history == journal.limit
      && (forall c | c in commands :: commands[c].id == c)
      && (forall q | q in queue && q.id in commands :: commands[q.id] == q)
    }

    function Commands(): map<string, Spec.Command>
      reads this, commands.Values
    {
      map c | c in commands :: commands[c].View()
    }

    function View(): Spec.Node
      reads this, commands.Values
    {
      Spec.Node(Ids(queue), Commands())
    }

    constructor (nodeId: string, journal: OperationJournal, limits: Spec.Limits)
      requires journal.Valid() && journal.Indexed() && limits.history == journal.limit
      ensures Valid() && this.nodeId == nodeId && this.journal == journal && this.limits == limits
      ensures View() == Spec.Node([], map[])
    {
      this.nodeId, this.journal, this.limits := nodeId, journal, limits;
      queue, commands := [], map[];
    }

    /** `submit`, and `call` up to its wait; the id is freshly drawn. */
    method Submit(id: string, op: string, mutation: bool, retain: bool, admitted: bool, detail: string) returns (reply: Spec.Reply)
      requires Valid()
      requires id !in commands && id !in Ids(queue) && Scan(journal.ops, id).None?
      modifies this, journal
      ensures Valid()
      ensures (View(), journal.ops, reply)
           == Spec.SubmitTo(nodeId, old(View()), old(journal.ops), Spec.Command(id, op, mutation, retain, false), admitted, limits, detail)
    {
      hide Distinct, Remembers, IndexAgrees, Trim, Scan, Has, Replay, Appended, CreateRow, Spec.Enqueued;
      assert Commands().Keys == commands.Keys;
      if !admitted { return Spec.Refused(Spec.NodeOffline); }
      if |commands| >= limits.maxPending { return Spec.Refused(Spec.NodeBusy); }
      var command := new PendingCommand(id, op, mutation, retain);
      var created := journal.Create(Snapshot(op, id, nodeId, mutation, retain, Queued, detail));
      assert View() == old(View()) && command.View() == Spec.Command(id, op, mutation, retain, false);
      if !created { return Spec.Refused(Spec.InvalidArgument); }
      Enqueue(command);
      reply := Spec.Done;
    }

    method Enqueue(command: PendingCommand)
      requires Valid() && command.id !in commands && command.id !in Ids(queue)
      modifies this
      ensures Valid() && View() == Spec.Enqueued(old(View()), command.View())
    {
      hide Distinct, Remembers, IndexAgrees, Trim, Replay;
      forall q | q in queue ensures q.id != command.id {
        var i :| 0 <= i < |queue| && queue[i] == q;
        assert Ids(queue)[i] == q.id;
      }
      queue := queue + [command];
      commands := commands[command.id := command];
      assert Ids(queue) == old(Ids(queue)) + [command.id];
      assert Commands() == old(Commands())[command.id := command.View()];
    }

    /** One pass of `claim` without waiting: pop until an entry is still wanted. */
    method Claim(detail: string) returns (reply: Spec.Reply)
      requires Valid()
      modifies this`queue, journal, queue
      ensures Valid()
      ensures (View(), journal.ops, reply) == Spec.ClaimFrom(old(View()), old(journal.ops), detail)
    {
      hide Distinct, Remembers, IndexAgrees, Upsert, Trim, Replay, Appended;
      ghost var before := View();
      while |queue| > 0
        modifies this`queue
        invariant Valid() && forall q | q in queue :: q in old(queue)
        invariant Spec.Pop(View()) == Spec.Pop(before)
        decreases |queue|
      {
        ghost var here := View();
        if queue[0].id in commands { break; }
        queue := queue[1..];
        assert View() == Spec.Node(here.queue[1..], here.commands);
      }
      if |queue| == 0 { return Spec.Empty; }
      reply := Hand(detail);
    }

    /** The first entry of the queue is a live command: claim it. */
    method Hand(detail: string) returns (reply: Spec.Reply)
      requires Valid() && |queue| > 0 && queue[0].id in commands
      modifies this`queue, journal, queue[0]
      ensures Valid()
      ensures (View(), journal.ops, reply) == Spec.ClaimFrom(old(View()), old(journal.ops), detail)
    {
      hide Distinct, Remembers, IndexAgrees, Upsert, Trim, Replay, Appended, Find;
      var command := queue[0];
      ghost var c := command.View();
      queue := queue[1..];
      command.claimed := true;
      assert Commands() == old(Commands())[command.id := c.(claimed := true)];
      assert Ids(queue) == old(Ids(queue))[1..];
      assert Spec.Pop(old(View())) == (View(), Some(command.id));
      label popped:
      var written := journal.Update(command.op, Claimed, detail);
      assert View() == old@popped(View());
      reply := Spec.Handed(command.id);
    }

    /** `submit_result`. */
    method SubmitResult(id: string, failed: bool, uncertain: bool, detail: string) returns (reply: Spec.Reply)
      requires Valid()
      modifies this`commands, journal
      ensures Valid()
      ensures (View(), journal.ops, reply)
           == Spec.ResultFor(nodeId, old(View()), old(journal.ops), id, failed, uncertain, detail)
    {
      hide Distinct, Remembers, IndexAgrees, Upsert, Trim, Replay, Appended, Find, Scan;
      if id !in commands {
        var archived := journal.ByCommand(id);
        if archived.None? || archived.value.node != nodeId || Spec.Terminal(archived.value.status) {
          return Spec.Refused(Spec.InvalidArgument);
        }
        var late := if uncertain && archived.value.mutation then Uncertain else if failed then LateFailed else LateSucceeded;
        label archive:
        var written := journal.Update(archived.value.op, late, detail);
        assert View() == old@archive(View());
        return Spec.Settled(late);
      }
      var command := commands[id];
      if !command.claimed { return Spec.Refused(Spec.InvalidArgument); }
      Forget(id);
      var status := if uncertain && command.mutation then Uncertain else if failed then Failed else Succeeded;
      label live:
      var written := journal.Update(command.op, status, detail);
      assert View() == old@live(View());
      reply := Spec.Settled(status);
    }

    method Forget(id: string)
      requires Valid()
      modifies this`commands
      ensures Valid() && View() == Spec.Node(old(View()).queue, old(View()).commands - {id})
    {
      commands := commands - {id};
      assert Commands() == old(Commands()) - {id};
    }

    /** `_remove_command` after the wait of a caller timed out or was cancelled. */
    method RemoveCommand(command: PendingCommand, reason: Status, detail: string) returns (reply: Spec.Reply)
      requires Valid() && command.id in commands && commands[command.id] == command
      modifies this, journal
      ensures Valid()
      ensures (View(), journal.ops, reply) == Spec.RemoveFrom(old(View()), old(journal.ops), command.id, reason, detail)
    {
      hide Distinct, Remembers, IndexAgrees, Upsert, Trim, Replay, Appended, Find, Spec.RemoveFirst;
      var status := if command.claimed && command.mutation then Uncertain else reason;
      Forget(command.id);
      Dequeue(command);
      label gone:
      var written := journal.Update(command.op, status, detail);
      assert View() == old@gone(View());
      reply := Spec.Settled(status);
    }

    /** `queue.remove(command)`, ignoring an absent one. */
    method Dequeue(command: PendingCommand)
      requires Valid() && command.id !in commands
      requires forall q | q in queue && q.id == command.id :: q == command
      modifies this`queue
      ensures Valid() && View() == Spec.Node(Spec.RemoveFirst(old(View()).queue, command.id), old(View()).commands)
    {
      hide Distinct, Remembers, IndexAgrees, Trim, Replay, Spec.RemoveFirst;
      var i := 0;
      while i < |queue| && queue[i] != command
        invariant 0 <= i <= |queue|
        invariant forall j | 0 <= j < i :: queue[j].id != command.id
      {
        i := i + 1;
      }
      SkipIds(queue, command.id, i);
      if i < |queue| {
        queue := queue[..i] + queue[i + 1..];
      }
    }
  }

  lemma {:induction false} IdsConcat(a: seq<PendingCommand>, b: seq<PendingCommand>)
    ensures Ids(a + b) == Ids(a) + Ids(b)
  {
    if a == [] {
      assert a + b == b;
    } else {
      assert (a + b)[1..] == a[1..] + b;
      IdsConcat(a[1..], b);
    }
  }

  lemma {:induction false} RemoveSkips(p: seq<string>, s: seq<string>, c: string)
    requires c !in p
    ensures Spec.RemoveFirst(p + s, c) == p + Spec.RemoveFirst(s, c)
  {
    if p == [] {
      assert p + s == s;
    } else {
      assert (p + s)[1..] == p[1..] + s;
      RemoveSkips(p[1..], s, c);
    }
  }

  /** `remove` takes out the first equal entry. */
  lemma SkipIds(queue: seq<PendingCommand>, c: string, i: nat)
    requires i <= |queue| && (i < |queue| ==> queue[i].id == c) && forall j | 0 <= j < i :: queue[j].id != c
    ensures Spec.RemoveFirst(Ids(queue), c) == Ids(if i < |queue| then queue[..i] + queue[i + 1..] else queue)
  {
    var a := queue[..i];
    IdsConcat(a, queue[i..]);
    assert queue == a + queue[i..];
    assert c !in Ids(a);
    RemoveSkips(Ids(a), Ids(queue[i..]), c);
    if i < |queue| {
      IdsConcat(a, queue[i + 1..]);
      assert queue[i..][1..] == queue[i + 1..];
    }
  }

  /** `_recover_incomplete_operations` of a new process, over the journal it loaded. */
  method RecoverIncomplete(journal: OperationJournal)
    requires journal.Valid()
    modifies journal
    ensures journal.Valid() && (old(journal.Indexed()) ==> journal.Indexed())
    ensures journal.ops == Spec.Recover(old(journal.ops), Spec.IncompleteRows(old(journal.ops)))
  {
    hide Distinct, Remembers, IndexAgrees, Upsert, Trim, Replay, Appended, Find;
    var todo := Spec.IncompleteRows(journal.ops);
    var i := 0;
    assert todo[0..] == todo;
    while i < |todo|
      invariant 0 <= i <= |todo| && journal.Valid() && (old(journal.Indexed()) ==> journal.Indexed())
      invariant Spec.Recover(journal.ops, todo[i..]) == Spec.Recover(old(journal.ops), todo)
    {
      var operation := todo[i];
      var status, reason := Uncertain, "bridge_restarted_after_claim";
      if operation.status.Queued? {
        status, reason := Orphaned, "bridge_restarted_before_claim";
      } else if !operation.mutation {
        status := Interrupted;
      }
      assert todo[i..][1..] == todo[i + 1..];
      var written := journal.Update(operation.op, status, reason);
      i := i + 1;
    }
  }
}
