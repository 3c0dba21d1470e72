/**
 The rollover bootstrap (`app/coordinator/wake_delivery.py`): persist "sending", deliver, record the
 outcome, all under the re-entrant route lock. Concurrent callers interleave step by step, other
 registry operations run at any time, the process may die between any two steps.
 */
module Bootstrap {
  import opened Prelude
  import opened ChannelNames
  import opened RouteLocks
  import opened RouteSpec
  import opened RouteSafety
  import Wakes

  /** One call of the transport's `deliver`; no answer means it was lost or the process died. */
  datatype Send = Send(r: string, generation: nat, answer: Option<Wakes.Disposition>)

  /** Where a task that holds the lock of one route stands. */
  datatype Stage =
    | Holding
    | Entered(token: string)
    | Probing(token: string, generation: nat)
    | Persisted(token: string, generation: nat)
    | Delivering(token: string, send: nat)
    | Answered(token: string, send: nat)

  /** `depth`: how many `async with` blocks the task is inside of, counted by the task itself. */
  datatype Job = Job(r: string, depth: nat, stage: Stage)

  /** `names` is history: the route and generation each rollover token was drawn for. */
  datatype Process = Process(
    registry: Registry, names: map<string, (string, nat)>, locks: map<string, Lock>, jobs: map<Task, Job>, log: seq<Send>)

  function LockOf(p: Process, r: string): Lock {
    if r in p.locks then p.locks[r] else FREE
  }

  /** A bootstrap whose outcome is settled or needs reconciliation is not sent again. */
  predicate Blocked(last: LastRollover) {
    || last.bootstrapSent
    || last.delivery.Sending? || last.delivery.Uncertain? || last.delivery.OwnerInputRequired?
  }

  datatype Move =
    /** Any registry operation outside this protocol. */
    | Change(op: Op)
    /** `async with route_lock(r)` by any code. */
    | TakeLock(t: Task, r: string)
    /** `complete_rollover_bootstrap` takes the lock again. */
    | Enter(t: Task, r: string, token: string)
    | Validate(t: Task)
    | Persist(t: Task)
    | Deliver(t: Task)
    | Answer(t: Task, answer: Wakes.Disposition)
    | Record(t: Task)
    /** Leave one `async with`, normally or by an exception at any point. */
    | Leave(t: Task)
    | Crash

  /** A task works on one route at a time, and re-enters only from code that merely holds the lock. */
  predicate MayAcquire(p: Process, t: Task, r: string) {
    && CanAcquire(LockOf(p, r), t)
    && (t in p.jobs ==> p.jobs[t].r == r && p.jobs[t].stage.Holding?)
  }

  predicate Allowed(p: Process, v: Move) {
    match v
    case Change(op) => !op.ORecordDelivery? && (op.OPrepareRollover? ==> op.token !in p.names)
    case TakeLock(t, r) => MayAcquire(p, t, r)
    case Enter(t, r, _) => MayAcquire(p, t, r)
    case Validate(t) => t in p.jobs && p.jobs[t].stage.Entered?
    case Persist(t) => t in p.jobs && p.jobs[t].stage.Probing?
    case Deliver(t) => t in p.jobs && p.jobs[t].stage.Persisted?
    case Answer(t, _) => t in p.jobs && p.jobs[t].stage.Delivering? && p.jobs[t].stage.send < |p.log|
    case Record(t) => 
      && t in p.jobs && p.jobs[t].stage.Answered?
      && p.jobs[t].stage.send < |p.log| && p.log[p.jobs[t].stage.send].answer.Some?
    case Leave(t) => t in p.jobs
    case Crash => true
  }

  function DepthOf(p: Process, t: Task): nat {
    if t in p.jobs then p.jobs[t].depth else 0
  }

  /** The lock counts for itself, the task for itself. */
  function Acquire(p: Process, t: Task, r: string, stage: Stage): Process {
    p.(locks := p.locks[r := Acquired(LockOf(p, r), t)], jobs := p.jobs[t := Job(r, DepthOf(p, t) + 1, stage)])
  }

  function Release(p: Process, t: Task): Process
    requires t in p.jobs
  {
    var job := p.jobs[t];
    var lock := Released(LockOf(p, job.r));
    p.(locks := if lock == FREE then p.locks - {job.r} else p.locks[job.r := lock],
       jobs := if job.depth <= 1 then p.jobs - {t} else p.jobs[t := Job(job.r, job.depth - 1, Holding)])
  }

  function Goto(p: Process, t: Task, stage: Stage): Process
    requires t in p.jobs
  {
    p.(jobs := p.jobs[t := p.jobs[t].(stage := stage)])
  }

  function NamesAfter(p: Process, op: Op): map<string, (string, nat)> {
    if op.OPrepareRollover? && op.r in p.registry.routes
    then p.names[op.token := (op.r, p.registry.routes[op.r].generation + 1)]
    else p.names
  }

  /** What the registry is told about an answer. */
  function Recorded(g: Registry, r: string, token: string, answer: Wakes.Disposition): Registry {
    match answer
    case Delivered => CompleteRollover(g, r, token).0
    case NotSubmitted => RecordDelivery(g, r, token, NotSubmitted).0
    case Uncertain => RecordDelivery(g, r, token, Uncertain).0
    case OwnerInputRequired => RecordDelivery(g, r, token, OwnerInputRequired).0
  }

  function Play(p: Process, v: Move): Process
    requires Allowed(p, v)
  {
    match v
    case Change(op) => p.(registry := Do(p.registry, op).0, names := NamesAfter(p, op))
    case TakeLock(t, r) => Acquire(p, t, r, Holding)
    case Enter(t, r, token) => Acquire(p, t, r, Entered(token))
    case Validate(t) =>
      var job := p.jobs[t];
      var token := job.stage.token;
      if !Completable(p.registry, job.r, token) || Blocked(p.registry.last[job.r]) then Release(p, t)
      else Goto(p, t, Probing(token, p.registry.routes[job.r].generation))
    case Persist(t) =>
      var job := p.jobs[t];
      var token := job.stage.token;
      if !Completable(p.registry, job.r, token) then Release(p, t)
      else Goto(p, t, Persisted(token, job.stage.generation)).(registry := RecordDelivery(p.registry, job.r, token, Sending).0)
    case Deliver(t) =>
      var job := p.jobs[t];
      Goto(p, t, Delivering(job.stage.token, |p.log|)).(log := p.log + [Send(job.r, job.stage.generation, None)])
    case Answer(t, answer) =>
      var stage := p.jobs[t].stage;
      Goto(p, t, Answered(stage.token, stage.send)).(log := p.log[stage.send := p.log[stage.send].(answer := Some(answer))])
    case Record(t) =>
      var job := p.jobs[t];
      Release(p, t).(registry := Recorded(p.registry, job.r, job.stage.token, p.log[job.stage.send].answer.value))
    case Leave(t) => Release(p, t)
    case Crash => p.(locks := map[], jobs := map[])
  }

  // ---------------------------------------------------------------- the lock

  /** A lock is owned by exactly the task that works under it, and its count is that task's depth. */
  ghost predicate Mutex(locks: map<string, Lock>, jobs: map<Task, Job>) {
    && (forall t | t in jobs :: jobs[t].depth > 0 && jobs[t].r in locks && locks[jobs[t].r] == Lock(Some(t), jobs[t].depth))
    && (forall r | r in locks :: locks[r].owner.Some? && locks[r].owner.value in jobs && jobs[locks[r].owner.value].r == r)
  }

  lemma OneHolder(locks: map<string, Lock>, jobs: map<Task, Job>, t: Task, u: Task)
    requires Mutex(locks, jobs) && t in jobs && u in jobs && jobs[t].r == jobs[u].r
    ensures t == u
  {
    assert locks[jobs[t].r] == Lock(Some(t), jobs[t].depth) && locks[jobs[u].r] == Lock(Some(u), jobs[u].depth);
  }

  lemma AcquireKeepsMutex(p: Process, t: Task, r: string, stage: Stage)
    requires Mutex(p.locks, p.jobs) && MayAcquire(p, t, r)
    ensures Mutex(Acquire(p, t, r, stage).locks, Acquire(p, t, r, stage).jobs)
  {
  }

  lemma ReleaseKeepsMutex(p: Process, t: Task)
    requires Mutex(p.locks, p.jobs) && t in p.jobs
    ensures Mutex(Release(p, t).locks, Release(p, t).jobs)
  {
    assert LockOf(p, p.jobs[t].r) == Lock(Some(t), p.jobs[t].depth);
  }

  lemma GotoKeepsMutex(p: Process, t: Task, stage: Stage)
    requires Mutex(p.locks, p.jobs) && t in p.jobs
    ensures Mutex(p.locks, Goto(p, t, stage).jobs)
  {
  }

  // ---------------------------------------------------------------- sends and what is on disk

  predicate Counts(s: Send, r: string, n: nat) {
    s.r == r && s.generation == n && s.answer != Some(Wakes.NotSubmitted)
  }

  /** No call for this generation that may have reached the conversation. */
  ghost predicate NoneSent(log: seq<Send>, r: string, n: nat) {
    forall i | 0 <= i < |log| :: !Counts(log[i], r, n)
  }

  ghost predicate OnceEach(log: seq<Send>) {
    forall i, j, r, n | 0 <= i < j < |log| && Counts(log[i], r, n) :: !Counts(log[j], r, n)
  }

  /** The file does not let the bootstrap of this generation start again, now or later. */
  ghost predicate Settled(g: Registry, r: string, n: nat) {
    && r in g.routes && n <= g.routes[r].generation
    && (r in g.last && g.last[r].rollover.targetGeneration == n && !g.last[r].state.Aborted? ==> Blocked(g.last[r]))
  }

  ghost predicate AllSettled(g: Registry, log: seq<Send>) {
    forall i, r, n | 0 <= i < |log| && Counts(log[i], r, n) :: Settled(g, r, n)
  }

  ghost predicate Named(g: Registry, names: map<string, (string, nat)>) {
    && (forall r | r in g.rollovers :: g.rollovers[r].token in names && names[g.rollovers[r].token] == (r, g.rollovers[r].targetGeneration))
    && (forall r | r in g.last ::
          g.last[r].rollover.token in names && names[g.last[r].rollover.token] == (r, g.last[r].rollover.targetGeneration))
  }

  predicate TokenIs(names: map<string, (string, nat)>, token: string, r: string, n: nat) {
    token in names && names[token] == (r, n)
  }

  /** What a task at a given stage can rely on. */
  ghost predicate StageOk(g: Registry, names: map<string, (string, nat)>, log: seq<Send>, job: Job) {
    match job.stage
    case Holding => true
    case Entered(_) => true
    case Probing(token, n) => TokenIs(names, token, job.r, n) && NoneSent(log, job.r, n)
    case Persisted(token, n) => TokenIs(names, token, job.r, n) && NoneSent(log, job.r, n) && Settled(g, job.r, n)
    case Delivering(token, k) =>
      k < |log| && log[k].r == job.r && TokenIs(names, token, job.r, log[k].generation) && log[k].answer.None?
    case Answered(token, k) =>
      && k < |log| && log[k].r == job.r && TokenIs(names, token, job.r, log[k].generation) && log[k].answer.Some?
      && (log[k].answer == Some(Wakes.NotSubmitted) ==> NoneSent(log, job.r, log[k].generation))
  }

  ghost predicate Safe(p: Process) {
    && Mutex(p.locks, p.jobs)
    && WellNamed(p.registry) && Named(p.registry, p.names)
    && OnceEach(p.log) && AllSettled(p.registry, p.log)
    && (forall t | t in p.jobs :: StageOk(p.registry, p.names, p.log, p.jobs[t]))
  }

  // ---------------------------------------------------------------- operations outside the protocol

  /** How one operation may change the last rollover of a route. */
  predicate LastEvolves(g: Registry, h: Registry, r: string) {
    || ((r in h.last <==> r in g.last) && (r in g.last ==> h.last[r] == g.last[r]))
    || (r in h.last && h.last[r].state.Aborted?)
    || (r in h.last && r in g.routes && h.last[r].rollover.targetGeneration == g.routes[r].generation + 1)
    || (r in h.last && h.last[r].bootstrapSent)
  }

  /** Every rollover in the new tables was there before, or is the one just prepared. */
  predicate RolloversFrom(g: Registry, h: Registry, op: Op) {
    && (forall r | r in h.rollovers ::
          (r in g.rollovers && h.rollovers[r].token == g.rollovers[r].token
             && h.rollovers[r].targetGeneration == g.rollovers[r].targetGeneration)
          || (op.OPrepareRollover? && op.r == r && r in g.routes && h.rollovers[r].token == op.token
              && h.rollovers[r].targetGeneration == g.routes[r].generation + 1))
    && (forall r | r in h.last ::
          (r in g.last && h.last[r].rollover == g.last[r].rollover) || (r in g.rollovers && h.last[r].rollover == g.rollovers[r]))
  }

  lemma BindOpsLeaveRollovers(g: Registry, op: Op)
    requires op.OPrepareBind? || op.ORecordBind? || op.OCompleteBind? || op.ODiscardBind? || op.OPendingBind?
    ensures Do(g, op).0.rollovers == g.rollovers && Do(g, op).0.last == g.last
  {
    hide BindStaleness, BindProjectAllowed, SameTarget, ChannelName, ValidRoute, NewBind;
  }

  lemma RouteOpsLeaveRollovers(g: Registry, r: string, t: Target)
    ensures RouteSpec.Bootstrap(g, r, ChannelName(r, 0), t).0.rollovers == g.rollovers
    ensures RouteSpec.Bootstrap(g, r, ChannelName(r, 0), t).0.last == g.last
    ensures Takeover(g, r, t).0.rollovers == g.rollovers && Takeover(g, r, t).0.last == g.last
  {
    hide ChannelName, ValidRoute, ProjectIdentity;
  }

  lemma PrepareAndRecordRollovers(g: Registry, op: Op, r: string)
    requires op.OPrepareRollover? || op.ORecordRollover?
    ensures LastEvolves(g, Do(g, op).0, r) && RolloversFrom(g, Do(g, op).0, op)
  {
    hide ChannelName, ValidRoute, RolloverProjectAllowed;
  }

  lemma UnbindEndsRollover(g: Registry, op: Op, r: string)
    requires WellNamed(g) && op.OUnbind?
    ensures LastEvolves(g, Do(g, op).0, r) && RolloversFrom(g, Do(g, op).0, op)
  {
    hide ChannelName, ValidRoute;
  }

  lemma CommitEndsRollover(g: Registry, op: Op, r: string)
    requires WellNamed(g) && op.OCommitRollover?
    ensures LastEvolves(g, Do(g, op).0, r) && RolloversFrom(g, Do(g, op).0, op)
  {
    hide ChannelName, ValidRoute;
  }

  lemma AbortOrCompleteRollover(g: Registry, op: Op, r: string)
    requires WellNamed(g) && (op.OAbortRollover? || op.OCompleteRollover?)
    ensures LastEvolves(g, Do(g, op).0, r) && RolloversFrom(g, Do(g, op).0, op)
  {
    hide ChannelName, ValidRoute;
  }

  lemma LastEvolvesUnder(g: Registry, op: Op, r: string)
    requires WellNamed(g) && !op.ORecordDelivery?
    ensures LastEvolves(g, Do(g, op).0, r) && RolloversFrom(g, Do(g, op).0, op)
  {
    hide Do, WellNamed;
    match op
    case OBootstrap(q, t) => DoCreates(g, op); RouteOpsLeaveRollovers(g, q, t);
    case OTakeover(q, t) => DoCreates(g, op); RouteOpsLeaveRollovers(g, q, t);
    case OPrepareRollover(_, _) => PrepareAndRecordRollovers(g, op, r);
    case ORecordRollover(_, _, _) => PrepareAndRecordRollovers(g, op, r);
    case OUnbind(_, _) => UnbindEndsRollover(g, op, r);
    case OCommitRollover(_, _) => CommitEndsRollover(g, op, r);
    case OAbortRollover(_, _) => AbortOrCompleteRollover(g, op, r);
    case OCompleteRollover(_, _) => AbortOrCompleteRollover(g, op, r);
    case _ => BindOpsLeaveRollovers(g, op);
  }

  lemma DoCreates(g: Registry, op: Op)
    ensures op.OBootstrap? ==> Do(g, op) == RouteSpec.Bootstrap(g, op.r, ChannelName(op.r, 0), op.target)
    ensures op.OTakeover? ==> Do(g, op) == Takeover(g, op.r, op.target)
  {
    hide RouteSpec.Bootstrap, Takeover;
  }

  /** Nothing outside the protocol unsettles a generation. */
  lemma SettledStays(g: Registry, op: Op, r: string, n: nat)
    requires WellNamed(g) && !op.ORecordDelivery? && Settled(g, r, n)
    ensures Settled(Do(g, op).0, r, n)
  {
    hide Do, WellNamed;
    StepEvolves(g, op);
    LastEvolvesUnder(g, op, r);
    assert RouteEvolves(g.routes[r], Do(g, op).0.routes[r]);
  }

  lemma NamedStays(g: Registry, names: map<string, (string, nat)>, op: Op, more: map<string, (string, nat)>)
    requires WellNamed(g) && !op.ORecordDelivery? && Named(g, names)
    requires op.OPrepareRollover? ==> op.token !in names
    requires more == if op.OPrepareRollover? && op.r in g.routes then names[op.token := (op.r, g.routes[op.r].generation + 1)] else names
    ensures Named(Do(g, op).0, more)
  {
    hide Do, WellNamed;
    LastEvolvesUnder(g, op, "");
  }

  lemma ChangeKeeps(p: Process, op: Op)
    requires Safe(p) && Allowed(p, Change(op))
    ensures Safe(Play(p, Change(op)))
  {
    hide Do, Mutex, WellNamed, Settled, Named, NoneSent, OnceEach;
    var q := Play(p, Change(op));
    StepEvolves(p.registry, op);
    NamedStays(p.registry, p.names, op, q.names);
    forall i, r, n | 0 <= i < |p.log| && Counts(p.log[i], r, n) ensures Settled(q.registry, r, n) {
      SettledStays(p.registry, op, r, n);
    }
    forall t | t in p.jobs ensures StageOk(q.registry, q.names, p.log, p.jobs[t]) {
      assert StageOk(p.registry, p.names, p.log, p.jobs[t]);
      if p.jobs[t].stage.Persisted? {
        SettledStays(p.registry, op, p.jobs[t].r, p.jobs[t].stage.generation);
      }
    }
  }

  // ---------------------------------------------------------------- the steps of the protocol

  lemma AcquireKeeps(p: Process, t: Task, r: string, stage: Stage)
    requires Safe(p) && MayAcquire(p, t, r) && (stage.Holding? || stage.Entered?)
    ensures Safe(Acquire(p, t, r, stage))
  {
    hide Mutex, WellNamed, Settled, Named, NoneSent, OnceEach;
    AcquireKeepsMutex(p, t, r, stage);
  }

  lemma ReleaseKeeps(p: Process, t: Task)
    requires Safe(p) && t in p.jobs
    ensures Safe(Release(p, t))
  {
    hide Mutex, WellNamed, Settled, Named, NoneSent, OnceEach;
    ReleaseKeepsMutex(p, t);
  }

  lemma ValidateKeeps(p: Process, t: Task)
    requires Safe(p) && Allowed(p, Validate(t))
    ensures Safe(Play(p, Validate(t)))
  {
    hide Mutex, WellNamed, OnceEach, Acquire;
    var job := p.jobs[t];
    ReleaseKeeps(p, t);
    if Completable(p.registry, job.r, job.stage.token) && !Blocked(p.registry.last[job.r]) {
      var n := p.registry.routes[job.r].generation;
      GotoKeepsMutex(p, t, Probing(job.stage.token, n));
      assert !Settled(p.registry, job.r, n);
      assert NoneSent(p.log, job.r, n);
    }
  }

  /** Writing the delivery state of the last rollover of `r` touches nothing else. */
  lemma DeliveryStateChanges(g: Registry, r: string, token: string, d: BootstrapDelivery, names: map<string, (string, nat)>)
    requires WellNamed(g) && Named(g, names) && Completable(g, r, token)
    ensures var h := RecordDelivery(g, r, token, d).0;
            && WellNamed(h) && Named(h, names)
            && (forall q, n :: Settled(g, q, n) && q != r ==> Settled(h, q, n))
            && TokenIs(names, token, r, g.last[r].rollover.targetGeneration)
            && (forall n :: Settled(g, r, n) && n != g.last[r].rollover.targetGeneration ==> Settled(h, r, n))
            && (d.Sending? || d.Uncertain? || d.OwnerInputRequired? ==>
                  (forall n :: Settled(g, r, n) ==> Settled(h, r, n)) && Settled(h, r, g.last[r].rollover.targetGeneration))
  {
  }

  lemma PersistKeeps(p: Process, t: Task)
    requires Safe(p) && Allowed(p, Persist(t))
    ensures Safe(Play(p, Persist(t)))
  {
    hide Mutex, WellNamed, Named, NoneSent, OnceEach, Settled, RecordDelivery, Completable;
    var job := p.jobs[t];
    if !Completable(p.registry, job.r, job.stage.token) {
      ReleaseKeeps(p, t);
    } else {
      assert StageOk(p.registry, p.names, p.log, job);
      DeliveryStateChanges(p.registry, job.r, job.stage.token, Sending, p.names);
      GotoKeepsMutex(p, t, Persisted(job.stage.token, job.stage.generation));
      var q := Play(p, Persist(t));
      forall u | u in q.jobs ensures StageOk(q.registry, q.names, q.log, q.jobs[u]) {
        if u != t {
          assert StageOk(p.registry, p.names, p.log, p.jobs[u]);
        }
      }
    }
  }

  lemma AppendOnce(log: seq<Send>, s: Send)
    requires OnceEach(log) && NoneSent(log, s.r, s.generation)
    ensures OnceEach(log + [s])
    ensures forall r, n :: (r != s.r || n != s.generation) && NoneSent(log, r, n) ==> NoneSent(log + [s], r, n)
  {
  }

  lemma DeliverKeeps(p: Process, t: Task)
    requires Safe(p) && Allowed(p, Deliver(t))
    ensures Safe(Play(p, Deliver(t)))
  {
    hide Mutex, WellNamed, Named, NoneSent, OnceEach, Settled;
    var job := p.jobs[t];
    assert StageOk(p.registry, p.names, p.log, job);
    var s := Send(job.r, job.stage.generation, None);
    AppendOnce(p.log, s);
    GotoKeepsMutex(p, t, Delivering(job.stage.token, |p.log|));
    var q := Play(p, Deliver(t));
    forall u | u in q.jobs ensures StageOk(q.registry, q.names, q.log, q.jobs[u]) {
      if u != t {
        assert StageOk(p.registry, p.names, p.log, p.jobs[u]);
        if p.jobs[u].r == job.r {
          OneHolder(p.locks, p.jobs, t, u);
        }
      }
    }
  }

  /** Answering the one open call of a generation. */
  lemma AnswerOnce(log: seq<Send>, k: nat, answer: Wakes.Disposition)
    requires OnceEach(log) && k < |log| && log[k].answer.None?
    ensures var more := log[k := log[k].(answer := Some(answer))];
            && OnceEach(more)
            && (forall r, n :: NoneSent(log, r, n) ==> NoneSent(more, r, n))
            && (answer.NotSubmitted? ==> NoneSent(more, log[k].r, log[k].generation))
            && (forall i, r, n | 0 <= i < |log| && Counts(more[i], r, n) :: Counts(log[i], r, n))
  {
    assert Counts(log[k], log[k].r, log[k].generation);
  }

  lemma AnswerKeeps(p: Process, t: Task, answer: Wakes.Disposition)
    requires Safe(p) && Allowed(p, Answer(t, answer))
    ensures Safe(Play(p, Answer(t, answer)))
  {
    hide Mutex, WellNamed, Named, NoneSent, OnceEach, Settled, Counts;
    var job := p.jobs[t];
    assert StageOk(p.registry, p.names, p.log, job);
    AnswerOnce(p.log, job.stage.send, answer);
    GotoKeepsMutex(p, t, Answered(job.stage.token, job.stage.send));
    var q := Play(p, Answer(t, answer));
    forall u | u in q.jobs ensures StageOk(q.registry, q.names, q.log, q.jobs[u]) {
      if u != t {
        assert StageOk(p.registry, p.names, p.log, p.jobs[u]);
        if p.jobs[u].r == job.r {
          OneHolder(p.locks, p.jobs, t, u);
        }
      }
    }
  }

  lemma CompletionStays(g: Registry, r: string, token: string, names: map<string, (string, nat)>)
    requires WellNamed(g) && Named(g, names)
    ensures var h := CompleteRollover(g, r, token).0;
            WellNamed(h) && Named(h, names) && forall q, n :: Settled(g, q, n) ==> Settled(h, q, n)
  {
    hide ValidRoute, ChannelName;
  }

  /** Recording the answer of call `k` keeps every generation settled that may have been reached. */
  lemma RecordedStays(p: Process, t: Task, q: string, n: nat)
    requires Safe(p) && Allowed(p, Record(t)) && Settled(p.registry, q, n)
    requires q != p.jobs[t].r || !NoneSent(p.log, q, n)
    ensures Settled(Play(p, Record(t)).registry, q, n)
  {
    hide Mutex, WellNamed, Named, NoneSent, OnceEach, Settled, RecordDelivery, CompleteRollover, Completable, Release;
    var job := p.jobs[t];
    var token := job.stage.token;
    assert StageOk(p.registry, p.names, p.log, job);
    CompletionStays(p.registry, job.r, token, p.names);
    if Completable(p.registry, job.r, token) {
      DeliveryStateChanges(p.registry, job.r, token, NotSubmitted, p.names);
      DeliveryStateChanges(p.registry, job.r, token, Uncertain, p.names);
      DeliveryStateChanges(p.registry, job.r, token, OwnerInputRequired, p.names);
    } else {
      RefusedRecord(p.registry, job.r, token, NotSubmitted);
      RefusedRecord(p.registry, job.r, token, Uncertain);
      RefusedRecord(p.registry, job.r, token, OwnerInputRequired);
    }
  }

  lemma RefusedRecord(g: Registry, r: string, token: string, d: BootstrapDelivery)
    requires !Completable(g, r, token)
    ensures RecordDelivery(g, r, token, d).0 == g
  {
    hide Completable;
  }

  lemma RecordedShape(g: Registry, r: string, token: string, answer: Wakes.Disposition, names: map<string, (string, nat)>)
    requires WellNamed(g) && Named(g, names)
    ensures WellNamed(Recorded(g, r, token, answer)) && Named(Recorded(g, r, token, answer), names)
  {
    hide ValidRoute, ChannelName;
  }

  lemma RecordKeeps(p: Process, t: Task)
    requires Safe(p) && Allowed(p, Record(t))
    ensures Safe(Play(p, Record(t)))
  {
    hide Mutex, WellNamed, Named, OnceEach, Settled, Recorded, RecordDelivery, CompleteRollover, Completable;
    var q := Play(p, Record(t));
    var job := p.jobs[t];
    ReleaseKeepsMutex(p, t);
    RecordedShape(p.registry, job.r, job.stage.token, p.log[job.stage.send].answer.value, p.names);
    forall i, r, n | 0 <= i < |p.log| && Counts(p.log[i], r, n) ensures Settled(q.registry, r, n) {
      RecordedStays(p, t, r, n);
    }
    forall u | u in q.jobs ensures StageOk(q.registry, q.names, q.log, q.jobs[u]) {
      if u != t {
        assert StageOk(p.registry, p.names, p.log, p.jobs[u]);
        if p.jobs[u].r == job.r {
          OneHolder(p.locks, p.jobs, t, u);
        }
        if p.jobs[u].stage.Persisted? {
          RecordedStays(p, t, p.jobs[u].r, p.jobs[u].stage.generation);
        }
      }
    }
  }

  lemma PlayKeepsSafe(p: Process, v: Move)
    requires Safe(p) && Allowed(p, v)
    ensures Safe(Play(p, v))
  {
    match v
    case Change(op) => hide *; ChangeKeeps(p, op);
    case Crash =>
      hide Settled, NoneSent, OnceEach, WellNamed, Named;
    case _ => ProtocolKeepsSafe(p, v);
  }

  lemma ProtocolKeepsSafe(p: Process, v: Move)
    requires Safe(p) && Allowed(p, v) && !v.Change? && !v.Crash?
    ensures Safe(Play(p, v))
  {
    hide Safe, Acquire, Release, Do, Recorded, Completable, RecordDelivery, Goto, Blocked;
    match v
    case TakeLock(t, r) => AcquireKeeps(p, t, r, Holding);
    case Enter(t, r, token) => AcquireKeeps(p, t, r, Entered(token));
    case Validate(t) => ValidateKeeps(p, t);
    case Persist(t) => PersistKeeps(p, t);
    case Deliver(t) => DeliverKeeps(p, t);
    case Answer(t, a) => AnswerKeeps(p, t, a);
    case Record(t) => RecordKeeps(p, t);
    case Leave(t) => ReleaseKeeps(p, t);
  }

  // ---------------------------------------------------------------- whole runs

  predicate Playable(p: Process, run: seq<Move>)
    decreases |run|
  {
    |run| == 0 || (Allowed(p, run[0]) && Playable(Play(p, run[0]), run[1..]))
  }

  function PlayAll(p: Process, run: seq<Move>): Process
    requires Playable(p, run)
    decreases |run|
  {
    if |run| == 0 then p else PlayAll(Play(p, run[0]), run[1..])
  }

  const OPENING: Process := Process(EMPTY, map[], map[], map[], [])

  lemma {:induction false} RunKeepsSafe(p: Process, run: seq<Move>)
    requires Safe(p) && Playable(p, run)
    ensures Safe(PlayAll(p, run))
    decreases |run|
  {
    hide Safe, Allowed, Play;
    if |run| > 0 {
      PlayKeepsSafe(p, run[0]);
      RunKeepsSafe(Play(p, run[0]), run[1..]);
    }
  }

  /** Whatever crashes, gets lost or runs concurrently: of all deliver calls for one generation at most one is not "not submitted". */
  lemma BootstrapIsSentOnce(run: seq<Move>, i: nat, j: nat)
    requires Playable(OPENING, run) && i < j < |PlayAll(OPENING, run).log|
    requires var log := PlayAll(OPENING, run).log; log[i].r == log[j].r && log[i].generation == log[j].generation
    ensures var log := PlayAll(OPENING, run).log;
            log[i].answer == Some(Wakes.NotSubmitted) || log[j].answer == Some(Wakes.NotSubmitted)
  {
    hide Allowed, Play, PlayAll, Playable;
    RunKeepsSafe(OPENING, run);
    var log := PlayAll(OPENING, run).log;
    if Counts(log[i], log[i].r, log[i].generation) {
      assert !Counts(log[j], log[i].r, log[i].generation);
    }
  }

  /** In every reachable state at most one task works under the lock of a route, and the lock's own count is the
      number of blocks that task has entered and not left. */
  lemma RouteLockExcludes(run: seq<Move>, t: Task, u: Task)
    requires Playable(OPENING, run) && t in PlayAll(OPENING, run).jobs && u in PlayAll(OPENING, run).jobs
    requires PlayAll(OPENING, run).jobs[t].r == PlayAll(OPENING, run).jobs[u].r
    ensures var p := PlayAll(OPENING, run); t == u && LockOf(p, p.jobs[t].r) == Lock(Some(t), p.jobs[t].depth)
  {
    hide Allowed, Play, PlayAll, Playable;
    RunKeepsSafe(OPENING, run);
    OneHolder(PlayAll(OPENING, run).locks, PlayAll(OPENING, run).jobs, t, u);
  }

  // ---------------------------------------------------------------- what an undisturbed caller achieves

  /** The committed rollover of this token is the active route, and its bootstrap was neither sent nor possibly sent. */
  predicate Sendable(g: Registry, r: string, token: string) {
    Completable(g, r, token) && !g.last[r].bootstrapSent && (g.last[r].delivery.Unsent? || g.last[r].delivery.NotSubmitted?)
  }

  /** What is on file after an answer. */
  predicate FiledAs(last: LastRollover, answer: Wakes.Disposition) {
    && (last.bootstrapSent <==> answer.Delivered?) && (last.state.Complete? <==> answer.Delivered?)
    && (answer.NotSubmitted? <==> last.delivery.NotSubmitted?)
    && (answer.Uncertain? <==> last.delivery.Uncertain?)
    && (answer.OwnerInputRequired? <==> last.delivery.OwnerInputRequired?)
  }

  /** The process while task `t` works on `r` alone, at this stage, with this file and this log. */
  function Working(p: Process, t: Task, r: string, stage: Stage, g: Registry, log: seq<Send>): Process {
    Process(g, p.names, p.locks[r := Lock(Some(t), 1)], p.jobs[t := Job(r, 1, stage)], log)
  }

  lemma Enters(p: Process, t: Task, r: string, token: string)
    requires t !in p.jobs && r !in p.locks
    ensures Allowed(p, Enter(t, r, token)) && Play(p, Enter(t, r, token)) == Working(p, t, r, Entered(token), p.registry, p.log)
  {
  }

  lemma Validates(p: Process, t: Task, r: string, token: string, g: Registry)
    requires Sendable(g, r, token)
    ensures var q := Working(p, t, r, Entered(token), g, p.log);
            && Allowed(q, Validate(t))
            && Play(q, Validate(t)) == Working(p, t, r, Probing(token, g.routes[r].generation), g, p.log)
  {
    hide ValidRoute;
  }

  function Sent(g: Registry, r: string): Registry
    requires r in g.last
  {
    g.(last := g.last[r := g.last[r].(delivery := Sending)])
  }

  lemma Persists(p: Process, t: Task, r: string, token: string, n: nat, g: Registry)
    requires Completable(g, r, token)
    ensures var q := Working(p, t, r, Probing(token, n), g, p.log);
            && Allowed(q, Persist(t)) && Play(q, Persist(t)) == Working(p, t, r, Persisted(token, n), Sent(g, r), p.log)
            && Completable(Sent(g, r), r, token)
  {
    hide ValidRoute;
  }

  lemma Delivers(p: Process, t: Task, r: string, token: string, n: nat, g: Registry, answer: Wakes.Disposition)
    ensures var q := Working(p, t, r, Persisted(token, n), g, p.log);
            && Allowed(q, Deliver(t))
            && Play(q, Deliver(t)) == Working(p, t, r, Delivering(token, |p.log|), g, p.log + [Send(r, n, None)])
    ensures var q := Working(p, t, r, Delivering(token, |p.log|), g, p.log + [Send(r, n, None)]);
            && Allowed(q, Answer(t, answer))
            && Play(q, Answer(t, answer)) == Working(p, t, r, Answered(token, |p.log|), g, p.log + [Send(r, n, Some(answer))])
  {
  }

  lemma Files(g: Registry, r: string, token: string, answer: Wakes.Disposition)
    requires Completable(g, r, token) && g.last[r].delivery.Sending? && g.last[r].state.Committed? && !g.last[r].bootstrapSent
    ensures var h := Recorded(g, r, token, answer);
            h.routes == g.routes && r in h.last && h.last - {r} == g.last - {r} && FiledAs(h.last[r], answer)
  {
    hide ValidRoute;
  }

  lemma Records(p: Process, t: Task, r: string, token: string, n: nat, g: Registry, answer: Wakes.Disposition)
    requires t !in p.jobs && r !in p.locks
    ensures var q := Working(p, t, r, Answered(token, |p.log|), g, p.log + [Send(r, n, Some(answer))]);
            && Allowed(q, Record(t))
            && Play(q, Record(t)) == Process(Recorded(g, r, token, answer), p.names, p.locks, p.jobs, p.log + [Send(r, n, Some(answer))])
  {
    hide Recorded;
    assert p.locks[r := Lock(Some(t), 1)] - {r} == p.locks;
    assert p.jobs[t := Job(r, 1, Answered(token, |p.log|))] - {t} == p.jobs;
  }

  function Undisturbed(t: Task, r: string, token: string, answer: Wakes.Disposition): seq<Move> {
    [Enter(t, r, token), Validate(t), Persist(t), Deliver(t), Answer(t, answer), Record(t)]
  }

  /**
   A caller that takes the lock of a sendable rollover and is not disturbed makes exactly one call, files its answer as it
   was given, and leaves the lock as it found it.
   */
  lemma UndisturbedIsSent(p: Process, t: Task, r: string, token: string, answer: Wakes.Disposition)
    requires t !in p.jobs && r !in p.locks && Sendable(p.registry, r, token) && p.registry.last[r].state.Committed?
    ensures Playable(p, Undisturbed(t, r, token, answer))
    ensures var q := PlayAll(p, Undisturbed(t, r, token, answer));
            && q.log == p.log + [Send(r, p.registry.routes[r].generation, Some(answer))]
            && q.locks == p.locks && q.jobs == p.jobs
            && q.registry.routes == p.registry.routes && r in q.registry.last && q.registry.last - {r} == p.registry.last - {r}
            && FiledAs(q.registry.last[r], answer)
  {
    hide ValidRoute, Allowed, Play, Recorded, FiledAs, Playable, PlayAll, Working;
    var n, g := p.registry.routes[r].generation, p.registry;
    Enters(p, t, r, token);
    Validates(p, t, r, token, g);
    Persists(p, t, r, token, n, g);
    Delivers(p, t, r, token, n, Sent(g, r), answer);
    Records(p, t, r, token, n, Sent(g, r), answer);
    Files(Sent(g, r), r, token, answer);
    SixMoves(p, Undisturbed(t, r, token, answer),
             Working(p, t, r, Entered(token), g, p.log),
             Working(p, t, r, Probing(token, n), g, p.log),
             Working(p, t, r, Persisted(token, n), Sent(g, r), p.log),
             Working(p, t, r, Delivering(token, |p.log|), Sent(g, r), p.log + [Send(r, n, None)]),
             Working(p, t, r, Answered(token, |p.log|), Sent(g, r), p.log + [Send(r, n, Some(answer))]),
             Process(Recorded(Sent(g, r), r, token, answer), p.names, p.locks, p.jobs, p.log + [Send(r, n, Some(answer))]));
  }

  lemma SixMoves(p: Process, run: seq<Move>, p1: Process, p2: Process, p3: Process, p4: Process, p5: Process, p6: Process)
    requires |run| == 6
    requires Allowed(p, run[0]) && p1 == Play(p, run[0])
    requires Allowed(p1, run[1]) && p2 == Play(p1, run[1])
    requires Allowed(p2, run[2]) && p3 == Play(p2, run[2])
    requires Allowed(p3, run[3]) && p4 == Play(p3, run[3])
    requires Allowed(p4, run[4]) && p5 == Play(p4, run[4])
    requires Allowed(p5, run[5]) && p6 == Play(p5, run[5])
    ensures Playable(p, run) && PlayAll(p, run) == p6
  {
    hide Allowed, Play;
    assert run[5..][1..] == [] && Playable(p6, []) && PlayAll(p6, []) == p6;
    assert Playable(p5, run[5..]) && PlayAll(p5, run[5..]) == p6;
    assert run[4..][1..] == run[5..] && Playable(p4, run[4..]) && PlayAll(p4, run[4..]) == p6;
    assert run[3..][1..] == run[4..] && Playable(p3, run[3..]) && PlayAll(p3, run[3..]) == p6;
    assert run[2..][1..] == run[3..] && Playable(p2, run[2..]) && PlayAll(p2, run[2..]) == p6;
    assert run[1..][1..] == run[2..] && Playable(p1, run[1..]) && PlayAll(p1, run[1..]) == p6;
  }
}
