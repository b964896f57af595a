/** The ACME task store: callers that enqueue, the single worker, cancellers of managed tasks and
    the lifecycle environment, interleaved at the granularity of one `mu` section, one channel
    operation or one context cancellation. Task identifiers are fresh (they are random).

    Two pairs of source steps are one action, because nothing can tell their order apart: the
    lookup of a task's operation with the context check after it, and the check of the execution
    context with the call of the runner. */
module AcmeTaskStore {
  import opened JobChannel

  datatype Status = Queued | Running | Success | Warning | Error

  predicate Terminal(status: Status) {
    status.Success? || status.Warning? || status.Error?
  }

  /** A managed download handle: its first terminal state sticks and cancels its context. */
  datatype HandleState = NoHandle | Live | Succeeded | Failed

  datatype RunResult = Clean | WithWarnings | Faulty

  datatype Answer = NoAnswer | Answered(result: RunResult)

  /** Where the call of enqueue or enqueueManaged stands after it has published its entry. */
  datatype EnqueuePc = Offering | FailingHandle | FinishingRefused | ReleasingRefused | Returned

  /** What the worker found when it looked up the task and checked its context. */
  datatype Check = Unchecked | Missing | WasCancelled | Passed

  /** Everything there is about one task, in the store and around it. */
  datatype Task = Task(
    managed: bool,
    listed: bool,             // the store still has its entry
    status: Status,           // of that entry
    handle: HandleState,
    cancelled: bool,          // its context
    enqueuer: EnqueuePc,
    sweepers: nat,            // cancellers about to call removeQueuedJob
    cancellers: nat,          // cancellers about to finish the handle
    finishers: nat,           // cancellers about to call finishManaged
    // history, read by no action
    observed: bool,           // a canceller saw it queued with a cancelled context
    check: Check,
    hit: bool,                // cancelled or removed between that check and beginExecution
    invoked: nat,             // runner calls
    dones: nat,               // calls of operation.Done
    answer: Answer,           // what the runner returned
    snapshotGone: bool)       // the worker found the handle's snapshot expired when it published the status

  datatype Worker =
    | Idle
    | Received(id: TaskId)                      // about to mark the task running
    | Marked(id: TaskId)                        // about to look up the log session
    | Located(id: TaskId)                       // about to look up and check the context
    | Checked(id: TaskId)                       // about to begin execution
    | Began(id: TaskId)                         // about to check the execution context and run
    | Executing(id: TaskId)                     // inside the runner
    | Settling(id: TaskId, result: RunResult)   // managed: about to settle the handle
    | CancellingHandle(id: TaskId)              // managed: about to finish the handle as cancelled
    | Closing(id: TaskId, result: RunResult)    // about to publish the final status
    | Releasing(id: TaskId)                     // unmanaged: about to call operation.Done

  datatype State = State(ch: Channel, worker: Worker, tasks: map<TaskId, Task>)

  const INIT: State := State(EMPTY, Idle, map[])

  datatype Action =
    // enqueue and enqueueManaged
    | Register(id: TaskId, managed: bool)
    | Offer(id: TaskId)
    | Refuse(id: TaskId)
    // the worker loop
    | TakeJob
    | MarkRunning
    | LocateLog
    | CheckContext
    | BeginExecution
    | Invoke(expired: bool)
    | RunnerEndsHandle(success: bool)
    | RunnerReturns(result: RunResult)
    | SettleHandle
    | CancelHandleByWorker
    | Finish(snapshotGone: bool)
    | Release
    // cancellers
    | Observe(id: TaskId)
    | BeginSweep(id: TaskId)
    | SweepOp(op: Op)
    | EndSweep
    | CancelHandle(id: TaskId)
    | CancelFinish(id: TaskId)
    // environment
    | CancelContext(id: TaskId)
    | Expire(id: TaskId)
    | Cleanup(id: TaskId)

  /** The task an action works on. */
  function Subject(s: State, a: Action): (id: TaskId) {
    match a
    case TakeJob => if s.ch.queue != [] then s.ch.queue[0] else 0
    case SweepOp(_) => if s.ch.sweep.Free? then 0 else s.ch.sweep.target
    case EndSweep => if s.ch.sweep.Free? then 0 else s.ch.sweep.target
    case Register(id, _) => id
    case Offer(id) => id
    case Refuse(id) => id
    case Observe(id) => id
    case BeginSweep(id) => id
    case CancelHandle(id) => id
    case CancelFinish(id) => id
    case CancelContext(id) => id
    case Expire(id) => id
    case Cleanup(id) => id
    case _ => if s.worker.Idle? then 0 else s.worker.id
  }

  predicate CanAct(s: State, a: Action) {
    var id := Subject(s, a);
    if a.Register? then id !in s.tasks else
    && id in s.tasks
    && var t := s.tasks[id];
       match a
       case Register(_, _) => false
       case Offer(_) => t.enqueuer.Offering? && s.ch.sweep.Free?
       case Refuse(_) => !t.enqueuer.Offering? && !t.enqueuer.Returned?
       case TakeJob => s.worker.Idle? && Enabled(s.ch, Receive)
       case MarkRunning => s.worker.Received?
       case LocateLog => s.worker.Marked?
       case CheckContext => s.worker.Located?
       case BeginExecution => s.worker.Checked?
       case Invoke(expired) =>
         // a managed task runs under its own context, an unmanaged one under a derived deadline
         s.worker.Began? && (t.cancelled ==> expired) && (t.managed && expired ==> t.cancelled)
       case RunnerEndsHandle(_) => s.worker.Executing? && t.managed
       case RunnerReturns(_) => s.worker.Executing?
       case SettleHandle => s.worker.Settling?
       case CancelHandleByWorker => s.worker.CancellingHandle?
       case Finish(_) => s.worker.Closing?
       case Release => s.worker.Releasing?
       case Observe(_) => t.listed && t.managed && t.status.Queued? && t.cancelled
       case BeginSweep(_) => t.sweepers > 0 && Enabled(s.ch, Lock(id))
       case SweepOp(op) => (op.Take? || op.Turn? || op.Put?) && Enabled(s.ch, op)
       case EndSweep => Enabled(s.ch, Unlock)
       case CancelHandle(_) => t.cancellers > 0
       case CancelFinish(_) => t.finishers > 0
       case CancelContext(_) => true
       case Expire(_) => t.listed && Terminal(t.status)
       case Cleanup(_) => t.listed
  }

  function FinishHandle(t: Task, outcome: HandleState): (r: Task) {
    if t.handle.Live? then t.(handle := outcome, cancelled := true) else t
  }

  function SetStatus(t: Task, status: Status): (r: Task) {
    if t.listed then t.(status := status) else t
  }

  /** The status that finish and finishManaged publish; an expired handle snapshot reads as idle. */
  function FinalStatus(t: Task, result: RunResult, snapshotGone: bool): (status: Status)
    ensures Terminal(status)
  {
    if t.managed then
      if t.handle.Succeeded? && !snapshotGone then Success else Error
    else match result
      case Faulty => Error
      case WithWarnings => Warning
      case Clean => Success
  }

  predicate Busy(s: State, id: TaskId) {
    !s.worker.Idle? && s.worker.id == id
  }

  predicate InWindow(s: State, id: TaskId) {
    s.worker.Checked? && s.worker.id == id
  }

  /** What an action does to its subject. */
  function TaskAfter(s: State, a: Action): (t: Task)
    requires CanAct(s, a)
  {
    var id := Subject(s, a);
    if a.Register? then
      Task(a.managed, true, Queued, if a.managed then Live else NoHandle, false, Offering, 0, 0, 0,
           false, Unchecked, false, 0, 0, NoAnswer, false)
    else
      var t := s.tasks[id];
      match a
      case Offer(_) =>
        if Enabled(s.ch, Accept(id)) then t.(enqueuer := Returned)
        else t.(enqueuer := if t.managed then FailingHandle else FinishingRefused)
      case Refuse(_) =>
        (match t.enqueuer
         case FailingHandle => FinishHandle(t, Failed).(enqueuer := FinishingRefused)
         case FinishingRefused => SetStatus(t, Error).(enqueuer := if t.managed then Returned else ReleasingRefused)
         case _ => t.(enqueuer := Returned, dones := t.dones + 1))
      case MarkRunning => if t.listed && t.status.Queued? then t.(status := Running) else t
      case LocateLog => if t.listed then t else t.(check := Missing)
      case CheckContext => t.(check := if !t.listed then Missing else if t.cancelled then WasCancelled else Passed)
      case Invoke(expired) => if expired then t else t.(invoked := t.invoked + 1)
      case RunnerEndsHandle(success) => FinishHandle(t, if success then Succeeded else Failed)
      case RunnerReturns(result) => t.(answer := Answered(result))
      case SettleHandle => if s.worker.result.Faulty? then FinishHandle(t, Failed) else t
      case CancelHandleByWorker => FinishHandle(t, Failed)
      case Finish(gone) => SetStatus(t, FinalStatus(t, s.worker.result, gone)).(snapshotGone := gone)
      case Release => t.(dones := t.dones + 1)
      case Observe(_) => t.(sweepers := t.sweepers + 1, observed := true)
      case BeginSweep(_) => t.(sweepers := t.sweepers - 1)
      case EndSweep => t.(cancellers := t.cancellers + 1)
      case CancelHandle(_) => FinishHandle(t, Failed).(cancellers := t.cancellers - 1, finishers := t.finishers + 1)
      case CancelFinish(_) => SetStatus(t, FinalStatus(t, Faulty, false)).(finishers := t.finishers - 1)
      case CancelContext(_) => t.(cancelled := true, hit := t.hit || InWindow(s, id))
      case Expire(_) => t.(listed := false)
      case Cleanup(_) => t.(listed := false, hit := t.hit || InWindow(s, id))
      case _ => t
  }

  function WorkerAfter(s: State, a: Action): (w: Worker)
    requires CanAct(s, a)
  {
    var id := Subject(s, a);
    if a.Register? then s.worker else
    var t := s.tasks[id];
    match a
    case TakeJob => Received(id)
    case MarkRunning => Marked(id)
    case LocateLog => if t.listed then Located(id) else Idle
    case CheckContext =>
      if t.listed && t.cancelled then (if t.managed then CancellingHandle(id) else Closing(id, Faulty)) else Checked(id)
    case BeginExecution => if !t.listed || t.cancelled then Idle else Began(id)
    case Invoke(expired) =>
      if !expired then Executing(id) else if t.managed then CancellingHandle(id) else Closing(id, Faulty)
    case RunnerReturns(result) => if t.managed then Settling(id, result) else Closing(id, result)
    case SettleHandle => Closing(id, s.worker.result)
    case CancelHandleByWorker => Closing(id, Faulty)
    case Finish(_) => if t.managed then Idle else Releasing(id)
    case Release => Idle
    case _ => s.worker
  }

  function ChannelAfter(s: State, a: Action): (c: Channel)
    requires CanAct(s, a)
  {
    match a
    case Offer(id) => if Enabled(s.ch, Accept(id)) then Apply(s.ch, Accept(id)) else s.ch
    case TakeJob => Apply(s.ch, Receive)
    case BeginSweep(id) => Apply(s.ch, Lock(id))
    case SweepOp(op) => Apply(s.ch, op)
    case EndSweep => Apply(s.ch, Unlock)
    case _ => s.ch
  }

  function Act(s: State, a: Action): (r: State)
    requires CanAct(s, a)
  {
    State(ChannelAfter(s, a), WorkerAfter(s, a), s.tasks[Subject(s, a) := TaskAfter(s, a)])
  }

  /** `states` is a run: it starts empty and each state follows from the one before by an action. */
  ghost predicate IsRun(states: seq<State>, actions: seq<Action>) {
    && |states| == |actions| + 1
    && states[0] == INIT
    && forall i :: 0 <= i < |actions| ==> CanAct(states[i], actions[i]) && states[i + 1] == Act(states[i], actions[i])
  }

  // ---------------------------------------------------------------------------------------
  // The invariant, one task at a time
  // ---------------------------------------------------------------------------------------

  /** The worker's turn with the task ends in completion rather than in an escape. */
  predicate Completes(t: Task) {
    t.check.WasCancelled? || (t.check.Passed? && !t.hit)
  }

  predicate Finished(t: Task) {
    t.listed ==> Terminal(t.status)
  }

  predicate StatusIs(t: Task, status: Status) {
    t.listed ==> t.status == status || (t.status.Error? && t.observed)
  }

  predicate RecordInv(t: Task) {
    && (t.managed <==> !t.handle.NoHandle?)
    && (t.handle.Succeeded? || t.handle.Failed? ==> t.cancelled)
    && (t.handle.Succeeded? ==> t.invoked > 0)
    && (t.managed ==> t.dones == 0)
    && t.invoked <= 1
    && (t.invoked > 0 ==> t.check.Passed?)
    && (t.sweepers > 0 || t.cancellers > 0 || t.finishers > 0 ==> t.observed)
    && (t.observed ==> t.managed && t.cancelled && t.invoked == 0 && !t.check.Passed?)
    && (t.finishers > 0 ==> t.handle.Failed?)
    && (t.hit ==> t.check.Passed? || t.check.Missing?)
    && (t.listed && (t.status.Success? || t.status.Warning?) ==> t.invoked > 0)
    && (t.answer.Answered? ==> t.invoked > 0)
  }

  /** The result with which the worker goes on to publish the status. */
  predicate ResultIs(t: Task, result: RunResult) {
    if t.answer.Answered? then result == t.answer.result else result.Faulty? && t.invoked == 0
  }

  /** The status a task is left with, told by what its runner returned or its handle reports. */
  predicate StatusTells(t: Task) {
    if t.managed then (if t.handle.Succeeded? && !t.snapshotGone then t.status.Success? else t.status.Error?)
    else match t.answer
      case NoAnswer => t.status.Error? && t.invoked == 0
      case Answered(result) =>
        && (result.Clean? <==> t.status.Success?)
        && (result.WithWarnings? <==> t.status.Warning?)
        && (result.Faulty? <==> t.status.Error?)
  }

  predicate EnqueueInv(t: Task, stamped: bool) {
    !t.enqueuer.Returned? ==>
      && !stamped && t.dones == 0
      && (t.enqueuer.ReleasingRefused? || StatusIs(t, Queued))
      && (t.enqueuer.FailingHandle? ==> t.managed)
      && (t.enqueuer.FinishingRefused? && t.managed ==> t.handle.Failed?)
      && (t.enqueuer.ReleasingRefused? ==> !t.managed && (t.listed ==> t.status.Error?))
  }

  predicate BusyInv(t: Task, w: Worker) {
    && t.dones == 0
    && match w
       case Idle => true
       case Received(_) => t.check.Unchecked? && StatusIs(t, Queued)
       case Marked(_) => t.check.Unchecked? && StatusIs(t, Running)
       case Located(_) => t.check.Unchecked? && StatusIs(t, Running)
       case Checked(_) =>
         && t.invoked == 0 && StatusIs(t, Running)
         && (t.check.Passed? || (t.check.Missing? && !t.listed))
         && (t.check.Passed? ==> (t.hit <==> t.cancelled || !t.listed))
       case Began(_) => t.check.Passed? && !t.hit && t.invoked == 0 && StatusIs(t, Running)
       case Executing(_) => t.check.Passed? && !t.hit && t.invoked == 1 && StatusIs(t, Running) && t.answer.NoAnswer?
       case Settling(_, result) =>
         && t.check.Passed? && !t.hit && t.invoked == 1 && StatusIs(t, Running) && t.managed
         && ResultIs(t, result)
       case CancellingHandle(_) => Completes(t) && t.invoked == 0 && StatusIs(t, Running) && t.managed
       case Closing(_, result) =>
         && Completes(t) && StatusIs(t, Running) && (result.Faulty? || t.invoked > 0) && ResultIs(t, result)
       case Releasing(_) => Completes(t) && Finished(t) && !t.managed && (t.listed ==> StatusTells(t))
  }

  /** What is true of a received task once the worker has let go of it. */
  predicate SettledInv(t: Task) {
    && !t.check.Unchecked?
    && (!t.managed ==> t.dones == if Completes(t) then 1 else 0)
    && (Completes(t) ==> Finished(t))
    && (Completes(t) && t.listed ==> StatusTells(t))
    && (t.check.Missing? ==> !t.listed)
    && (!Completes(t) && t.listed ==> t.status.Running?)
  }

  predicate TaskInv(t: Task, stamped: bool, received: bool, dropped: bool, w: Worker) {
    && RecordInv(t)
    && EnqueueInv(t, stamped)
    && (t.enqueuer.Returned? && !stamped ==> (t.listed ==> t.status.Error?) && (!t.managed ==> t.dones == 1))
    && (dropped ==> t.observed)
    && (received || dropped ==> stamped)
    && (!received ==> w.Idle? && t.check.Unchecked?)
    && (stamped && !received ==> t.dones == 0 && StatusIs(t, Queued))
    && (!w.Idle? ==> received && BusyInv(t, w))
    && (received && w.Idle? ==> SettledInv(t))
  }

  ghost predicate StoreInv(s: State) {
    && Inv(s.ch)
    && (forall id :: id in s.ch.stamps ==> id in s.tasks)
    && WorkerOk(s)
    && SweepOk(s)
    && (forall id :: id in s.tasks ==> Good(s, id))
  }

  predicate WorkerOk(s: State) {
    !s.worker.Idle? ==> s.worker.id in s.ch.received
  }

  predicate SweepOk(s: State) {
    !s.ch.sweep.Free? ==> s.ch.sweep.target in s.tasks && s.tasks[s.ch.sweep.target].observed
  }

  predicate Good(s: State, id: TaskId) {
    id in s.tasks &&
    TaskInv(s.tasks[id], id in s.ch.stamps, id in s.ch.received, id in s.ch.dropped,
            if Busy(s, id) then s.worker else Idle)
  }

  /** The facts about the channel that the tasks depend on. */
  predicate HeadOk(s: State) {
    && (s.ch.queue != [] ==>
          s.ch.queue[0] in s.ch.stamps && s.ch.queue[0] !in s.ch.received && s.ch.queue[0] !in s.ch.dropped)
    && SweepOk(s)
  }

  lemma AcceptedKeeps(s: State, a: Action)
    requires CanAct(s, a) && a.Offer? && Good(s, a.id) && Enabled(s.ch, Accept(a.id))
    ensures Good(Act(s, a), a.id)
  {
  }

  lemma RejectedKeeps(s: State, a: Action)
    requires CanAct(s, a) && a.Offer? && Good(s, a.id) && !Enabled(s.ch, Accept(a.id))
    ensures Good(Act(s, a), a.id)
  {
  }

  lemma OfferKeeps(s: State, a: Action)
    requires CanAct(s, a) && a.Offer? && Good(s, a.id)
    ensures Good(Act(s, a), a.id)
  {
    if Enabled(s.ch, Accept(a.id)) {
      AcceptedKeeps(s, a);
    } else {
      RejectedKeeps(s, a);
    }
  }

  lemma RefuseKeeps(s: State, a: Action)
    requires CanAct(s, a) && a.Refuse? && Good(s, a.id)
    ensures Good(Act(s, a), a.id)
  {
    var t := s.tasks[a.id];
    if t.enqueuer.FailingHandle? {
      assert TaskAfter(s, a) == FinishHandle(t, Failed).(enqueuer := FinishingRefused);
    } else if t.enqueuer.FinishingRefused? {
      assert TaskAfter(s, a) == SetStatus(t, Error).(enqueuer := if t.managed then Returned else ReleasingRefused);
    } else {
      assert TaskAfter(s, a) == t.(enqueuer := Returned, dones := t.dones + 1);
    }
  }

  lemma EarlyWorkerKeeps(s: State, a: Action)
    requires HeadOk(s) && CanAct(s, a) && Good(s, Subject(s, a))
    requires a.TakeJob? || a.MarkRunning? || a.LocateLog? || a.CheckContext? || a.BeginExecution?
    ensures Good(Act(s, a), Subject(s, a))
  {
  }

  lemma LateWorkerKeeps(s: State, a: Action)
    requires CanAct(s, a) && Good(s, Subject(s, a))
    requires a.Invoke? || a.RunnerEndsHandle? || a.RunnerReturns? || a.SettleHandle? || a.CancelHandleByWorker? ||
             a.Finish? || a.Release?
    ensures Good(Act(s, a), Subject(s, a))
  {
  }

  lemma CancellerKeeps(s: State, a: Action)
    requires HeadOk(s) && CanAct(s, a) && Good(s, Subject(s, a))
    requires a.Observe? || a.BeginSweep? || a.SweepOp? || a.EndSweep? || a.CancelHandle? || a.CancelFinish?
    ensures Good(Act(s, a), Subject(s, a))
  {
  }

  lemma EnvironmentKeeps(s: State, a: Action)
    requires CanAct(s, a) && Good(s, Subject(s, a)) && (a.CancelContext? || a.Expire? || a.Cleanup?)
    ensures Good(Act(s, a), Subject(s, a))
  {
  }

  /** An action leaves every other task as it was. */
  lemma OthersKeep(s: State, a: Action, id: TaskId)
    requires HeadOk(s) && CanAct(s, a) && id in s.tasks && id != Subject(s, a) && Good(s, id)
    ensures Good(Act(s, a), id)
  {
  }

  lemma SubjectKeeps(s: State, a: Action)
    requires StoreInv(s) && CanAct(s, a)
    ensures Good(Act(s, a), Subject(s, a))
  {
    HeadIsWaiting(s);
    if a.Register? {
      assert !Busy(s, a.id);
    } else {
      assert Good(s, Subject(s, a));
      if a.Offer? { OfferKeeps(s, a); }
      else if a.Refuse? { RefuseKeeps(s, a); }
      else if a.TakeJob? || a.MarkRunning? || a.LocateLog? || a.CheckContext? || a.BeginExecution? {
        EarlyWorkerKeeps(s, a);
      }
      else if a.Observe? || a.BeginSweep? || a.SweepOp? || a.EndSweep? || a.CancelHandle? || a.CancelFinish? {
        CancellerKeeps(s, a);
      }
      else if a.CancelContext? || a.Expire? || a.Cleanup? { EnvironmentKeeps(s, a); }
      else { LateWorkerKeeps(s, a); }
    }
  }

  lemma HeadIsWaiting(s: State)
    requires StoreInv(s)
    ensures HeadOk(s)
  {
    if s.ch.queue != [] {
      PendingEffect(s.ch, Receive);
      assert s.ch.queue[0] in Pending(s.ch);
    }
  }

  lemma ChannelKeeps(s: State, a: Action)
    requires StoreInv(s) && CanAct(s, a)
    ensures Inv(ChannelAfter(s, a))
    ensures forall id :: id in ChannelAfter(s, a).stamps ==> id in s.tasks
  {
    match a
    case Offer(id) => if Enabled(s.ch, Accept(id)) { InvStep(s.ch, Accept(id)); }
    case TakeJob => InvStep(s.ch, Receive);
    case BeginSweep(id) => InvStep(s.ch, Lock(id));
    case SweepOp(op) => InvStep(s.ch, op);
    case EndSweep => InvStep(s.ch, Unlock);
    case _ =>
  }

  lemma TasksKeep(s: State, a: Action)
    requires StoreInv(s) && CanAct(s, a)
    ensures forall id :: id in Act(s, a).tasks ==> Good(Act(s, a), id)
  {
    SubjectKeeps(s, a);
    HeadIsWaiting(s);
    forall id | id in Act(s, a).tasks ensures Good(Act(s, a), id) {
      if id != Subject(s, a) {
        assert Good(s, id);
        OthersKeep(s, a, id);
      }
    }
  }

  lemma SweepKeeps(s: State, a: Action)
    requires SweepOk(s) && CanAct(s, a) && (a.BeginSweep? ==> Good(s, a.id))
    ensures SweepOk(Act(s, a))
  {
    if !s.ch.sweep.Free? {
      ObservedStays(s, a, s.ch.sweep.target);
    }
  }

  lemma WorkerKeeps(s: State, a: Action)
    requires WorkerOk(s) && CanAct(s, a)
    ensures WorkerOk(Act(s, a))
  {
  }

  /** Every action keeps the whole invariant. */
  lemma StoreStep(s: State, a: Action)
    requires StoreInv(s) && CanAct(s, a)
    ensures StoreInv(Act(s, a))
  {
    ChannelKeeps(s, a);
    TasksKeep(s, a);
    SweepKeeps(s, a);
    WorkerKeeps(s, a);
  }

  lemma ObservedStays(s: State, a: Action, id: TaskId)
    requires CanAct(s, a) && id in s.tasks && s.tasks[id].observed
    ensures id in Act(s, a).tasks && Act(s, a).tasks[id].observed
  {
  }

  lemma {:induction false} RunInvariant(states: seq<State>, actions: seq<Action>)
    requires IsRun(states, actions)
    ensures StoreInv(states[|actions|])
    decreases |actions|
  {
    if |actions| > 0 {
      var n := |actions| - 1;
      RunInvariant(states[..n + 1], actions[..n]);
      StoreStep(states[n], actions[n]);
    }
  }

  // ---------------------------------------------------------------------------------------
  // What the queue promises, over every run
  // ---------------------------------------------------------------------------------------

  lemma ObservedStaysAt(states: seq<State>, actions: seq<Action>, i: nat, id: TaskId)
    requires IsRun(states, actions) && i < |actions| && id in states[i].tasks && states[i].tasks[id].observed
    ensures id in states[i + 1].tasks && states[i + 1].tasks[id].observed
  {
    ObservedStays(states[i], actions[i], id);
  }

  lemma {:induction false} ObservedForGood(states: seq<State>, actions: seq<Action>, i: nat, j: nat, id: TaskId)
    requires IsRun(states, actions) && i <= j <= |actions|
    requires id in states[i].tasks && states[i].tasks[id].observed
    ensures id in states[j].tasks && states[j].tasks[id].observed
    decreases j - i
  {
    if i < j {
      ObservedStaysAt(states, actions, i, id);
      ObservedForGood(states, actions, i + 1, j, id);
    }
  }

  /** A task that a canceller saw queued with a cancelled context never has its runner invoked,
      before that moment or after it. */
  lemma CancelledNeverRuns(states: seq<State>, actions: seq<Action>, i: nat, id: TaskId)
    requires IsRun(states, actions) && i <= |actions|
    requires id in states[i].tasks && states[i].tasks[id].observed
    ensures id in states[|actions|].tasks && states[|actions|].tasks[id].invoked == 0
  {
    ObservedForGood(states, actions, i, |actions|, id);
    RunInvariant(states, actions);
    assert Good(states[|actions|], id);
  }

  /** Every runner is invoked at most once, and only for a job the worker has received; an
      active runner belongs to the one task the worker holds. */
  lemma RunnerAtMostOnce(states: seq<State>, actions: seq<Action>, id: TaskId)
    requires IsRun(states, actions) && id in states[|actions|].tasks
    ensures states[|actions|].tasks[id].invoked <= 1
    ensures states[|actions|].tasks[id].invoked == 1 ==> id in states[|actions|].ch.received
    ensures states[|actions|].worker.Executing? && states[|actions|].worker.id == id ==>
              states[|actions|].tasks[id].invoked == 1
  {
    RunInvariant(states, actions);
    assert Good(states[|actions|], id);
  }

  /** A terminal status is final: no action changes it, only removal ends it, and a removed entry
      never comes back. */
  lemma TerminalIsFinal(s: State, a: Action, id: TaskId)
    requires CanAct(s, a) && Good(s, id)
    ensures s.tasks[id].listed && Terminal(s.tasks[id].status) && Act(s, a).tasks[id].listed ==>
              Act(s, a).tasks[id].status == s.tasks[id].status
    ensures !s.tasks[id].listed ==> !Act(s, a).tasks[id].listed
  {
    if id == Subject(s, a) {
      SubjectStatusFinal(s, a);
    }
  }

  lemma SubjectStatusFinal(s: State, a: Action)
    requires CanAct(s, a) && Good(s, Subject(s, a))
    ensures var t, r := s.tasks[Subject(s, a)], TaskAfter(s, a);
      && (t.listed && Terminal(t.status) && r.listed ==> r.status == t.status)
      && (!t.listed ==> !r.listed)
  {
  }

  lemma {:induction false} RunInvariantAt(states: seq<State>, actions: seq<Action>, i: nat)
    requires IsRun(states, actions) && i <= |actions|
    ensures StoreInv(states[i])
  {
    RunInvariant(states[..i + 1], actions[..i]);
  }

  lemma TerminalStays(states: seq<State>, actions: seq<Action>, j: nat, id: TaskId, status: Status)
    requires IsRun(states, actions) && j < |actions| && id in states[j].tasks && Terminal(status)
    requires states[j].tasks[id].listed ==> states[j].tasks[id].status == status
    ensures id in states[j + 1].tasks
    ensures states[j + 1].tasks[id].listed ==> states[j + 1].tasks[id].status == status
  {
    assert Good(states[j], id) by {
      RunInvariantAt(states, actions, j);
    }
    TerminalIsFinal(states[j], actions[j], id);
  }

  /** Over every run: a status once terminal is the one any later view shows. */
  lemma {:induction false} TerminalForGood(
      states: seq<State>, actions: seq<Action>, i: nat, j: nat, id: TaskId, status: Status)
    requires IsRun(states, actions) && i <= j <= |actions| && id in states[i].tasks && Terminal(status)
    requires states[i].tasks[id].listed ==> states[i].tasks[id].status == status
    ensures id in states[j].tasks
    ensures states[j].tasks[id].listed ==> states[j].tasks[id].status == status
    decreases j - i
  {
    if i < j {
      TerminalStays(states, actions, i, id, status);
      TerminalForGood(states, actions, i + 1, j, id, status);
    }
  }

  /** Completion. Once the worker lets go of a job it received, exactly one of two things holds.
      Either its status is final and, for an unmanaged task, operation.Done was called exactly
      once; or it escaped: its entry had been removed before the context check, or it was
      cancelled or removed between that check and beginExecution. */
  lemma Completion(states: seq<State>, actions: seq<Action>, id: TaskId)
    requires IsRun(states, actions)
    requires id in states[|actions|].ch.received && !Busy(states[|actions|], id)
    ensures id in states[|actions|].tasks
    ensures var t := states[|actions|].tasks[id];
            && (!t.managed ==> (t.dones == 1 <==> !(t.check.Missing? || t.hit)))
            && (!t.managed ==> (t.dones == 0 <==> t.check.Missing? || t.hit))
            && (t.listed ==> (Terminal(t.status) <==> !t.hit))
            && (t.check.Missing? ==> !t.listed)
  {
    var s := states[|actions|];
    RunInvariant(states, actions);
    assert id in s.tasks;
    assert Good(s, id);
  }

  /** What the status says. Once the worker has let go of a task that did not escape and is still
      listed: an unmanaged task shows success, a warning or an error as its runner returned, and an
      error if the runner was never invoked; a managed one shows success if its handle succeeded and an
      error otherwise, or if the handle's snapshot had expired. */
  lemma StatusExactly(states: seq<State>, actions: seq<Action>, id: TaskId)
    requires IsRun(states, actions)
    requires id in states[|actions|].ch.received && !Busy(states[|actions|], id) && id in states[|actions|].tasks
    requires states[|actions|].tasks[id].listed && !states[|actions|].tasks[id].hit
    ensures var t := states[|actions|].tasks[id];
      && (!t.managed ==>
           && (t.status == Success <==> t.answer == Answered(Clean))
           && (t.status == Warning <==> t.answer == Answered(WithWarnings))
           && (t.status == Error <==> t.answer == Answered(Faulty) || t.invoked == 0))
      && (t.managed ==>
           && (t.status == Success <==> t.handle == Succeeded && !t.snapshotGone)
           && (t.status == Error <==> t.handle != Succeeded || t.snapshotGone))
  {
    RunInvariant(states, actions);
    assert Good(states[|actions|], id);
  }

  /** A task that the full channel refused shows an error, and its operation is released once. */
  lemma RefusedExactly(states: seq<State>, actions: seq<Action>, id: TaskId)
    requires IsRun(states, actions) && id in states[|actions|].tasks && id !in states[|actions|].ch.stamps
    requires states[|actions|].tasks[id].enqueuer.Returned?
    ensures states[|actions|].tasks[id].listed ==> states[|actions|].tasks[id].status == Error
    ensures !states[|actions|].tasks[id].managed ==> states[|actions|].tasks[id].dones == 1
    ensures states[|actions|].tasks[id].invoked == 0
  {
    RunInvariant(states, actions);
    assert Good(states[|actions|], id);
  }

  /** The window is hit only from outside: by a cancellation or a cleanup call that strikes while
      the worker stands between the context check and beginExecution. */
  lemma WindowHitFromOutside(s: State, a: Action, id: TaskId)
    requires CanAct(s, a) && id in s.tasks && !s.tasks[id].hit && Act(s, a).tasks[id].hit
    ensures InWindow(s, id) && (a == CancelContext(id) || a == Cleanup(id))
  {
    if id == Subject(s, a) && a != CancelContext(id) && a != Cleanup(id) {
      SubjectHit(s, a, id);
    }
  }

  predicate OfWorker(a: Action) {
    || a.TakeJob? || a.MarkRunning? || a.LocateLog? || a.CheckContext? || a.BeginExecution? || a.Invoke?
    || a.RunnerEndsHandle? || a.RunnerReturns? || a.SettleHandle? || a.CancelHandleByWorker? || a.Finish? || a.Release?
  }

  lemma WorkerHitsNothing(s: State, a: Action)
    requires CanAct(s, a) && OfWorker(a)
    ensures TaskAfter(s, a).hit == s.tasks[Subject(s, a)].hit
  {
  }

  lemma SubjectHit(s: State, a: Action, id: TaskId)
    requires CanAct(s, a) && id == Subject(s, a) && id in s.tasks && !s.tasks[id].hit
    requires a != CancelContext(id) && a != Cleanup(id)
    ensures !TaskAfter(s, a).hit
  {
    if OfWorker(a) {
      WorkerHitsNothing(s, a);
    }
  }

  /** An entry that the worker has yet to check disappears only by a cleanup call, or after a
      canceller has finished it. */
  lemma EntryLostFromOutside(s: State, a: Action, id: TaskId)
    requires CanAct(s, a) && Good(s, id) && id in s.ch.stamps && s.tasks[id].check.Unchecked?
    requires s.tasks[id].listed && !Act(s, a).tasks[id].listed
    ensures a == Cleanup(id) || s.tasks[id].observed
  {
  }

  predicate Escaped(s: State, id: TaskId) {
    id in s.tasks && id in s.ch.received && !Busy(s, id) && !Completes(s.tasks[id])
  }

  lemma EscapeStays(s: State, a: Action, id: TaskId)
    requires HeadOk(s) && CanAct(s, a) && Escaped(s, id)
    ensures Escaped(Act(s, a), id)
  {
    if Subject(s, a) == id {
      EscapedTaskStays(s, a);
    }
  }

  lemma EscapedWorkerStays(s: State, a: Action)
    requires HeadOk(s) && CanAct(s, a) && Escaped(s, Subject(s, a))
    ensures WorkerAfter(s, a) == s.worker
  {
  }

  lemma EscapedTaskStays(s: State, a: Action)
    requires HeadOk(s) && CanAct(s, a) && Escaped(s, Subject(s, a))
    ensures !Completes(TaskAfter(s, a)) && WorkerAfter(s, a) == s.worker
  {
    EscapedWorkerStays(s, a);
  }

  lemma EscapedMeans(s: State, id: TaskId)
    requires StoreInv(s) && Escaped(s, id)
    ensures s.tasks[id].listed ==> s.tasks[id].status.Running?
    ensures !s.tasks[id].managed ==> s.tasks[id].dones == 0
  {
    assert Good(s, id);
  }

  lemma EscapeSurvives(states: seq<State>, actions: seq<Action>, j: nat, id: TaskId)
    requires IsRun(states, actions) && j < |actions| && Escaped(states[j], id)
    ensures Escaped(states[j + 1], id)
  {
    var s, a := states[j], actions[j];
    assert CanAct(s, a) && states[j + 1] == Act(s, a);
    assert HeadOk(s) by {
      RunInvariantAt(states, actions, j);
      HeadIsWaiting(s);
    }
    EscapeStays(s, a, id);
  }

  lemma {:induction false} EscapedLater(states: seq<State>, actions: seq<Action>, i: nat, j: nat, id: TaskId)
    requires IsRun(states, actions) && i <= j <= |actions| && Escaped(states[i], id)
    ensures Escaped(states[j], id)
    decreases j - i
  {
    if i < j {
      EscapeSurvives(states, actions, i, id);
      EscapedLater(states, actions, i + 1, j, id);
    }
  }

  /** An escape is for ever, over every run: the status stays running (or the entry is gone) and the
      operation is never released. */
  lemma EscapedForGood(states: seq<State>, actions: seq<Action>, i: nat, j: nat, id: TaskId)
    requires IsRun(states, actions) && i <= j <= |actions| && Escaped(states[i], id)
    ensures Escaped(states[j], id)
    ensures states[j].tasks[id].listed ==> states[j].tasks[id].status.Running?
    ensures !states[j].tasks[id].managed ==> states[j].tasks[id].dones == 0
  {
    EscapedLater(states, actions, i, j, id);
    RunInvariantAt(states, actions, j);
    EscapedMeans(states[j], id);
  }

  lemma ExtendRun(states: seq<State>, actions: seq<Action>, a: Action)
    returns (states': seq<State>, actions': seq<Action>)
    requires IsRun(states, actions) && CanAct(states[|actions|], a)
    ensures IsRun(states', actions')
    ensures |actions'| == |actions| + 1 && states'[|actions'|] == Act(states[|actions|], a)
  {
    states' := states + [Act(states[|actions|], a)];
    actions' := actions + [a];
  }

  lemma ReachMarked() returns (states: seq<State>, actions: seq<Action>)
    ensures IsRun(states, actions) && states[|actions|].worker == Marked(1) && 1 in states[|actions|].ch.received
    ensures 1 in states[|actions|].tasks
    ensures states[|actions|].tasks[1] ==
              Task(false, true, Running, NoHandle, false, Returned, 0, 0, 0, false, Unchecked, false, 0, 0,
                   NoAnswer, false)
  {
    states, actions := ExtendRun([INIT], [], Register(1, false));
    states, actions := ExtendRun(states, actions, Offer(1));
    assert states[|actions|].ch.queue == [1];
    states, actions := ExtendRun(states, actions, TakeJob);
    states, actions := ExtendRun(states, actions, MarkRunning);
  }

  /** The escape happens: cancelled inside the window, an unmanaged task is left running for ever. */
  lemma EscapingRun() returns (states: seq<State>, actions: seq<Action>)
    ensures IsRun(states, actions) && Escaped(states[|actions|], 1)
    ensures states[|actions|].tasks[1].listed && states[|actions|].tasks[1].dones == 0
  {
    states, actions := ReachMarked();
    states, actions := ExtendRun(states, actions, LocateLog);
    states, actions := ExtendRun(states, actions, CheckContext);
    states, actions := ExtendRun(states, actions, CancelContext(1));
    states, actions := ExtendRun(states, actions, BeginExecution);
  }

  /** Nothing but the runner itself can hold the worker up: outside it, a next step is enabled. */
  lemma WorkerNeverBlocks(s: State) returns (a: Action)
    requires StoreInv(s) && !s.worker.Idle?
    ensures CanAct(s, a)
    ensures WorkerAfter(s, a) != s.worker
  {
    var id := s.worker.id;
    assert id in s.ch.received && id in s.ch.stamps && id in s.tasks;
    a := match s.worker
      case Received(_) => MarkRunning
      case Marked(_) => LocateLog
      case Located(_) => CheckContext
      case Checked(_) => BeginExecution
      case Began(_) => Invoke(s.tasks[id].cancelled)
      case Executing(_) => RunnerReturns(Clean)
      case Settling(_, _) => SettleHandle
      case CancellingHandle(_) => CancelHandleByWorker
      case Closing(_, _) => Finish(false)
      case _ => Release;
  }

  /** How many steps the worker is from letting go of its job. */
  function StepsLeft(w: Worker): (n: nat)
    ensures n <= 9 && (n == 0 <==> w.Idle?)
  {
    match w
    case Idle => 0
    case Received(_) => 9
    case Marked(_) => 8
    case Located(_) => 7
    case Checked(_) => 6
    case Began(_) => 5
    case Executing(_) => 4
    case Settling(_, _) => 3
    case CancellingHandle(_) => 3
    case Closing(_, _) => 2
    case Releasing(_) => 1
  }

  /** A busy worker moves only towards letting go, whatever the others do. */
  lemma WorkerApproaches(s: State, a: Action)
    requires CanAct(s, a) && !s.worker.Idle?
    ensures WorkerAfter(s, a) == s.worker || StepsLeft(WorkerAfter(s, a)) < StepsLeft(s.worker)
  {
  }

  /** The worker's moves from state `i` to state `j`. */
  function Moves(states: seq<State>, i: nat, j: nat): (n: nat)
    requires i <= j < |states|
    decreases j - i
  {
    if i == j then 0 else (if states[i + 1].worker != states[i].worker then 1 else 0) + Moves(states, i + 1, j)
  }

  lemma WorkerApproachesAt(states: seq<State>, actions: seq<Action>, i: nat)
    requires IsRun(states, actions) && i < |actions| && !states[i].worker.Idle?
    ensures states[i + 1].worker == states[i].worker || StepsLeft(states[i + 1].worker) < StepsLeft(states[i].worker)
  {
    WorkerApproaches(states[i], actions[i]);
  }

  /** In every run the worker lets go of a job after at most nine moves of its own, one of which is
      always enabled; then Completion says what has become of the job. */
  lemma {:induction false} WorkerLetsGo(states: seq<State>, actions: seq<Action>, i: nat, j: nat)
    requires IsRun(states, actions) && i <= j <= |actions|
    requires forall k :: i <= k < j ==> !states[k].worker.Idle?
    ensures Moves(states, i, j) + StepsLeft(states[j].worker) <= StepsLeft(states[i].worker)
    ensures !states[j].worker.Idle? ==>
              exists a :: CanAct(states[j], a) && WorkerAfter(states[j], a) != states[j].worker
    decreases j - i
  {
    if i < j {
      WorkerApproachesAt(states, actions, i);
      WorkerLetsGo(states, actions, i + 1, j);
    } else if !states[j].worker.Idle? {
      RunInvariantAt(states, actions, j);
      var a := WorkerNeverBlocks(states[j]);
    }
  }
}
