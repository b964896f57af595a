/** The job channel of the ACME task queue with the two goroutines that share it: the worker,
    which only receives, and the holder of `queueMu`, which either offers one job without
    blocking or sweeps a cancelled job out by draining and refilling the channel. Each channel
    operation is one atomic action, so every interleaving of a sweep with the worker's receives
    is a sequence of these actions. */
module JobChannel {

  const CAPACITY: nat := 4096

  type TaskId = nat

  /** The holder of `queueMu` inside removeQueuedJob, with the jobs it has taken out so far. */
  datatype Sweep =
    | Free
    | Draining(target: TaskId, held: seq<TaskId>)
    | Refilling(target: TaskId, held: seq<TaskId>)

  /** `stamps`, `received` and `dropped` only record what has happened; no action reads them. */
  datatype Channel = Channel(
    queue: seq<TaskId>,
    sweep: Sweep,
    stamps: map<TaskId, nat>,     // order in which jobs were accepted
    received: set<TaskId>,        // taken by the worker
    dropped: set<TaskId>)         // taken out by a sweep

  const EMPTY: Channel := Channel([], Free, map[], {}, {})

  datatype Op =
    | Accept(id: TaskId)
    | Receive
    | Lock(id: TaskId)
    | Take
    | Turn
    | Put
    | Unlock

  predicate Enabled(c: Channel, op: Op) {
    match op
    case Accept(id) => c.sweep.Free? && |c.queue| < CAPACITY && id !in c.stamps
    case Receive => c.queue != []
    case Lock(_) => c.sweep.Free?
    case Take => c.sweep.Draining? && c.queue != []
    case Turn => c.sweep.Draining? && c.queue == []
    case Put => c.sweep.Refilling? && c.sweep.held != [] && |c.queue| < CAPACITY
    case Unlock => c.sweep.Refilling? && c.sweep.held == []
  }

  function Apply(c: Channel, op: Op): (r: Channel)
    requires Enabled(c, op)
  {
    match op
    case Accept(id) => c.(queue := c.queue + [id], stamps := c.stamps[id := |c.stamps|])
    case Receive => c.(queue := c.queue[1..], received := c.received + {c.queue[0]})
    case Lock(id) => c.(sweep := Draining(id, []))
    case Take =>
      if c.queue[0] == c.sweep.target
      then c.(queue := c.queue[1..], dropped := c.dropped + {c.queue[0]})
      else c.(queue := c.queue[1..], sweep := Draining(c.sweep.target, c.sweep.held + [c.queue[0]]))
    case Turn => c.(sweep := Refilling(c.sweep.target, c.sweep.held))
    case Put => c.(queue := c.queue + [c.sweep.held[0]], sweep := Refilling(c.sweep.target, c.sweep.held[1..]))
    case Unlock => c.(sweep := Free)
  }

  /** The jobs waiting to run, oldest first: the channel together with what a sweep holds. */
  function Pending(c: Channel): (jobs: seq<TaskId>) {
    match c.sweep
    case Free => c.queue
    case Draining(_, held) => held + c.queue
    case Refilling(_, held) => c.queue + held
  }

  function Without(jobs: seq<TaskId>, k: nat): (rest: seq<TaskId>)
    requires k < |jobs|
  {
    jobs[..k] + jobs[k + 1..]
  }

  ghost predicate InOrder(jobs: seq<TaskId>, stamps: map<TaskId, nat>) {
    && (forall i :: 0 <= i < |jobs| ==> jobs[i] in stamps)
    && (forall i, j :: 0 <= i < j < |jobs| ==> stamps[jobs[i]] < stamps[jobs[j]])
  }

  /** Every accepted job is waiting, received or dropped, exactly one of them, and the waiting
      jobs are in acceptance order (so none of them waits twice). */
  ghost predicate Ledger(pending: seq<TaskId>, c: Channel) {
    && |pending| <= CAPACITY
    && InOrder(pending, c.stamps)
    && (forall id :: id in c.stamps ==> c.stamps[id] < |c.stamps|)
    && c.received !! c.dropped
    && (forall id :: id in c.stamps <==> id in pending || id in c.received || id in c.dropped)
    && (forall id :: id in pending ==> id !in c.received && id !in c.dropped)
  }

  ghost predicate Inv(c: Channel) {
    && Ledger(Pending(c), c)
    && (!c.sweep.Free? ==> c.sweep.target !in c.sweep.held)
    && (c.sweep.Refilling? ==> c.sweep.target !in c.queue)
  }

  /** Position of the channel's head among the waiting jobs. */
  function HeadIndex(c: Channel): (k: nat) {
    if c.sweep.Draining? then |c.sweep.held| else 0
  }

  predicate TakesHead(c: Channel, op: Op)
    requires Enabled(c, op)
  {
    op.Receive? || (op.Take? && c.queue[0] == c.sweep.target)
  }

  lemma HeadLeaves(c: Channel, op: Op)
    requires Enabled(c, op) && TakesHead(c, op)
    ensures HeadIndex(c) < |Pending(c)| && Pending(c)[HeadIndex(c)] == c.queue[0]
    ensures Pending(Apply(c, op)) == Without(Pending(c), HeadIndex(c))
  {
    assert Pending(Apply(c, op)) == Without(Pending(c), HeadIndex(c));
  }

  lemma DrainMoves(c: Channel)
    requires Enabled(c, Take) && !TakesHead(c, Take)
    ensures Pending(Apply(c, Take)) == Pending(c)
  {
    assert (c.sweep.held + [c.queue[0]]) + c.queue[1..] == c.sweep.held + c.queue;
  }

  lemma RefillMoves(c: Channel)
    requires Enabled(c, Put)
    ensures Pending(Apply(c, Put)) == Pending(c)
  {
    assert (c.queue + [c.sweep.held[0]]) + c.sweep.held[1..] == c.queue + c.sweep.held;
  }

  /** The only ways the waiting jobs change: one is appended, or one leaves at the channel's head.
      Draining and refilling move jobs about without changing what waits, nor its order. */
  lemma PendingEffect(c: Channel, op: Op)
    requires Enabled(c, op)
    ensures op.Accept? ==> Pending(Apply(c, op)) == Pending(c) + [op.id]
    ensures TakesHead(c, op) ==>
              HeadIndex(c) < |Pending(c)| && Pending(c)[HeadIndex(c)] == c.queue[0] &&
              Pending(Apply(c, op)) == Without(Pending(c), HeadIndex(c))
    ensures !op.Accept? && !TakesHead(c, op) ==> Pending(Apply(c, op)) == Pending(c)
  {
    if TakesHead(c, op) {
      HeadLeaves(c, op);
    } else if op.Take? {
      DrainMoves(c);
    } else if op.Put? {
      RefillMoves(c);
    }
  }

  lemma WithoutMembers(jobs: seq<TaskId>, k: nat)
    requires k < |jobs|
    ensures forall id :: id in jobs <==> id == jobs[k] || id in Without(jobs, k)
  {
    var rest := Without(jobs, k);
    assert jobs == jobs[..k] + [jobs[k]] + jobs[k + 1..];
  }

  lemma WithoutInOrder(jobs: seq<TaskId>, k: nat, stamps: map<TaskId, nat>)
    requires InOrder(jobs, stamps) && k < |jobs|
    ensures InOrder(Without(jobs, k), stamps) && jobs[k] !in Without(jobs, k)
  {
    var rest := Without(jobs, k);
    assert forall i :: 0 <= i < |rest| ==> rest[i] == jobs[if i < k then i else i + 1];
  }

  lemma LedgerRemove(pending: seq<TaskId>, k: nat, c: Channel, r: Channel)
    requires Ledger(pending, c) && k < |pending|
    requires r.stamps == c.stamps
    requires (r.received == c.received + {pending[k]} && r.dropped == c.dropped) ||
             (r.dropped == c.dropped + {pending[k]} && r.received == c.received)
    ensures Ledger(Without(pending, k), r)
    ensures pending[k] !in Without(pending, k)
  {
    WithoutMembers(pending, k);
    WithoutInOrder(pending, k, c.stamps);
    assert pending[k] in pending;
  }

  lemma LedgerAdd(pending: seq<TaskId>, id: TaskId, c: Channel, r: Channel)
    requires Ledger(pending, c) && id !in c.stamps && |pending| < CAPACITY
    requires r.stamps == c.stamps[id := |c.stamps|] && r.received == c.received && r.dropped == c.dropped
    ensures Ledger(pending + [id], r)
  {
    var more := pending + [id];
    forall x ensures x in r.stamps <==> x in more || x in r.received || x in r.dropped {}
  }

  /** Every action keeps the ledger. */
  lemma InvStep(c: Channel, op: Op)
    requires Inv(c) && Enabled(c, op)
    ensures Inv(Apply(c, op))
  {
    var r := Apply(c, op);
    PendingEffect(c, op);
    if TakesHead(c, op) {
      LedgerRemove(Pending(c), HeadIndex(c), c, r);
    } else if op.Accept? {
      LedgerAdd(Pending(c), op.id, c, r);
    } else if op.Put? {
      assert c.sweep.held[0] in c.sweep.held;
    }
  }

  /** A refill never blocks: while a sweep still holds jobs, the channel has room for them. */
  lemma RefillNeverBlocks(c: Channel)
    requires Inv(c) && c.sweep.Refilling?
    ensures c.sweep.held != [] ==> Enabled(c, Put)
    ensures c.sweep.held == [] ==> Enabled(c, Unlock)
  {
  }

  /** When a sweep releases the channel, the cancelled job is no longer waiting. */
  lemma SweepRemovesTarget(c: Channel)
    requires Inv(c) && Enabled(c, Unlock)
    ensures c.sweep.target !in Pending(c)
  {
  }

  /** The worker receives the oldest waiting job exactly when no drain holds older ones. */
  lemma ReceivesOldestUnlessDraining(c: Channel)
    requires Inv(c) && Enabled(c, Receive)
    ensures c.queue[0] in Pending(c)
    ensures Pending(c)[0] == c.queue[0] <==> !(c.sweep.Draining? && c.sweep.held != [])
    ensures (forall id :: id in Pending(c) ==> c.stamps[c.queue[0]] <= c.stamps[id])
            <==> !(c.sweep.Draining? && c.sweep.held != [])
  {
    PendingEffect(c, Receive);
    var pending := Pending(c);
    if c.sweep.Draining? && c.sweep.held != [] {
      assert pending[0] == c.sweep.held[0] && pending[0] in pending;
    } else {
      forall id | id in pending ensures c.stamps[c.queue[0]] <= c.stamps[id] {
        var i :| 0 <= i < |pending| && pending[i] == id;
        assert pending[0] == c.queue[0];
      }
    }
  }

  ghost predicate IsRun(states: seq<Channel>, ops: seq<Op>) {
    && |states| == |ops| + 1
    && states[0] == EMPTY
    && forall i :: 0 <= i < |ops| ==> Enabled(states[i], ops[i]) && states[i + 1] == Apply(states[i], ops[i])
  }

  /** Conservation over every run: no job is lost or duplicated, and survivors keep their order. */
  lemma {:induction false} Conservation(states: seq<Channel>, ops: seq<Op>)
    requires IsRun(states, ops)
    ensures Inv(states[|ops|])
    decreases |ops|
  {
    if |ops| > 0 {
      var n := |ops| - 1;
      Conservation(states[..n + 1], ops[..n]);
      InvStep(states[n], ops[n]);
    }
  }

  /** Global first-in-first-out order does not hold: a worker can overtake a drain. */
  lemma OvertakingRun() returns (states: seq<Channel>, ops: seq<Op>)
    ensures IsRun(states, ops)
    ensures states[|ops|].received == {2} && Pending(states[|ops|]) == [1]
    ensures states[|ops|].stamps == map[1 := 0, 2 := 1]
  {
    ops := [Accept(1), Accept(2), Lock(7), Take, Receive];
    var c1 := Apply(EMPTY, Accept(1));
    var c2 := Apply(c1, Accept(2));
    var c3 := Apply(c2, Lock(7));
    var c4 := Apply(c3, Take);
    states := [EMPTY, c1, c2, c3, c4, Apply(c4, Receive)];
  }

  /** The channel as the store holds it. `Interfere` stands for the worker: between any two channel
      operations of a sweep it may receive any number of jobs. */
  class SharedChannel {
    var ch: Channel

    constructor ()
      ensures Inv(ch) && ch == EMPTY
    {
      ch := EMPTY;
    }

    method Interfere(receives: nat)
      requires Inv(ch)
      modifies this
      ensures Inv(ch) && ch.sweep == old(ch.sweep) && ch.stamps == old(ch.stamps)
      ensures ch.dropped == old(ch.dropped) && old(ch.received) <= ch.received
      ensures |ch.queue| <= |old(ch.queue)|
    {
      for i := 0 to receives
        invariant Inv(ch) && ch.sweep == old(ch.sweep) && ch.stamps == old(ch.stamps)
        invariant ch.dropped == old(ch.dropped) && old(ch.received) <= ch.received
        invariant |ch.queue| <= |old(ch.queue)|
      {
        if ch.queue != [] {
          InvStep(ch, Receive);
          ch := Apply(ch, Receive);
        }
      }
    }

    /** enqueueJob: a send that never blocks. */
    method EnqueueJob(id: TaskId) returns (accepted: bool)
      requires Inv(ch) && ch.sweep.Free? && id !in ch.stamps
      modifies this
      ensures Inv(ch) && ch.sweep.Free?
      ensures accepted <==> |old(ch.queue)| < CAPACITY
      ensures ch.queue == if accepted then old(ch.queue) + [id] else old(ch.queue)
      ensures ch.received == old(ch.received) && ch.dropped == old(ch.dropped)
    {
      accepted := |ch.queue| < CAPACITY;
      if accepted {
        InvStep(ch, Accept(id));
        ch := Apply(ch, Accept(id));
      }
    }

    /** removeQueuedJob, with the worker receiving `noise(i)` jobs after each of its operations.
        Only the target is taken out; by the ledger the remaining jobs wait in acceptance order. */
    method RemoveQueuedJob(id: TaskId, noise: nat -> nat) returns (removed: bool)
      requires Inv(ch) && ch.sweep.Free?
      modifies this
      ensures Inv(ch) && ch.sweep.Free? && ch.stamps == old(ch.stamps)
      ensures id !in Pending(ch)
      ensures old(ch.received) <= ch.received
      ensures ch.dropped == if removed then old(ch.dropped) + {id} else old(ch.dropped)
      ensures removed ==> id in old(Pending(ch))
    {
      ghost var before := ch;
      InvStep(ch, Lock(id));
      ch := Apply(ch, Lock(id));
      removed := false;
      var step := 0;
      while ch.queue != []
        invariant Inv(ch) && ch.sweep.Draining? && ch.sweep.target == id && ch.stamps == before.stamps
        invariant before.received <= ch.received
        invariant ch.dropped == if removed then before.dropped + {id} else before.dropped
        invariant removed ==> id in Pending(before)
        decreases |ch.queue|
      {
        ghost var top := ch;
        if ch.queue[0] == id {
          removed := true;
          PendingEffect(ch, Take);
          assert id in Pending(ch) && id in before.stamps;
          assert id in Pending(before);
        }
        InvStep(ch, Take);
        ch := Apply(ch, Take);
        Interfere(noise(step));
        step := step + 1;
      }
      InvStep(ch, Turn);
      ch := Apply(ch, Turn);
      while ch.sweep.held != []
        invariant Inv(ch) && ch.sweep.Refilling? && ch.sweep.target == id && ch.stamps == before.stamps
        invariant before.received <= ch.received
        invariant ch.dropped == if removed then before.dropped + {id} else before.dropped
        decreases |ch.sweep.held|
      {
        RefillNeverBlocks(ch);
        InvStep(ch, Put);
        ch := Apply(ch, Put);
        Interfere(noise(step));
        step := step + 1;
      }
      InvStep(ch, Unlock);
      ch := Apply(ch, Unlock);
    }
  }
}
