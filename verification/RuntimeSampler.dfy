/** The start, stop and exit protocol of the runtime sampler: any number of Start and StopAndFlush
    calls and one worker per generation, interleaved at the granularity of one `mu` section, one
    channel wait, one channel close or one flush.

    The stop, done and complete channels of a generation are made together and dropped together,
    always inside one lock section, so one field names the generation they all belong to. */
module RuntimeSampler {
  import opened Collections

  type CallId = nat

  datatype Worker =
    | Working   // from the go statement to the end of the scheduling loop: may execute jobs
    | Exiting   // returned or recovered from a panic, about to take the lock
    | Leaving   // about to close the done channel
    | Gone

  datatype Generation = Generation(
    worker: Worker,
    stops: nat, dones: nat, completes: nat,   // how often each of its channels was closed
    // history, read by no action
    stopper: Option<CallId>,                  // the latest call that closed its stop channel
    outcome: Option<bool>)                    // whether the flush of its stop failed

  datatype Call =
    | Starting                                // Start, about to take the lock
    | StartWaiting(gen: nat)                  // Start, waiting on the complete channel
    | Stopping                                // StopAndFlush, about to take the lock
    | IdleFlushing(before: nat)               // flushing without a worker; generations made before
    | StopWaiting(gen: nat)                   // joined a stop, waiting on the complete channel
    | Reading(gen: nat)                       // joined a stop, about to read stopErr
    | AwaitingWorker(gen: nat)                // waiting on the done channel
    | Flushing(gen: nat)
    | Finalizing(gen: nat, failed: bool)      // about to take the lock again
    | Crashed                                 // closed a channel that is not there
    | Returned(failed: bool)

  datatype Sampler = Sampler(
    running: bool, stopping: bool, current: Option<nat>, stopErr: bool,
    gens: seq<Generation>, calls: map<CallId, Call>)

  const INIT: Sampler := Sampler(false, false, None, false, [], map[])

  datatype Action =
    | CallStart(id: CallId)
    | CallStop(id: CallId)
    | Proceed(id: CallId, failed: bool)       // the call's next step; failed: what its flush reports
    | WorkerStops(gen: nat)                   // the loop sees the stop channel closed
    | WorkerPanics(gen: nat)
    | WorkerSection(gen: nat)                 // the lock section of the deferred exit
    | WorkerCloses(gen: nat)

  predicate Closed(closes: nat) { closes > 0 }

  predicate CanProceed(s: Sampler, call: Call) {
    match call
    case StartWaiting(g) => g < |s.gens| && Closed(s.gens[g].completes)
    case StopWaiting(g) => g < |s.gens| && Closed(s.gens[g].completes)
    case AwaitingWorker(g) => g < |s.gens| && Closed(s.gens[g].dones)
    case Finalizing(g, _) => g < |s.gens|
    case Crashed => false
    case Returned(_) => false
    case _ => true
  }

  predicate CanAct(s: Sampler, a: Action) {
    match a
    case CallStart(id) => id !in s.calls
    case CallStop(id) => id !in s.calls
    case Proceed(id, _) => id in s.calls && CanProceed(s, s.calls[id])
    case WorkerStops(g) => g < |s.gens| && s.gens[g].worker.Working? && Closed(s.gens[g].stops)
    case WorkerPanics(g) => g < |s.gens| && s.gens[g].worker.Working?
    case WorkerSection(g) => g < |s.gens| && s.gens[g].worker.Exiting?
    case WorkerCloses(g) => g < |s.gens| && s.gens[g].worker.Leaving?
  }

  function Goto(s: Sampler, id: CallId, call: Call): (r: Sampler) {
    s.(calls := s.calls[id := call])
  }

  /** The body of Start's loop. */
  function StartSection(s: Sampler, id: CallId): (r: Sampler) {
    if s.running then Goto(s, id, Returned(false))
    else if s.stopping then Goto(s, id, if s.current.Some? then StartWaiting(s.current.value) else Starting)
    else
      var made := Generation(Working, 0, 0, 0, None, None);
      var back := Goto(s, id, Returned(false));
      back.(running := true, current := Some(|s.gens|), stopErr := false, gens := s.gens + [made])
  }

  /** The first lock section of StopAndFlush. */
  function StopSection(s: Sampler, id: CallId): (r: Sampler) {
    if !s.running && !s.stopping then Goto(s, id, IdleFlushing(|s.gens|))
    else if s.stopping then
      Goto(s, id, if s.current.Some? then StopWaiting(s.current.value) else Returned(s.stopErr))
    else if s.current.None? || s.current.value >= |s.gens| then Goto(s, id, Crashed)
    else
      var g := s.current.value;
      var closed := s.gens[g].(stops := s.gens[g].stops + 1, stopper := Some(id));
      Goto(s, id, AwaitingWorker(g)).(running := false, stopping := true, gens := s.gens[g := closed])
  }

  /** The last lock section of StopAndFlush. */
  function FinalSection(s: Sampler, id: CallId, g: nat, failed: bool): (r: Sampler)
    requires g < |s.gens|
  {
    var back := Goto(s, id, Returned(failed));
    if s.current != Some(g) then back
    else
      var closed := s.gens[g].(completes := s.gens[g].completes + 1, outcome := Some(failed));
      back.(current := None, stopErr := failed, stopping := false, gens := s.gens[g := closed])
  }

  function Advance(s: Sampler, id: CallId, failed: bool): (r: Sampler)
    requires id in s.calls && CanProceed(s, s.calls[id])
  {
    match s.calls[id]
    case Starting => StartSection(s, id)
    case StartWaiting(_) => Goto(s, id, Starting)
    case Stopping => StopSection(s, id)
    case IdleFlushing(_) => Goto(s, id, Returned(failed))
    case StopWaiting(g) => Goto(s, id, Reading(g))
    case Reading(_) => Goto(s, id, Returned(s.stopErr))
    case AwaitingWorker(g) => Goto(s, id, Flushing(g))
    case Flushing(g) => Goto(s, id, Finalizing(g, failed))
    case Finalizing(g, err) => FinalSection(s, id, g, err)
  }

  /** The lock section of the worker's deferred exit. */
  function ExitSection(s: Sampler, g: nat): (r: Sampler)
    requires g < |s.gens|
  {
    var gone := s.gens[g].(worker := Leaving);
    if s.current != Some(g) then s.(gens := s.gens[g := gone])
    else if s.stopping then s.(running := false, gens := s.gens[g := gone])
    else
      var closed := gone.(completes := gone.completes + 1);
      s.(running := false, current := None, gens := s.gens[g := closed])
  }

  function SetWorker(s: Sampler, g: nat, w: Worker): (r: Sampler)
    requires g < |s.gens|
  {
    s.(gens := s.gens[g := s.gens[g].(worker := w)])
  }

  function Act(s: Sampler, a: Action): (r: Sampler)
    requires CanAct(s, a)
  {
    match a
    case CallStart(id) => Goto(s, id, Starting)
    case CallStop(id) => Goto(s, id, Stopping)
    case Proceed(id, failed) => Advance(s, id, failed)
    case WorkerStops(g) => SetWorker(s, g, Exiting)
    case WorkerPanics(g) => SetWorker(s, g, Exiting)
    case WorkerSection(g) => ExitSection(s, g)
    case WorkerCloses(g) => s.(gens := s.gens[g := s.gens[g].(worker := Gone, dones := s.gens[g].dones + 1)])
  }

  ghost predicate Steps(states: seq<Sampler>, actions: seq<Action>) {
    && |states| == |actions| + 1
    && forall i :: 0 <= i < |actions| ==> CanAct(states[i], actions[i]) && states[i + 1] == Act(states[i], actions[i])
  }

  ghost predicate IsRun(states: seq<Sampler>, actions: seq<Action>) {
    Steps(states, actions) && states[0] == INIT
  }

  // ---------------------------------------------------------------------------------------
  // The invariant
  // ---------------------------------------------------------------------------------------

  predicate IsCurrent(s: Sampler, g: nat) { s.current == Some(g) }

  /** Call `call` is the one that stops generation `g`. */
  predicate Stops(call: Call, g: nat) {
    (call.AwaitingWorker? || call.Flushing? || call.Finalizing?) && call.gen == g
  }

  predicate GenInv(s: Sampler, g: nat)
    requires g < |s.gens|
  {
    var gen := s.gens[g];
    && gen.stops <= 1
    && gen.dones == (if gen.worker.Gone? then 1 else 0)
    && gen.completes == (if IsCurrent(s, g) then 0 else 1)
    && (!IsCurrent(s, g) ==> gen.worker.Leaving? || gen.worker.Gone?)
    && (IsCurrent(s, g) ==> gen.outcome.None?)
    && (IsCurrent(s, g) && s.running ==> gen.stops == 0 && (gen.worker.Working? || gen.worker.Exiting?))
    && (IsCurrent(s, g) && s.stopping ==>
          && gen.stops == 1 && gen.stopper.Some? && gen.stopper.value in s.calls
          && Stops(s.calls[gen.stopper.value], g))
  }

  predicate CallInv(s: Sampler, id: CallId)
    requires id in s.calls
  {
    match s.calls[id]
    case StartWaiting(g) => Owed(s, g)
    case IdleFlushing(n) => n <= |s.gens| && forall g :: 0 <= g < n ==> !s.gens[g].worker.Working?
    case StopWaiting(g) => g < |s.gens| && Joined(s, g)
    case Reading(g) =>
      && g < |s.gens| && Joined(s, g) && !IsCurrent(s, g)
    case AwaitingWorker(g) => g < |s.gens| && Stopper(s, g, id)
    case Flushing(g) => g < |s.gens| && Stopper(s, g, id) && s.gens[g].worker.Gone?
    case Finalizing(g, _) => g < |s.gens| && Stopper(s, g, id) && s.gens[g].worker.Gone?
    case Crashed => false
    case _ => true
  }

  predicate Stopper(s: Sampler, g: nat, id: CallId)
    requires g < |s.gens|
  {
    IsCurrent(s, g) && s.stopping && s.gens[g].stopper == Some(id)
  }

  /** Somebody joined the stop of `g`: it is still under way, or its outcome is known. */
  predicate Joined(s: Sampler, g: nat)
    requires g < |s.gens|
  {
    || (IsCurrent(s, g) && s.stopping)
    || s.gens[g].outcome.Some?
  }

  /** Whether the newest generation was stopped with a flush that failed. */
  predicate NewestOutcome(s: Sampler) {
    s.gens != [] && s.gens[|s.gens| - 1].outcome == Some(true)
  }

  predicate FieldInv(s: Sampler) {
    && !(s.running && s.stopping)
    && (s.current.Some? <==> s.running || s.stopping)
    && (s.current.Some? ==> s.current.value + 1 == |s.gens|)
    && s.stopErr == NewestOutcome(s)
  }

  ghost predicate Inv(s: Sampler) {
    && FieldInv(s)
    && (forall g :: 0 <= g < |s.gens| ==> GenInv(s, g))
    && (forall id :: id in s.calls ==> CallInv(s, id))
  }

  lemma WorkerGenStep(s: Sampler, a: Action, g: nat)
    requires Inv(s) && CanAct(s, a) && !a.Proceed? && g < |s.gens|
    ensures g < |Act(s, a).gens| && GenInv(Act(s, a), g)
  {
    assert GenInv(s, g);
  }

  lemma CallGenStep(s: Sampler, id: CallId, failed: bool, g: nat)
    requires Inv(s) && id in s.calls && CanProceed(s, s.calls[id]) && g < |Advance(s, id, failed).gens|
    ensures GenInv(Advance(s, id, failed), g)
  {
    if g < |s.gens| {
      assert GenInv(s, g);
    }
    assert CallInv(s, id);
  }

  lemma GenStep(s: Sampler, a: Action, g: nat)
    requires Inv(s) && CanAct(s, a) && g < |Act(s, a).gens|
    ensures GenInv(Act(s, a), g)
  {
    if a.Proceed? {
      CallGenStep(s, a.id, a.failed, g);
    } else {
      WorkerGenStep(s, a, g);
    }
  }

  /** The step is a lock section that may change the fields. */
  predicate Section(call: Call) { call.Starting? || call.Stopping? || call.Finalizing? }

  lemma OtherSectionStep(s: Sampler, actor: CallId, failed: bool, id: CallId)
    requires Inv(s) && actor in s.calls && CanProceed(s, s.calls[actor]) && id in s.calls && id != actor
    requires !s.calls[id].IdleFlushing? && Section(s.calls[actor])
    ensures id in Advance(s, actor, failed).calls && CallInv(Advance(s, actor, failed), id)
  {
    assert CallInv(s, id);
    assert CallInv(s, actor);
  }

  /** The step of one call does not disturb another. */
  lemma OtherCallStep(s: Sampler, actor: CallId, failed: bool, id: CallId)
    requires Inv(s) && actor in s.calls && CanProceed(s, s.calls[actor]) && id in s.calls && id != actor
    requires !s.calls[id].IdleFlushing?
    ensures id in Advance(s, actor, failed).calls && CallInv(Advance(s, actor, failed), id)
  {
    if Section(s.calls[actor]) {
      OtherSectionStep(s, actor, failed, id);
    } else {
      assert CallInv(s, id);
    }
  }

  lemma ExitCallStep(s: Sampler, g: nat, id: CallId)
    requires Inv(s) && CanAct(s, WorkerSection(g)) && id in s.calls && !s.calls[id].IdleFlushing?
    ensures CallInv(ExitSection(s, g), id)
  {
    assert CallInv(s, id);
    assert GenInv(s, g);
  }

  lemma WorkerCallStep(s: Sampler, a: Action, id: CallId)
    requires Inv(s) && CanAct(s, a) && !a.Proceed? && id in s.calls && !s.calls[id].IdleFlushing?
    ensures id in Act(s, a).calls && CallInv(Act(s, a), id)
  {
    if a.WorkerSection? {
      ExitCallStep(s, a.gen, id);
    } else {
      assert CallInv(s, id);
    }
  }

  lemma IdleCallStep(s: Sampler, a: Action, id: CallId)
    requires Inv(s) && CanAct(s, a) && (a.Proceed? ==> a.id != id) && id in s.calls && s.calls[id].IdleFlushing?
    ensures id in Act(s, a).calls && CallInv(Act(s, a), id)
  {
    assert CallInv(s, id);
  }

  lemma OwnStep(s: Sampler, id: CallId, failed: bool)
    requires Inv(s) && id in s.calls && CanProceed(s, s.calls[id])
    ensures CallInv(Advance(s, id, failed), id)
  {
    assert CallInv(s, id);
    if s.current.Some? {
      assert GenInv(s, s.current.value);
    } else if s.calls[id].Stopping? {
      forall g | 0 <= g < |s.gens| ensures !s.gens[g].worker.Working? {
        assert GenInv(s, g);
      }
    }
  }

  lemma FieldStep(s: Sampler, a: Action)
    requires Inv(s) && CanAct(s, a)
    ensures FieldInv(Act(s, a))
  {
    if a.Proceed? {
      assert CallInv(s, a.id);
    }
  }

  lemma CallStep(s: Sampler, a: Action, id: CallId)
    requires Inv(s) && CanAct(s, a) && id in Act(s, a).calls
    ensures CallInv(Act(s, a), id)
  {
    if a.Proceed? && a.id == id {
      OwnStep(s, id, a.failed);
    } else if id in s.calls && s.calls[id].IdleFlushing? {
      IdleCallStep(s, a, id);
    } else if a.Proceed? {
      OtherCallStep(s, a.id, a.failed, id);
    } else if id in s.calls {
      WorkerCallStep(s, a, id);
    }
  }

  /** Every step keeps the invariant. */
  lemma StepKeepsInv(s: Sampler, a: Action)
    requires Inv(s) && CanAct(s, a)
    ensures Inv(Act(s, a))
  {
    var r := Act(s, a);
    FieldStep(s, a);
    forall g | 0 <= g < |r.gens| ensures GenInv(r, g) {
      GenStep(s, a, g);
    }
    forall id | id in r.calls ensures CallInv(r, id) {
      CallStep(s, a, id);
    }
  }

  lemma {:induction false} StepsKeepInv(states: seq<Sampler>, actions: seq<Action>, i: nat)
    requires Steps(states, actions) && Inv(states[0]) && i < |states|
    ensures Inv(states[i])
  {
    if i > 0 {
      StepsKeepInv(states, actions, i - 1);
      StepKeepsInv(states[i - 1], actions[i - 1]);
    }
  }

  lemma ExtendRun(states: seq<Sampler>, actions: seq<Action>, a: Action)
    returns (longer: seq<Sampler>, more: seq<Action>)
    requires IsRun(states, actions) && CanAct(states[|actions|], a)
    ensures more == actions + [a] && longer == states + [Act(states[|actions|], a)]
    ensures IsRun(longer, more)
  {
    more := actions + [a];
    longer := states + [Act(states[|actions|], a)];
    forall i | 0 <= i < |more| ensures CanAct(longer[i], more[i]) && longer[i + 1] == Act(longer[i], more[i]) {
      if i < |actions| {
        assert longer[i] == states[i] && longer[i + 1] == states[i + 1] && more[i] == actions[i];
      }
    }
  }

  // ---------------------------------------------------------------------------------------
  // Safety
  // ---------------------------------------------------------------------------------------

  /** Some worker may be executing jobs. */
  predicate Active(s: Sampler) {
    exists g :: 0 <= g < |s.gens| && s.gens[g].worker.Working?
  }

  /** At most one worker executes jobs, in every state of every run. */
  lemma OneWorker(states: seq<Sampler>, actions: seq<Action>, i: nat, g: nat, h: nat)
    requires IsRun(states, actions) && i < |states| && g < |states[i].gens| && h < |states[i].gens|
    requires states[i].gens[g].worker.Working? && states[i].gens[h].worker.Working?
    ensures g == h
  {
    StepsKeepInv(states, actions, i);
    assert GenInv(states[i], g) && GenInv(states[i], h);
  }

  /** No channel is closed twice, and no call closes a channel that is not there. */
  lemma ClosedAtMostOnce(states: seq<Sampler>, actions: seq<Action>, i: nat)
    requires IsRun(states, actions) && i < |states|
    ensures forall g :: 0 <= g < |states[i].gens| ==>
      states[i].gens[g].stops <= 1 && states[i].gens[g].dones <= 1 && states[i].gens[g].completes <= 1
    ensures forall id :: id in states[i].calls ==> !states[i].calls[id].Crashed?
  {
    StepsKeepInv(states, actions, i);
    forall g | 0 <= g < |states[i].gens|
      ensures states[i].gens[g].stops <= 1 && states[i].gens[g].dones <= 1 && states[i].gens[g].completes <= 1
    {
      assert GenInv(states[i], g);
    }
    forall id | id in states[i].calls ensures !states[i].calls[id].Crashed? {
      assert CallInv(states[i], id);
    }
  }

  /** While a stop flushes, no worker executes jobs and no other stop flushes. */
  lemma StopFlushesAlone(states: seq<Sampler>, actions: seq<Action>, i: nat, id: CallId)
    requires IsRun(states, actions) && i < |states| && id in states[i].calls && states[i].calls[id].Flushing?
    ensures !Active(states[i])
    ensures forall other :: other in states[i].calls && states[i].calls[other].Flushing? ==> other == id
  {
    StepsKeepInv(states, actions, i);
    var s := states[i];
    assert CallInv(s, id);
    forall g | 0 <= g < |s.gens| ensures !s.gens[g].worker.Working? {
      assert GenInv(s, g);
    }
    forall other | other in s.calls && s.calls[other].Flushing? ensures other == id {
      assert CallInv(s, other);
    }
  }

  // ---------------------------------------------------------------------------------------
  // The flush of a stop that found nothing running
  // ---------------------------------------------------------------------------------------

  lemma {:induction false} GenerationsGrow(states: seq<Sampler>, actions: seq<Action>, i: nat, j: nat)
    requires Steps(states, actions) && i <= j < |states|
    ensures |states[i].gens| <= |states[j].gens|
    decreases j - i
  {
    if i < j {
      assert states[i + 1] == Act(states[i], actions[i]);
      GenerationsGrow(states, actions, i + 1, j);
    }
  }

  /** A step that makes a generation leaves its worker working. */
  lemma MadeWorking(s: Sampler, a: Action)
    requires CanAct(s, a) && |Act(s, a).gens| > |s.gens|
    ensures Active(Act(s, a))
  {
    assert Act(s, a).gens[|s.gens|].worker.Working?;
  }

  /** A flush that found nothing running is alone from state `i` to state `j` if and only if no
      Start makes a generation meanwhile. Nothing in StopAndFlush prevents one. */
  lemma IdleFlushAloneExactly(states: seq<Sampler>, actions: seq<Action>, i: nat, j: nat, id: CallId)
    requires IsRun(states, actions) && i <= j < |states|
    requires forall k :: i <= k <= j ==> id in states[k].calls && states[k].calls[id] == IdleFlushing(|states[i].gens|)
    ensures (forall k :: i <= k <= j ==> !Active(states[k])) <==> |states[j].gens| == |states[i].gens|
  {
    GenerationsGrow(states, actions, i, j);
    if |states[j].gens| == |states[i].gens| {
      forall k | i <= k <= j ensures !Active(states[k]) {
        GenerationsGrow(states, actions, i, k);
        GenerationsGrow(states, actions, k, j);
        StepsKeepInv(states, actions, k);
        assert CallInv(states[k], id);
      }
    } else {
      var k := FirstMade(states, actions, i, j);
      MadeWorking(states[k], actions[k]);
      assert Active(states[k + 1]);
    }
  }

  lemma {:induction false} FirstMade(states: seq<Sampler>, actions: seq<Action>, i: nat, j: nat) returns (k: nat)
    requires Steps(states, actions) && i <= j < |states| && |states[i].gens| < |states[j].gens|
    ensures i <= k < j && |states[k].gens| < |states[k + 1].gens|
    decreases j - i
  {
    if |states[i].gens| < |states[i + 1].gens| {
      k := i;
    } else {
      assert states[i + 1] == Act(states[i], actions[i]);
      k := FirstMade(states, actions, i + 1, j);
    }
  }

  /** A run in which that flush overlaps a working generation. */
  lemma OverlappingRun() returns (states: seq<Sampler>, actions: seq<Action>)
    ensures IsRun(states, actions)
    ensures var s := states[|actions|]; Active(s) && 0 in s.calls && s.calls[0].IdleFlushing?
  {
    states, actions := [INIT], [];
    states, actions := ExtendRun(states, actions, CallStop(0));
    states, actions := ExtendRun(states, actions, Proceed(0, false));
    states, actions := ExtendRun(states, actions, CallStart(1));
    states, actions := ExtendRun(states, actions, Proceed(1, false));
    assert states[4].gens[0].worker.Working?;
  }

  // ---------------------------------------------------------------------------------------
  // Joining a stop
  // ---------------------------------------------------------------------------------------

  /** A call that joined a stop reports the outcome of the newest generation's stop, and success where
      that generation still runs, is being stopped or ended by itself: its own stop's outcome exactly
      if that generation is still the newest or the two agree. */
  lemma JoinedResult(states: seq<Sampler>, actions: seq<Action>, i: nat, id: CallId)
    requires IsRun(states, actions) && i < |actions| && actions[i].Proceed? && actions[i].id == id
    requires id in states[i].calls && states[i].calls[id].Reading?
    ensures states[i].calls[id].gen < |states[i].gens| && states[i].gens[states[i].calls[id].gen].outcome.Some?
    ensures id in states[i + 1].calls && states[i + 1].calls[id] == Returned(NewestOutcome(states[i]))
    ensures states[i].calls[id].gen + 1 == |states[i].gens| ==>
      states[i + 1].calls[id].failed == states[i].gens[states[i].calls[id].gen].outcome.value
    ensures states[i].running || states[i].stopping ==> !states[i + 1].calls[id].failed
  {
    StepsKeepInv(states, actions, i);
    assert CallInv(states[i], id);
    if states[i].current.Some? {
      assert GenInv(states[i], states[i].current.value);
    }
  }

  /** A call that flushes itself reports what its own flush reported: at once if it found nothing
      running, and otherwise after the lock section that follows. */
  lemma OwnFlushReported(s: Sampler, id: CallId, failed: bool)
    requires Inv(s) && id in s.calls
    ensures s.calls[id].IdleFlushing? ==> Advance(s, id, failed).calls[id] == Returned(failed)
    ensures s.calls[id].Flushing? ==> Advance(s, id, failed).calls[id] == Finalizing(s.calls[id].gen, failed)
    ensures s.calls[id].Finalizing? ==>
      && CanProceed(s, s.calls[id])
      && Advance(s, id, failed).calls[id] == Returned(s.calls[id].failed)
      && s.calls[id].gen < |Advance(s, id, failed).gens|
      && Advance(s, id, failed).gens[s.calls[id].gen].outcome == Some(s.calls[id].failed)
  {
    assert CallInv(s, id);
  }

  lemma StoppingRun() returns (states: seq<Sampler>, actions: seq<Action>)
    ensures IsRun(states, actions)
    ensures states[|actions|] == Sampler(false, true, Some(0), false, [Generation(Working, 1, 0, 0, Some(1), None)],
      map[0 := Returned(false), 1 := AwaitingWorker(0)])
  {
    states, actions := [INIT], [];
    states, actions := ExtendRun(states, actions, CallStart(0));
    states, actions := ExtendRun(states, actions, Proceed(0, false));
    states, actions := ExtendRun(states, actions, CallStop(1));
    states, actions := ExtendRun(states, actions, Proceed(1, false));
  }

  lemma JoinedRun() returns (states: seq<Sampler>, actions: seq<Action>)
    ensures IsRun(states, actions)
    ensures states[|actions|] == Sampler(false, true, Some(0), false, [Generation(Exiting, 1, 0, 0, Some(1), None)],
      map[0 := Returned(false), 1 := AwaitingWorker(0), 2 := StopWaiting(0)])
  {
    states, actions := StoppingRun();
    states, actions := ExtendRun(states, actions, CallStop(2));
    states, actions := ExtendRun(states, actions, Proceed(2, false));
    states, actions := ExtendRun(states, actions, WorkerStops(0));
  }

  lemma FailedStopRun() returns (states: seq<Sampler>, actions: seq<Action>)
    ensures IsRun(states, actions)
    ensures states[|actions|] == Sampler(false, false, None, true, [Generation(Gone, 1, 1, 1, Some(1), Some(true))],
      map[0 := Returned(false), 1 := Returned(true), 2 := StopWaiting(0)])
  {
    states, actions := JoinedRun();
    states, actions := ExtendRun(states, actions, WorkerSection(0));
    states, actions := ExtendRun(states, actions, WorkerCloses(0));
    states, actions := ExtendRun(states, actions, Proceed(1, false));
    states, actions := ExtendRun(states, actions, Proceed(1, true));
    states, actions := ExtendRun(states, actions, Proceed(1, true));
  }

  /** A run in which a stop fails to flush and a call that joined it reports success. */
  lemma ErrorLostRun() returns (states: seq<Sampler>, actions: seq<Action>, i: nat)
    ensures IsRun(states, actions) && i < |actions| && actions[i] == Proceed(2, false)
    ensures 2 in states[i].calls && states[i].calls[2] == Reading(0)
    ensures |states[i].gens| == 2 && states[i].gens[0].outcome == Some(true)
    ensures 2 in states[i + 1].calls && states[i + 1].calls[2] == Returned(false)
  {
    states, actions := FailedStopRun();
    states, actions := ExtendRun(states, actions, CallStart(3));
    states, actions := ExtendRun(states, actions, Proceed(3, false));
    states, actions := ExtendRun(states, actions, Proceed(2, false));
    i := |actions|;
    states, actions := ExtendRun(states, actions, Proceed(2, false));
  }

  // ---------------------------------------------------------------------------------------
  // Every waiter is released
  // ---------------------------------------------------------------------------------------

  /** Some call waits on the complete channel of `g`. */
  predicate Awaited(s: Sampler, g: nat) {
    exists id :: id in s.calls && (s.calls[id] == StartWaiting(g) || s.calls[id] == StopWaiting(g))
  }

  /** The stop of `g` is under way, or its complete channel is closed. */
  predicate Owed(s: Sampler, g: nat) {
    g < |s.gens| && (Closed(s.gens[g].completes) || (IsCurrent(s, g) && s.stopping))
  }

  /** An action of the generation's worker or of the call that stops it. */
  predicate Helps(s: Sampler, a: Action, g: nat) {
    && g < |s.gens|
    && match a
       case Proceed(id, _) => s.gens[g].stopper == Some(id)
       case WorkerStops(h) => h == g
       case WorkerPanics(h) => h == g
       case WorkerSection(h) => h == g
       case WorkerCloses(h) => h == g
       case _ => false
  }

  function WorkerRank(w: Worker): (n: nat) {
    match w case Working => 3 case Exiting => 2 case Leaving => 1 case Gone => 0
  }

  /** How many helping actions are left before the complete channel of `g` is closed. */
  function Distance(s: Sampler, g: nat): (n: nat)
    requires g < |s.gens|
  {
    if Closed(s.gens[g].completes) || s.gens[g].stopper.None? || s.gens[g].stopper.value !in s.calls then 0
    else match s.calls[s.gens[g].stopper.value]
      case AwaitingWorker(_) => 3 + WorkerRank(s.gens[g].worker)
      case Flushing(_) => 2
      case _ => 1
  }

  /** While the channel is open some helping action is enabled, whatever the flush reports. */
  lemma NeverStuck(s: Sampler, g: nat) returns (a: Action)
    requires Inv(s) && Owed(s, g) && !Closed(s.gens[g].completes)
    ensures Helps(s, a, g) && CanAct(s, a) && !a.WorkerPanics?
  {
    assert GenInv(s, g);
    var id := s.gens[g].stopper.value;
    assert CallInv(s, id);
    if s.calls[id].AwaitingWorker? && !s.gens[g].worker.Gone? {
      a := match s.gens[g].worker
        case Working => WorkerStops(g)
        case Exiting => WorkerSection(g)
        case _ => WorkerCloses(g);
    } else {
      a := Proceed(id, false);
    }
  }

  lemma CallsApproach(s: Sampler, id: CallId, failed: bool, g: nat)
    requires Inv(s) && id in s.calls && CanProceed(s, s.calls[id]) && Owed(s, g) && !Closed(s.gens[g].completes)
    ensures var r := Advance(s, id, failed);
      && Owed(r, g) && Distance(r, g) <= Distance(s, g)
      && (s.gens[g].stopper == Some(id) ==> Distance(r, g) < Distance(s, g))
  {
    assert GenInv(s, g);
    assert CallInv(s, id);
    assert CallInv(s, s.gens[g].stopper.value);
  }

  lemma WorkersApproach(s: Sampler, a: Action, g: nat)
    requires Inv(s) && CanAct(s, a) && !a.Proceed? && Owed(s, g) && !Closed(s.gens[g].completes)
    ensures var r := Act(s, a);
      && Owed(r, g) && Distance(r, g) <= Distance(s, g)
      && (Helps(s, a, g) ==> Distance(r, g) < Distance(s, g))
  {
    assert GenInv(s, g);
    assert CallInv(s, s.gens[g].stopper.value);
  }

  /** A helping action brings the close nearer; no other action takes it further away. */
  lemma HelpersApproach(s: Sampler, a: Action, g: nat)
    requires Inv(s) && CanAct(s, a) && Owed(s, g)
    ensures Owed(Act(s, a), g)
    ensures Distance(Act(s, a), g) <= Distance(s, g)
    ensures Helps(s, a, g) && Distance(s, g) > 0 ==> Distance(Act(s, a), g) < Distance(s, g)
  {
    if Closed(s.gens[g].completes) {
      GenStep(s, a, g);
    } else if a.Proceed? {
      CallsApproach(s, a.id, a.failed, g);
    } else {
      WorkersApproach(s, a, g);
    }
  }

  /** The helping actions from state `i` to state `j`. */
  function Help(states: seq<Sampler>, actions: seq<Action>, i: nat, j: nat, g: nat): (n: nat)
    requires i <= j <= |actions| < |states|
    decreases j - i
  {
    if i == j then 0 else (if Helps(states[i], actions[i], g) then 1 else 0) + Help(states, actions, i + 1, j, g)
  }

  lemma {:induction false} HelpReleases(states: seq<Sampler>, actions: seq<Action>, i: nat, j: nat, g: nat)
    requires IsRun(states, actions) && i <= j < |states| && Owed(states[i], g)
    requires Distance(states[i], g) <= Help(states, actions, i, j, g)
    ensures Owed(states[j], g) && Closed(states[j].gens[g].completes)
    decreases j - i
  {
    StepsKeepInv(states, actions, i);
    if i < j {
      HelpersApproach(states[i], actions[i], g);
      HelpReleases(states, actions, i + 1, j, g);
    } else {
      assert GenInv(states[i], g);
    }
  }

  /** A waiter on the complete channel of `g` is released: the channel is closed, and stays so,
      after at most six actions of that generation's worker and stopper, one of which is enabled
      for as long as it is open. */
  lemma WaitersReleased(states: seq<Sampler>, actions: seq<Action>, i: nat, j: nat, g: nat)
    requires IsRun(states, actions) && i <= j < |states| && Awaited(states[i], g)
    ensures Owed(states[i], g)
    ensures 6 <= Help(states, actions, i, j, g) ==> g < |states[j].gens| && Closed(states[j].gens[g].completes)
    ensures g < |states[j].gens|
    ensures Closed(states[j].gens[g].completes) || exists a :: Helps(states[j], a, g) && CanAct(states[j], a)
  {
    StepsKeepInv(states, actions, i);
    var id :| id in states[i].calls &&
      (states[i].calls[id] == StartWaiting(g) || states[i].calls[id] == StopWaiting(g));
    assert CallInv(states[i], id);
    assert GenInv(states[i], g);
    if 6 <= Help(states, actions, i, j, g) {
      HelpReleases(states, actions, i, j, g);
    }
    StaysOwed(states, actions, i, j, g);
    StepsKeepInv(states, actions, j);
    if !Closed(states[j].gens[g].completes) {
      var a := NeverStuck(states[j], g);
    }
  }

  lemma {:induction false} StaysOwed(states: seq<Sampler>, actions: seq<Action>, i: nat, j: nat, g: nat)
    requires IsRun(states, actions) && i <= j < |states| && Owed(states[i], g)
    ensures Owed(states[j], g)
    decreases j - i
  {
    if i < j {
      StepsKeepInv(states, actions, i);
      HelpersApproach(states[i], actions[i], g);
      StaysOwed(states, actions, i + 1, j, g);
    }
  }
}
