/**
 How a controller runs its processors, one for each handler: it calls the blocking `Run` of one after
 the other. A processor starts its workers, none if their number is below one, waits until the context
 is done, and shuts its queue down; a worker does not call `Process` once the context is done (it is the
 `Enter` of `Pipeline`).
 */
module ControllerRun {
  import opened Wrappers

  datatype State = State(
    current: nat,          // the processor whose Run is being called
    spawned: set<nat>,     // processors that have started their workers
    done: bool             // the context is done
  )

  datatype Label =
    | Spawn(i: nat)        // Run of processor i starts its workers
    | Process(i: nat)      // a worker of processor i calls Process
    | Cancel               // the context is done
    | Leave(i: nat)        // Run of processor i returns

  const START := State(0, {}, false)

  predicate Enabled(processors: nat, workers: int, s: State, l: Label) {
    match l
    case Spawn(i) => i == s.current < processors && i !in s.spawned
    case Process(i) => workers > 0 && i in s.spawned && !s.done
    case Cancel => true
    case Leave(i) => i == s.current && i in s.spawned && s.done
  }

  function Apply(s: State, l: Label): State {
    match l
    case Spawn(i) => s.(spawned := s.spawned + {i})
    case Process(_) => s
    case Cancel => s.(done := true)
    case Leave(i) => s.(current := i + 1)
  }

  function Run(processors: nat, workers: int, trace: seq<Label>): Option<State> {
    if trace == [] then Some(START)
    else
      match Run(processors, workers, trace[..|trace| - 1])
      case None => None
      case Some(s) =>
        var l := trace[|trace| - 1];
        if Enabled(processors, workers, s, l) then Some(Apply(s, l)) else None
  }

  lemma {:induction false} SpawnedRun(processors: nat, workers: int, trace: seq<Label>, s: State)
    requires Run(processors, workers, trace) == Some(s)
    ensures s.current > 0 ==> s.done
    ensures forall i | i in s.spawned :: i <= s.current && i < processors
  {
    if trace != [] {
      var before := trace[..|trace| - 1];
      SpawnedRun(processors, workers, before, Run(processors, workers, before).value);
    }
  }

  /** Whether a worker of processor `i` calls `Process` in some run. */
  ghost predicate Works(processors: nat, workers: int, i: nat) {
    exists trace :: Run(processors, workers, trace).Some? && Process(i) in trace
  }

  lemma {:induction false} OnlyFirstProcesses(processors: nat, workers: int, trace: seq<Label>, i: nat)
    requires Run(processors, workers, trace).Some? && Process(i) in trace
    ensures i == 0 && processors > 0 && workers > 0
  {
    var n := |trace| - 1;
    var before := Run(processors, workers, trace[..n]).value;
    SpawnedRun(processors, workers, trace[..n], before);
    if trace[n] != Process(i) {
      OnlyFirstProcesses(processors, workers, trace[..n], i);
    }
  }

  /**
   Of the processors of a controller, exactly the first ever processes events, and it only with at
   least one worker: the next one is started when the context is done, and then no worker calls
   `Process` any more.
   */
  lemma WorksIff(processors: nat, workers: int, i: nat)
    ensures Works(processors, workers, i) <==> i == 0 && i < processors && workers > 0
  {
    if Works(processors, workers, i) {
      var trace :| Run(processors, workers, trace).Some? && Process(i) in trace;
      OnlyFirstProcesses(processors, workers, trace, i);
    }
    if i == 0 && i < processors && workers > 0 {
      var trace := [Spawn(0), Process(0)];
      assert trace[..1] == [Spawn(0)] && [Spawn(0)][..0] == [];
      assert Run(processors, workers, [Spawn(0)]) == Some(Apply(START, Spawn(0)));
      assert Process(0) in trace;
    }
  }
}
