/** A job's program followed by itself: which calls it makes, given how its stages and calls end.
    Every worker of the state machine follows it, whatever the others do, and so do the Run methods
    (`TrainingRuns`, `ClassifyRuns`, `DatasetRuns`, `DatafileRuns`). */
module Scripts {
  import opened Documents
  import opened Protocol

  datatype Input = Ended(error: Option<string>) | Returned(outcome: Outcome)

  /** How the stages and calls of a run ended so far. */
  datatype Inputs = Nothing | Then(earlier: Inputs, latest: Input)

  /** The operations that are left, plain assignments aside, and the calls made so far. */
  datatype Progress = Progress(todo: seq<Op>, calls: seq<Call>)

  function SkipAssigns(ops: seq<Op>): (rest: seq<Op>)
    ensures rest != [] ==> !rest[0].Assign?
  {
    if ops != [] && ops[0].Assign? then SkipAssigns(ops[1..]) else ops
  }

  function Begin(job: Job): Progress {
    Progress(SkipAssigns(Program(job)), [])
  }

  predicate Fits(p: Progress, i: Input) {
    p.todo != [] && if i.Ended? then IsStage(p.todo[0]) else IsCall(p.todo[0])
  }

  function Act(job: Job, p: Progress, i: Input): Progress
    requires Fits(p, i)
  {
    match i
    case Ended(error) => p.(todo := SkipAssigns(RemainingAfterStage(job, p.todo, error)))
    case Returned(outcome) =>
      Progress(SkipAssigns(Remaining(job, p.todo, outcome)), p.calls + [Call(UpdateOf(p.todo[0]), outcome)])
  }

  /** Where the program of a job is after these inputs; None if they do not fit it. */
  function Play(job: Job, inputs: Inputs): Option<Progress> {
    match inputs
    case Nothing => Some(Begin(job))
    case Then(earlier, latest) =>
      var p := Play(job, earlier);
      if p.Some? && Fits(p.value, latest) then Some(Act(job, p.value, latest)) else None
  }

  function ProgressOf(w: Worker): Progress {
    Progress(SkipAssigns(w.todo), w.calls)
  }

  /** The inputs of worker id's program, with what an event tells it. */
  function InputsAfter(inputs: Inputs, s: State, e: Event, id: nat): Inputs
    requires Enabled(s, e)
  {
    if e.Spawn? || e.id != id then inputs
    else if e.Report? then Then(inputs, Ended(e.error))
    else
      var calls := Next(s, e).workers[id].calls;
      if |calls| > |s.workers[id].calls| then Then(inputs, Returned(calls[|calls| - 1].outcome)) else inputs
  }

  function InputsOf(inputs: Inputs, s: State, run: seq<Event>, id: nat): Inputs
    requires Legal(s, run)
    decreases |run|
  {
    if run == [] then inputs else InputsOf(InputsAfter(inputs, s, run[0], id), Next(s, run[0]), run[1..], id)
  }

  lemma StepPlays(s: State, e: Event, id: nat, inputs: Inputs)
    requires Enabled(s, e) && id in s.workers && Play(s.workers[id].job, inputs) == Some(ProgressOf(s.workers[id]))
    ensures id in Next(s, e).workers && Next(s, e).workers[id].job == s.workers[id].job
    ensures Play(s.workers[id].job, InputsAfter(inputs, s, e, id)) == Some(ProgressOf(Next(s, e).workers[id]))
  {
    if e.Spawn? || e.id != id {
      assert Next(s, e).workers[id] == s.workers[id];
    } else {
      OwnEventPlays(s, e, inputs);
    }
  }

  lemma OwnEventPlays(s: State, e: Event, inputs: Inputs)
    requires Enabled(s, e) && !e.Spawn? && Play(s.workers[e.id].job, inputs) == Some(ProgressOf(s.workers[e.id]))
    ensures Play(s.workers[e.id].job, InputsAfter(inputs, s, e, e.id)) == Some(ProgressOf(Next(s, e).workers[e.id]))
  {
  }

  lemma {:induction false} WorkerPlaysOn(s: State, run: seq<Event>, id: nat, inputs: Inputs)
    requires Legal(s, run) && id in s.workers && Play(s.workers[id].job, inputs) == Some(ProgressOf(s.workers[id]))
    ensures id in Exec(s, run).workers && Exec(s, run).workers[id].job == s.workers[id].job
    ensures Play(s.workers[id].job, InputsOf(inputs, s, run, id)) == Some(ProgressOf(Exec(s, run).workers[id]))
    decreases |run|
  {
    if run != [] {
      StepPlays(s, run[0], id, inputs);
      WorkerPlaysOn(Next(s, run[0]), run[1..], id, InputsAfter(inputs, s, run[0], id));
    }
  }

  /** In every run, with any store errors, every worker is where its program is after the worker's
      own inputs: the others can change how its calls end, but not which calls it makes. */
  lemma {:induction false} WorkersPlayTheirPrograms(s: State, run: seq<Event>, id: nat)
    requires Legal(s, run) && id !in s.workers && id in Exec(s, run).workers
    ensures var w := Exec(s, run).workers[id];
            Play(w.job, InputsOf(Nothing, s, run, id)) == Some(ProgressOf(w))
    decreases |run|
  {
    var t := Next(s, run[0]);
    if run[0].Spawn? && run[0].id == id {
      WorkerPlaysOn(t, run[1..], id, Nothing);
    } else {
      assert InputsAfter(Nothing, s, run[0], id) == Nothing && id !in t.workers;
      WorkersPlayTheirPrograms(t, run[1..], id);
    }
  }

  /** No worker is ever stuck: whatever the others and the store do, a worker with something left to do
      can take its next step, or its next stage can end, in any way. */
  lemma WorkersCanMove(s: State, id: nat, error: Option<string>)
    requires s.history != [] && id in s.workers && s.workers[id].todo != []
    ensures Enabled(s, Step(id)) || Enabled(s, Report(id, error))
  {
  }

  /** Any job can be created at any time, and any Edit or Retrieve can fail in either way. */
  lemma AnythingCanHappen(s: State, id: nat, job: Job, stored: bool)
    requires s.history != []
    ensures id !in s.workers ==> Enabled(s, Spawn(id, job))
    ensures id in s.workers && AtCall(s.workers[id]) && s.workers[id].phase != Between ==>
              Enabled(s, Fault(id, stored))
  {
  }
}
